/** What the relay answers over HTTP, told by the calls alone: who gets in, who may write, and what is read back. */
module TrafficHistory {
  import opened Prelude
  import opened Decimals
  import opened Sequences
  import opened Crypto
  import opened Message
  import opened SessionSpec
  import opened Dispatch
  import H = SessionHistory

  // ---- The token of the creation ----

  ghost function AnswerTo(arrivals: seq<Arrival>, i: nat): Response
    requires i < |arrivals|
  {
    Answer(Served(arrivals[..i]), arrivals[i].call, arrivals[i].host)
  }

  /** Call `i` created the session, and its answer carried this token. */
  ghost predicate Minted(arrivals: seq<Arrival>, i: nat, token: string) {
    && i < |arrivals| && AnswerTo(arrivals, i).status == 200 && AnswerTo(arrivals, i).body.CreatedReply?
    && AnswerTo(arrivals, i).body.joinToken == token
  }

  lemma LastArrival(arrivals: seq<Arrival>, i: nat)
    requires i < |arrivals|
    ensures Served(arrivals[..i + 1]) == NextState(Served(arrivals[..i]), arrivals[i].call, arrivals[i].host)
  {
    hide NextState;
    assert arrivals[..i + 1][..i] == arrivals[..i];
  }

  lemma StaysServed(arrivals: seq<Arrival>, n: nat)
    requires n <= |arrivals| && Served(arrivals[..n]).Some?
    ensures Served(arrivals).Some?
  {
    hide Served, Inv, Extends;
    EveryTrafficKeepsInv(arrivals, n);
  }

  /** A creation is answered with the session's id, the fresh token and the creator, exactly when it creates. */
  lemma CreationAnswered(s: Option<State>, c: Context, h: Host)
    ensures Answer(s, c, h).status == 200 && Answer(s, c, h).body.CreatedReply? <==>
            c.verb == "POST" && c.path == "/init" && s.None? && c.body.maxMembers >= 2
    ensures Answer(s, c, h).body.CreatedReply? ==>
              && Answer(s, c, h).status == 200
              && Answer(s, c, h).body == CreatedReply(c.sessionId, h.newToken, c.body.creator.fingerprint)
              && NextState(s, c, h).Some?
              && H.CreatedBy(NextState(s, c, h).value,
                             InitRequest(c.sessionId, c.body.maxMembers, c.body.creator, h.newToken))
              && NextState(s, c, h).value.members == map[c.body.creator.fingerprint := Member(c.body.creator, 0)]
              && NextState(s, c, h).value.log == [] && NextState(s, c, h).value.meta.epoch == 0
  {
    hide Authentic, TokenHash, WithWraps, Fetch, Roster;
  }

  lemma MintedOnce(arrivals: seq<Arrival>, i: nat, j: nat, t: string, u: string)
    requires Minted(arrivals, i, t) && Minted(arrivals, j, u)
    ensures i == j && t == u
  {
    hide Answer, NextState, Served;
    var a, b := arrivals[i], arrivals[j];
    CreationAnswered(Served(arrivals[..i]), a.call, a.host);
    CreationAnswered(Served(arrivals[..j]), b.call, b.host);
    if i != j {
      var (first, second) := if i < j then (i, j) else (j, i);
      LastArrival(arrivals, first);
      assert arrivals[..second][..first + 1] == arrivals[..first + 1];
      StaysServed(arrivals[..second], first + 1);
    }
  }

  lemma CallKeepsCreation(s: Option<State>, c: Context, h: Host, r: Request)
    requires s.Some? && H.CreatedBy(s.value, r)
    ensures NextState(s, c, h).Some? && H.CreatedBy(NextState(s, c, h).value, r)
  {
    hide Authentic, TokenHash, WithWraps;
  }

  lemma OpensByCreation(s: Option<State>, c: Context, h: Host)
    requires s.None? && NextState(s, c, h).Some?
    ensures Answer(s, c, h).status == 200 && Answer(s, c, h).body.CreatedReply?
  {
    hide Authentic, TokenHash, WithWraps, Fetch, Roster;
  }

  /** An open session was created by one of the calls, and still remembers what that call said. */
  lemma {:induction false} CreationOf(arrivals: seq<Arrival>) returns (i: nat)
    requires Served(arrivals).Some?
    ensures i < |arrivals| && Minted(arrivals, i, arrivals[i].host.newToken)
    ensures var a := arrivals[i];
            H.CreatedBy(Served(arrivals).value, InitRequest(a.call.sessionId, a.call.body.maxMembers, a.call.body.creator, a.host.newToken))
  {
    hide Answer, NextState, H.CreatedBy;
    var n := |arrivals| - 1;
    var last := arrivals[n];
    LastArrival(arrivals, n);
    assert arrivals[..n + 1] == arrivals;
    if Served(arrivals[..n]).None? {
      i := n;
      OpensByCreation(Served(arrivals[..n]), last.call, last.host);
      CreationAnswered(Served(arrivals[..n]), last.call, last.host);
    } else {
      i := CreationOf(arrivals[..n]);
      assert arrivals[..n][..i] == arrivals[..i];
      var a := arrivals[i];
      CallKeepsCreation(Served(arrivals[..n]), last.call, last.host,
                        InitRequest(a.call.sessionId, a.call.body.maxMembers, a.call.body.creator, a.host.newToken));
    }
  }

  lemma ServedInv(arrivals: seq<Arrival>)
    ensures Served(arrivals).Some? ==> Inv(Served(arrivals).value)
  {
    hide Served, Inv, Extends;
    EveryTrafficKeepsInv(arrivals, 0);
  }

  /** The token in the creation's answer, a free place, and a name not taken. */
  ghost predicate MayEnter(arrivals: seq<Arrival>, token: string, member: MemberInput) {
    exists i: nat ::
      && i < |arrivals| && Minted(arrivals, i, token) && Served(arrivals).Some?
      && |Served(arrivals).value.members| < arrivals[i].call.body.maxMembers
      && member.fingerprint !in Served(arrivals).value.members
  }

  /**
   * After any traffic a join is answered 200 exactly with the token the creation's answer carried, while there is room,
   * and under a new name; the answer then lists everyone, and nothing but that member has been added.
   */
  lemma TokenAdmits(arrivals: seq<Arrival>, c: Context, h: Host)
    requires c.verb == "POST" && c.path == "/join"
    ensures Answer(Served(arrivals), c, h).status == 200 <==> MayEnter(arrivals, c.body.joinToken, c.body.member)
    ensures Answer(Served(arrivals), c, h).status == 200 ==>
              var s, t := Served(arrivals).value, NextState(Served(arrivals), c, h).value;
              && t.members == s.members[c.body.member.fingerprint := Member(c.body.member, |s.log|)]
              && t.log == s.log && t.keys == s.keys
              && Answer(Served(arrivals), c, h).body == JoinedReply(Roster(t.members), |s.members|, |t.members| == t.meta.maxMembers)
  {
    hide Served, TokenHash, Inv, Roster, Minted;
    var s := Served(arrivals);
    if s.Some? {
      var i := CreationOf(arrivals);
      ServedInv(arrivals);
      H.FullIsLocked(s.value);
      H.RoomLeft(s.value);
      if c.body.joinToken != arrivals[i].host.newToken && TokenHash(c.body.joinToken) == TokenHash(arrivals[i].host.newToken) {
        H.TokenHashInjective(c.body.joinToken, arrivals[i].host.newToken);
      }
      forall j: nat | Minted(arrivals, j, c.body.joinToken) ensures j == i && c.body.joinToken == arrivals[i].host.newToken {
        MintedOnce(arrivals, j, i, c.body.joinToken, arrivals[i].host.newToken);
      }
    }
  }

  /** No other call adds a member. */
  lemma OnlyJoinsAdmit(arrivals: seq<Arrival>, c: Context, h: Host)
    requires Served(arrivals).Some? && NextState(Served(arrivals), c, h).Some?
    requires NextState(Served(arrivals), c, h).value.members != Served(arrivals).value.members
    ensures c.verb == "POST" && c.path == "/join" && MayEnter(arrivals, c.body.joinToken, c.body.member)
  {
    hide MayEnter, Served;
    JoinChanges(Served(arrivals), c, h);
    TokenAdmits(arrivals, c, h);
  }

  lemma JoinChanges(s: Option<State>, c: Context, h: Host)
    requires s.Some? && NextState(s, c, h).Some? && NextState(s, c, h).value.members != s.value.members
    ensures c.verb == "POST" && c.path == "/join" && Answer(s, c, h).status == 200
  {
    hide Authentic, TokenHash, WithWraps, Fetch, Roster;
  }

  // ---- The gate ----

  /** A member's own signature on this very call, made within five minutes of the relay's clock. */
  ghost predicate SignedByMember(s: Option<State>, c: Context, h: Host) {
    && s.Some? && c.member.Some? && c.member.value != "" && c.member.value in s.value.members
    && c.timestamp.Some? && c.timestamp.value != ""
    && h.toNumber(c.timestamp.value).Some? && -300000.0 <= h.now - h.toNumber(c.timestamp.value).value <= 300000.0
    && var text := "randevu/req/v1|" + c.verb + "|/sessions/" + c.sessionId + c.path + "|" + c.timestamp.value;
    c.signature == Some(HexField(Signature(s.value.members[c.member.value].input.identityPub, Sha256([Utf8(Lift(text))]))))
  }

  /** Members, messages, keys and status are for members only; everyone else is turned away and nothing happens. */
  lemma GateHolds(s: Option<State>, c: Context, h: Host)
    ensures (c.path == "/members" || c.path == "/messages" || c.path == "/keys" || c.path == "/status") && !SignedByMember(s, c, h) <==>
            Answer(s, c, h) == Response(401, ErrorReply("unauthenticated"))
    ensures Answer(s, c, h).status == 401 ==> NextState(s, c, h) == s
  {
    hide Lift, WithWraps, TokenHash, Fetch, Roster;
    if c.timestamp.Some? {
      var ts := c.timestamp.value;
      assert RequestCanonical(c.verb, FullPath(c), ts) == "randevu/req/v1|" + c.verb + "|/sessions/" + c.sessionId + c.path + "|" + ts by {
        CanonicalText(c.verb, c.sessionId, c.path, ts);
      }
    }
  }

  lemma CanonicalText(verb: string, sessionId: string, path: string, ts: string)
    ensures "randevu/req/v1|" + verb + "|" + ("/sessions/" + sessionId + path) + "|" + ts ==
            "randevu/req/v1|" + verb + "|/sessions/" + sessionId + path + "|" + ts
  {
    var tag := "randevu/req/v1|" + verb;
    assert "|" + "/sessions/" == "|/sessions/";
    assert tag + "|" + ("/sessions/" + sessionId + path) == tag + ("|" + "/sessions/") + sessionId + path;
  }

  // ---- What is answered past the gate ----

  /** A post is numbered by its place in the log, and stands there; one from a stranger is refused and leaves no trace. */
  lemma PostAnswered(s: Option<State>, c: Context, h: Host)
    requires c.verb == "POST" && c.path == "/messages" && SignedByMember(s, c, h)
    ensures
      var m, n := c.body.message, |s.value.log| + 1;
      if m.senderId in s.value.members
      then Answer(s, c, h) == Response(200, PostedReply(n))
           && NextState(s, c, h) == Some(s.value.(log := s.value.log + [m.(seqNo := n)]))
      else Answer(s, c, h) == Response(403, ErrorReply("not_a_member")) && NextState(s, c, h) == s
  {
    hide Answer, NextState;
    GateHolds(s, c, h);
    PostRouted(s, c, h);
  }

  lemma PostRouted(s: Option<State>, c: Context, h: Host)
    requires c.verb == "POST" && c.path == "/messages" && s.Some?
    requires Answer(s, c, h) != Response(401, ErrorReply("unauthenticated"))
    ensures
      var m, n := c.body.message, |s.value.log| + 1;
      if m.senderId in s.value.members
      then Answer(s, c, h) == Response(200, PostedReply(n))
           && NextState(s, c, h) == Some(s.value.(log := s.value.log + [m.(seqNo := n)]))
      else Answer(s, c, h) == Response(403, ErrorReply("not_a_member")) && NextState(s, c, h) == s
  {
    hide Authentic, TokenHash, WithWraps, Fetch, Roster;
  }

  /** A fetch answers everything past the cursor, in order, and the number of the last message as the next cursor. */
  lemma FetchAnswered(s: Option<State>, c: Context, h: Host)
    requires c.verb == "GET" && c.path == "/messages" && SignedByMember(s, c, h)
    requires Numbered(s.value.log) && |s.value.log| < 1_000_000_000_000
    ensures
      var log := s.value.log;
      var late := if c.after <= 0 then log else if c.after >= |log| then [] else log[c.after..];
      Answer(s, c, h) == Response(200, MessagesReply(late, if late == [] then c.after else |log|))
    ensures NextState(s, c, h) == s
  {
    hide Answer, NextState, Fetch, Power10;
    GateHolds(s, c, h);
    FetchRouted(s, c, h);
    TwelveDigits();
    FetchBelowWidth(s.value.log, c.after, LOG_WIDTH);
  }

  lemma FetchRouted(s: Option<State>, c: Context, h: Host)
    requires c.verb == "GET" && c.path == "/messages" && s.Some?
    requires Answer(s, c, h) != Response(401, ErrorReply("unauthenticated"))
    ensures
      var messages := Fetch(s.value.log, c.after, LOG_WIDTH);
      Answer(s, c, h) == Response(200, MessagesReply(messages, if messages == [] then c.after else messages[|messages| - 1].seqNo))
    ensures NextState(s, c, h) == s
  {
    hide Authentic, TokenHash, WithWraps, Fetch, Roster;
  }

  /** A key is answered to whoever of the members asks, exactly as it stands under that epoch and recipient. */
  lemma KeyAnswered(s: Option<State>, c: Context, h: Host)
    requires c.verb == "GET" && c.path == "/keys" && SignedByMember(s, c, h)
    ensures Answer(s, c, h) == if (c.epoch, c.memberParam) in s.value.keys
                               then Response(200, KeyReply(s.value.keys[(c.epoch, c.memberParam)]))
                               else Response(404, ErrorReply("key_not_found"))
    ensures NextState(s, c, h) == s
  {
    hide Lift, TokenHash, WithWraps, Fetch, Roster, RequestCanonical, Fresh;
    GateHolds(s, c, h);
  }

  /** Only the creator's key post is taken; it changes nothing but the keys. */
  lemma KeyPostAnswered(s: Option<State>, c: Context, h: Host)
    requires c.verb == "POST" && c.path == "/keys" && SignedByMember(s, c, h)
    ensures NextState(s, c, h).Some? && NextState(s, c, h).value == s.value.(keys := NextState(s, c, h).value.keys)
    ensures Answer(s, c, h) ==
            if c.body.senderId !in s.value.members then Response(403, ErrorReply("not_a_member"))
            else if c.body.senderId != s.value.meta.creatorId then Response(403, ErrorReply("not_key_holder"))
            else Response(200, OkReply)
    ensures Answer(s, c, h).status != 200 ==> NextState(s, c, h) == s
  {
    hide Lift, TokenHash, WithWraps, Fetch, Roster, RequestCanonical, Fresh;
    GateHolds(s, c, h);
  }

  /** The status tells the session's epoch, lock, members and number of messages, and a listing the members alone. */
  lemma StatusAnswered(s: Option<State>, c: Context, h: Host)
    requires c.verb == "GET" && SignedByMember(s, c, h) && NamesMatch(s.value.members)
    ensures c.path == "/status" ==>
              Answer(s, c, h).status == 200 && Answer(s, c, h).body.SessionReply?
              && var r := Answer(s, c, h).body.status;
              && r.meta == s.value.meta && r.lastSeq == |s.value.log| && |r.members| == |s.value.members|
              && forall m :: m in r.members <==> m.input.fingerprint in s.value.members && s.value.members[m.input.fingerprint] == m
    ensures c.path == "/members" ==>
              Answer(s, c, h).status == 200 && Answer(s, c, h).body.MembersReply?
              && var members := Answer(s, c, h).body.members;
              && |members| == |s.value.members|
              && forall m :: m in members <==> m.input.fingerprint in s.value.members && s.value.members[m.input.fingerprint] == m
    ensures NextState(s, c, h) == s
  {
    hide Lift, TokenHash, WithWraps, Fetch, Roster, RequestCanonical, Fresh, NamesMatch;
    GateHolds(s, c, h);
    RosterListsMembers(s.value.members);
  }

  /** Any other verb or path is not found, and nothing happens. */
  lemma OthersNotFound(s: Option<State>, c: Context, h: Host)
    requires c.verb == "POST" ==> c.path !in {"/init", "/join", "/messages", "/keys"}
    requires c.verb == "GET" ==> c.path !in {"/members", "/messages", "/keys", "/status"}
    ensures NextState(s, c, h) == s
    ensures Answer(s, c, h) == Response(404, ErrorReply("not_found"))
            || Answer(s, c, h) == Response(401, ErrorReply("unauthenticated"))
  {
    hide Authentic, TokenHash, WithWraps, Fetch, Roster;
  }
}
