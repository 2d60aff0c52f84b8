/** The relay of a run is the session its requests make: what is proved of request histories holds of runs. */
module RunRequests {
  import opened Prelude
  import opened Crypto
  import opened Message
  import opened Client
  import opened Protocol
  import opened ProtocolInvariant
  import opened ProtocolRuns
  import opened Guarantees
  import opened CallProgress
  import S = SessionSpec
  import H = SessionHistory

  /** The changing request a step sends, if it is enabled. */
  ghost function RequestOf(w: World, e: Event): Option<S.Request> {
    if e.who !in w.procs then None
    else
      var p := w.procs[e.who];
      match e
      case CreateSession(_, maxMembers, sessionId, token) =>
        if w.relay.None? && p.phase.Idle? then Some(S.InitRequest(sessionId, maxMembers, p.client.Self(), token)) else None
      case JoinSession(who, token) =>
        if w.relay.Some? && p.phase.Idle? && !IsMember(w, who) then Some(S.JoinRequest(token, p.client.Self())) else None
      case PostKeys(who) =>
        if IsMember(w, who) && p.phase.PostingKeys? then
          var (commitment, signature) := SignGroupKey(p.client.sessionId, p.phase.epoch, p.phase.key, p.client.identity);
          Some(S.KeysRequest(p.client.MemberId(), p.phase.epoch, commitment, signature, p.phase.wraps))
        else None
      case PostMessage(who) =>
        if IsMember(w, who) && p.phase.Posting? then Some(S.PostRequest(p.phase.message)) else None
      case _ => None
  }

  /** A step changes the relay as its request does. */
  lemma StepRequests(w: World, e: Event)
    ensures Step(w, e).relay == match RequestOf(w, e) case None => w.relay case Some(r) => S.After(w.relay, r)
  {
    hide AfterStatus, AfterKeys, AfterPull, Pull, OnKey, Joined, Created, OnKeysPosted, SignGroupKey, Fingerprint,
         S.Fetch, S.Roster, S.Status, S.GetKey, S.Init, S.Join, S.PostKeys, S.PostMessage;
  }

  ghost function RequestsOf(sc: Scenario): seq<S.Request>
    decreases |sc.events|
  {
    if sc.events == [] then []
    else
      var earlier := sc.(events := sc.events[..|sc.events| - 1]);
      RequestsOf(earlier)
      + match RequestOf(Final(earlier), sc.events[|sc.events| - 1]) case None => [] case Some(r) => [r]
  }

  /** Whatever clients do, the relay is the session after the requests they made, in order. */
  lemma {:induction false} RelayIsHistory(sc: Scenario)
    ensures Final(sc).relay == S.AfterAll(None, RequestsOf(sc))
    decreases |sc.events|
  {
    hide S.After, RequestOf;
    if sc.events == [] {
      NobodyAtStart(sc);
    } else {
      var m := |sc.events| - 1;
      var earlier := sc.(events := sc.events[..m]);
      RelayIsHistory(earlier);
      assert sc.events[..m] + [sc.events[m]] == sc.events;
      OneMore(earlier, sc.events[m]);
      hide Step, Run, S.AfterAll;
      StepRequests(Final(earlier), sc.events[m]);
      var rs := RequestsOf(earlier);
      forall r: S.Request ensures S.AfterAll(None, rs + [r]) == S.After(S.AfterAll(None, rs), r) {
        OneRequestMore(rs, r);
      }
      assert rs + [] == rs;
    }
  }

  lemma OneRequestMore(rs: seq<S.Request>, r: S.Request)
    ensures S.AfterAll(None, rs + [r]) == S.After(S.AfterAll(None, rs), r)
  {
    hide S.After;
    assert (rs + [r])[..|rs|] == rs;
  }

  lemma NobodyAtStart(sc: Scenario)
    requires sc.events == []
    ensures Final(sc).relay.None?
  {
  }

  // ---- Who gets in ----

  /** Event `i` of the run created the session. */
  ghost predicate CreatedAt(sc: Scenario, i: nat) {
    && i < |sc.events| && sc.events[i].CreateSession?
    && Final(sc.(events := sc.events[..i])).relay.None? && Final(sc.(events := sc.events[..i + 1])).relay.Some?
  }

  lemma RequestKeepsTokens(s: S.State, r: S.Request)
    ensures S.After(Some(s), r).Some?
    ensures S.After(Some(s), r).value.tokens == s.tokens && S.After(Some(s), r).value.meta.maxMembers == s.meta.maxMembers
  {
    hide S.TokenHash, S.WithWraps;
  }

  lemma FirstRequest(w: World, e: Event)
    requires w.relay.None? && Step(w, e).relay.Some?
    ensures e.CreateSession?
    ensures Step(w, e).relay.value.tokens == {S.TokenHash(e.token)} && Step(w, e).relay.value.meta.maxMembers == e.maxMembers
  {
    StepRequests(w, e);
    hide Step, S.TokenHash, S.WithWraps;
  }

  /** The session remembers the token and the size its creation asked for. */
  lemma {:induction false} CreationIs(sc: Scenario) returns (i: nat)
    requires Final(sc).relay.Some?
    ensures i < |sc.events| && sc.events[i].CreateSession? && CreatedAt(sc, i)
    ensures Final(sc).relay.value.tokens == {S.TokenHash(sc.events[i].token)}
    ensures Final(sc).relay.value.meta.maxMembers == sc.events[i].maxMembers
    decreases |sc.events|
  {
    hide Step, S.TokenHash, Run;
    if sc.events == [] {
      NobodyAtStart(sc);
      assert false;
    } else {
      var m := |sc.events| - 1;
      var earlier := sc.(events := sc.events[..m]);
      assert sc.events[..m] + [sc.events[m]] == sc.events && sc.events[..m + 1] == sc.events;
      OneMore(earlier, sc.events[m]);
      if Final(earlier).relay.None? {
        i := m;
        FirstRequest(Final(earlier), sc.events[m]);
      } else {
        i := CreationIs(earlier);
        assert sc.events[..m][..i] == sc.events[..i] && sc.events[..m][..i + 1] == sc.events[..i + 1];
        StepRequests(Final(earlier), sc.events[m]);
        var s := Final(earlier).relay.value;
        forall r: S.Request
          ensures S.After(Some(s), r).Some? && S.After(Some(s), r).value.tokens == s.tokens
                  && S.After(Some(s), r).value.meta.maxMembers == s.meta.maxMembers
        {
          RequestKeepsTokens(s, r);
        }
      }
    }
  }

  /** A run's session is created once. */
  lemma CreatedOnce(sc: Scenario, i: nat, j: nat)
    requires CreatedAt(sc, i) && CreatedAt(sc, j)
    ensures i == j
  {
    if i != j {
      var (first, second) := if i < j then (i, j) else (j, i);
      StaysCreated(sc, first + 1, second);
    }
  }

  lemma {:induction false} StaysCreated(sc: Scenario, n: nat, m: nat)
    requires n <= m <= |sc.events| && Final(sc.(events := sc.events[..n])).relay.Some?
    ensures Final(sc.(events := sc.events[..m])).relay.Some?
    decreases m
  {
    hide Step, Run;
    if n < m {
      StaysCreated(sc, n, m - 1);
      var earlier := sc.(events := sc.events[..m - 1]);
      assert sc.events[..m] == sc.events[..m - 1] + [sc.events[m - 1]];
      OneMore(earlier, sc.events[m - 1]);
      StepRequests(Final(earlier), sc.events[m - 1]);
      hide RequestOf;
      if RequestOf(Final(earlier), sc.events[m - 1]).Some? {
        RequestKeepsTokens(Final(earlier).relay.value, RequestOf(Final(earlier), sc.events[m - 1]).value);
      }
    }
  }

  /** The session was created with this token, and for more members than are in. */
  ghost predicate Invited(sc: Scenario, token: string) {
    exists i: nat :: CreatedAt(sc, i) && sc.events[i].token == token && |Final(sc).joined| < sc.events[i].maxMembers
  }

  lemma JoinStep(w: World, who: PublicKey, token: string, sh: Shared)
    requires w.relay == Some(sh.s) && w.joined == sh.joined && RelayOk(sh) && who in w.procs && w.procs[who].phase.Idle?
    requires !IsMember(w, who) && w.procs[who].client.MemberId() == Fingerprint(who)
    ensures Step(w, JoinSession(who, token)).joined ==
            if S.TokenHash(token) in sh.s.tokens && |w.joined| < sh.s.meta.maxMembers then w.joined + [who] else w.joined
  {
    hide S.TokenHash, Joined, S.Roster, Fingerprint;
    assert |sh.s.members| == |sh.joined|;
  }

  /** A client outside the session that tries to join gets in exactly with the token of the creation, while there is room. */
  lemma JoinsWithToken(sc: Scenario, who: PublicKey, token: string)
    requires Fits(Final(sc)) && Final(sc).joined != [] && Final(sc).relay.Some?
    requires who in Final(sc).procs && Final(sc).procs[who].phase.Idle? && who !in Final(sc).joined
    ensures Step(Final(sc), JoinSession(who, token)).joined ==
            if Invited(sc, token) then Final(sc).joined + [who] else Final(sc).joined
  {
    hide *;
    var w := Final(sc);
    FinalOk(sc, w.joined[0]);
    StartedFacts(w);
    SharedParts(SharedOf(w));
    OutsiderFacts(w, who);
    JoinStep(w, who, token, SharedOf(w));
    var i := CreationIs(sc);
    InvitedBy(sc, token, i);
    if S.TokenHash(token) == S.TokenHash(sc.events[i].token) {
      H.TokenHashInjective(token, sc.events[i].token);
    }
  }

  lemma InvitedBy(sc: Scenario, token: string, i: nat)
    requires CreatedAt(sc, i)
    ensures Invited(sc, token) <==> sc.events[i].token == token && |Final(sc).joined| < sc.events[i].maxMembers
  {
    hide Final;
    if j: nat :| CreatedAt(sc, j) && sc.events[j].token == token && |Final(sc).joined| < sc.events[j].maxMembers {
      CreatedOnce(sc, i, j);
    }
  }

  lemma OutsiderFacts(w: World, who: PublicKey)
    requires Inv(w) && Started(w) && who in w.procs && who !in w.joined
    ensures w.procs[who].client.MemberId() == Fingerprint(who) && !IsMember(w, who)
  {
    hide SharedOk, ProcOk, Fingerprint;
    assert PartOk(w, who);
    NoStranger(SharedOf(w), who);
  }

  lemma NoStranger(sh: Shared, who: PublicKey)
    requires SharedOk(sh) && who !in sh.joined
    ensures Fingerprint(who) !in sh.s.members
  {
    hide S.Inv, Fingerprint, LogOk, KeysOk;
    if Fingerprint(who) in sh.s.members {
      var k :| k in sh.joined && Fingerprint(k) == Fingerprint(who);
      FingerprintInjective(k, who);
    }
  }
}
