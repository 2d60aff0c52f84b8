/** A session told by its history: who is let in, what is kept, and what is answered, from the requests alone. */
module SessionHistory {
  import opened Prelude
  import opened Decimals
  import opened Sequences
  import opened Crypto
  import opened Message
  import opened SessionSpec

  /** Request `i` of the run was accepted. */
  ghost predicate Accepted(rs: seq<Request>, i: nat)
    requires i < |rs|
  {
    Perform(AfterAll(None, rs[..i]), rs[i]).Ok?
  }

  /** Request `i` created the session. */
  ghost predicate Opens(rs: seq<Request>, i: nat) {
    i < |rs| && rs[i].InitRequest? && Accepted(rs, i)
  }

  lemma LastRequest(rs: seq<Request>, i: nat)
    requires i < |rs|
    ensures AfterAll(None, rs[..i + 1]) == After(AfterAll(None, rs[..i]), rs[i])
  {
    hide After;
    assert rs[..i + 1][..i] == rs[..i];
  }

  lemma StaysOpen(rs: seq<Request>, n: nat)
    requires n <= |rs| && AfterAll(None, rs[..n]).Some?
    ensures AfterAll(None, rs).Some?
  {
    hide AfterAll, Inv, Extends;
    EveryRunKeepsInv(rs, n);
  }

  lemma AcceptedOpens(rs: seq<Request>, i: nat)
    requires i < |rs| && Accepted(rs, i)
    ensures AfterAll(None, rs[..i + 1]).Some?
  {
    LastRequest(rs, i);
    hide AfterAll, Perform;
  }

  /** A session is created once. */
  lemma OpensOnce(rs: seq<Request>, i: nat, j: nat)
    requires Opens(rs, i) && Opens(rs, j)
    ensures i == j
  {
    if i != j {
      var (first, second) := if i < j then (i, j) else (j, i);
      AcceptedOpens(rs, first);
      assert rs[..second][..first + 1] == rs[..first + 1];
      StaysOpen(rs[..second], first + 1);
    }
  }

  /** What the session remembers of its creation. */
  ghost predicate CreatedBy(s: State, r: Request) {
    && r.InitRequest? && s.meta.sessionId == r.sessionId && s.meta.maxMembers == r.maxMembers
    && s.meta.creatorId == r.creator.fingerprint && s.tokens == {TokenHash(r.token)}
  }

  lemma {:induction false} Opening(rs: seq<Request>) returns (i: nat)
    requires AfterAll(None, rs).Some?
    ensures Opens(rs, i) && CreatedBy(AfterAll(None, rs).value, rs[i])
  {
    var n := |rs| - 1;
    LastRequest(rs, n);
    assert rs[..n + 1] == rs;
    hide TokenHash, WithWraps;
    if AfterAll(None, rs[..n]).None? {
      i := n;
    } else {
      i := Opening(rs[..n]);
      assert rs[..n][..i] == rs[..i];
    }
  }

  lemma TokenHashInjective(a: string, b: string)
    requires TokenHash(a) == TokenHash(b)
    ensures a == b
  {
  }

  lemma SoundState(rs: seq<Request>)
    ensures AfterAll(None, rs).Some? ==> Inv(AfterAll(None, rs).value)
  {
    hide Inv, Extends;
    EveryRunKeepsInv(rs, 0);
  }

  lemma FullIsLocked(s: State)
    requires Inv(s)
    ensures s.meta.locked <==> |s.members| >= s.meta.maxMembers
    ensures s.meta.epoch == |s.members| - 1
  {
  }

  /** The one token the creation minted, a free place, and a name not taken: who may come in after these requests. */
  ghost predicate MayJoin(rs: seq<Request>, token: string, member: MemberInput) {
    exists i: nat ::
      && Opens(rs, i) && token == rs[i].token
      && AfterAll(None, rs).Some? && |AfterAll(None, rs).value.members| < rs[i].maxMembers
      && member.fingerprint !in AfterAll(None, rs).value.members
  }

  /**
   * After any requests a join is accepted exactly with the token the creation minted, while there is room, and under a
   * new fingerprint. It adds just that member, at the next epoch, and locks the session when it is the last.
   */
  lemma JoinAdmits(rs: seq<Request>, token: string, member: MemberInput)
    ensures Perform(AfterAll(None, rs), JoinRequest(token, member)).Ok? <==> MayJoin(rs, token, member)
    ensures MayJoin(rs, token, member) ==>
              var s, t := AfterAll(None, rs).value, Perform(AfterAll(None, rs), JoinRequest(token, member)).value;
              && t.members == s.members[member.fingerprint := Member(member, |s.log|)]
              && t.meta == s.meta.(epoch := |s.members|, locked := |s.members| + 1 == s.meta.maxMembers)
              && t.log == s.log && t.keys == s.keys && t.tokens == s.tokens
  {
    hide AfterAll, Inv, TokenHash;
    var s := AfterAll(None, rs);
    if s.Some? {
      var i := Opening(rs);
      SoundState(rs);
      FullIsLocked(s.value);
      if token != rs[i].token && TokenHash(token) == TokenHash(rs[i].token) {
        TokenHashInjective(token, rs[i].token);
      }
      forall j: nat | Opens(rs, j) ensures j == i {
        OpensOnce(rs, j, i);
      }
    }
  }

  /** A refused join is told why: no session, no room, a wrong token, a name taken, in this order. */
  lemma JoinRefusals(rs: seq<Request>, token: string, member: MemberInput)
    requires !MayJoin(rs, token, member)
    ensures
      var s := AfterAll(None, rs);
      Perform(s, JoinRequest(token, member)) == Err(
        if s.None? then SessionError(404, "session_not_found")
        else if |s.value.members| == s.value.meta.maxMembers then SessionError(423, "session_locked")
        else if forall i: nat :: Opens(rs, i) ==> token != rs[i].token then SessionError(403, "invalid_join_token")
        else SessionError(409, "member_exists"))
  {
    hide AfterAll, Inv, TokenHash, MayJoin;
    JoinAdmits(rs, token, member);
    var s := AfterAll(None, rs);
    if s.Some? {
      var i := Opening(rs);
      SoundState(rs);
      FullIsLocked(s.value);
      RoomLeft(s.value);
      if token != rs[i].token && TokenHash(token) == TokenHash(rs[i].token) {
        TokenHashInjective(token, rs[i].token);
      }
      forall j: nat | Opens(rs, j) ensures j == i {
        OpensOnce(rs, j, i);
      }
    }
  }

  lemma RoomLeft(s: State)
    requires Inv(s)
    ensures |s.members| <= s.meta.maxMembers
  {
  }

  // ---- Creation ----

  /** The first creation that asks for at least two places opens the session, and no other request ever does. */
  lemma OpensFirst(rs: seq<Request>, i: nat)
    requires i < |rs| && rs[i].InitRequest?
    ensures Opens(rs, i) <==> rs[i].maxMembers >= 2 && forall j: nat :: j < i ==> !(rs[j].InitRequest? && rs[j].maxMembers >= 2)
    ensures !Accepted(rs, i) ==>
              Perform(AfterAll(None, rs[..i]), rs[i]) ==
              Err(if AfterAll(None, rs[..i]).Some? then SessionError(409, "session_exists")
                  else SessionError(400, "max_members_too_small"))
  {
    hide AfterAll, TokenHash;
    if AfterAll(None, rs[..i]).Some? {
      var j := Opening(rs[..i]);
      assert rs[..i][..j] == rs[..j];
    } else {
      forall j: nat | j < i ensures !(rs[j].InitRequest? && rs[j].maxMembers >= 2) {
        if rs[j].InitRequest? && rs[j].maxMembers >= 2 {
          OpenedSince(rs[..i], j);
        }
      }
    }
  }

  lemma OpenedSince(rs: seq<Request>, j: nat)
    requires j < |rs| && rs[j].InitRequest? && rs[j].maxMembers >= 2
    ensures AfterAll(None, rs).Some?
  {
    hide AfterAll, TokenHash;
    LastRequest(rs, j);
    StaysOpen(rs, j + 1);
  }

  // ---- What is kept ----

  /** Request `i` brought the fingerprint in, as the creator's or as a joiner's. */
  ghost predicate Brings(rs: seq<Request>, i: nat, input: MemberInput) {
    && i < |rs| && Accepted(rs, i)
    && ((rs[i].InitRequest? && rs[i].creator == input) || (rs[i].JoinRequest? && rs[i].member == input))
  }

  lemma BringsEarlier(rs: seq<Request>, n: nat, i: nat, input: MemberInput)
    requires i < n <= |rs|
    ensures Brings(rs[..n], i, input) <==> Brings(rs, i, input)
  {
    hide Perform, AfterAll;
    assert rs[..n][..i] == rs[..i];
  }

  /** The accepted messages, in order. */
  ghost function Posts(rs: seq<Request>): seq<Entry> {
    if rs == [] then []
    else
      var n := |rs| - 1;
      Posts(rs[..n]) + if rs[n].PostRequest? && Accepted(rs, n) then [rs[n].message] else []
  }

  ghost predicate Numbers(log: seq<Entry>, posts: seq<Entry>) {
    |log| == |posts| && forall i :: 0 <= i < |log| ==> log[i] == posts[i].(seqNo := i + 1)
  }

  /** The log is the accepted messages, renumbered from 1; a message is accepted exactly from a member of an open session. */
  lemma {:induction false} LogIsPosts(rs: seq<Request>)
    ensures AfterAll(None, rs).None? ==> Posts(rs) == []
    ensures AfterAll(None, rs).Some? ==> Numbers(AfterAll(None, rs).value.log, Posts(rs))
  {
    hide TokenHash, WithWraps;
    if rs != [] {
      LogIsPosts(rs[..|rs| - 1]);
    }
  }

  /** Who was brought in is there for good, under its own keys and with the number of messages before it. */
  lemma BroughtIn(rs: seq<Request>, i: nat, input: MemberInput)
    requires Brings(rs, i, input)
    ensures AfterAll(None, rs).Some? && input.fingerprint in AfterAll(None, rs).value.members
    ensures AfterAll(None, rs).value.members[input.fingerprint] == Member(input, |Posts(rs[..i])|)
  {
    hide AfterAll, TokenHash, Inv, WithWraps, Posts;
    LastRequest(rs, i);
    LogIsPosts(rs[..i]);
    EveryRunKeepsInv(rs, i + 1);
  }

  /** Every member was brought in. */
  lemma {:induction false} MemberOrigin(rs: seq<Request>, f: string) returns (i: nat)
    requires AfterAll(None, rs).Some? && f in AfterAll(None, rs).value.members
    ensures Brings(rs, i, AfterAll(None, rs).value.members[f].input)
    ensures AfterAll(None, rs).value.members[f].input.fingerprint == f
  {
    hide TokenHash, WithWraps;
    var n := |rs| - 1;
    assert rs[..n + 1] == rs;
    var before := AfterAll(None, rs[..n]);
    if before.Some? && f in before.value.members {
      i := MemberOrigin(rs[..n], f);
      BringsEarlier(rs, n, i, before.value.members[f].input);
    } else {
      i := n;
    }
  }

  /** A message is accepted exactly from someone brought in, and refused for lack of a session or of membership. */
  lemma PostAdmits(rs: seq<Request>, message: Entry)
    ensures Perform(AfterAll(None, rs), PostRequest(message)).Ok? <==>
            exists i: nat, input :: Brings(rs, i, input) && input.fingerprint == message.senderId
    ensures Perform(AfterAll(None, rs), PostRequest(message)).Err? ==>
              Perform(AfterAll(None, rs), PostRequest(message)) ==
              Err(if AfterAll(None, rs).None? then SessionError(404, "session_not_found") else SessionError(403, "not_a_member"))
  {
    hide AfterAll, Brings;
    MembersAreBrought(rs, message.senderId);
  }

  lemma MembersAreBrought(rs: seq<Request>, f: string)
    ensures AfterAll(None, rs).Some? && f in AfterAll(None, rs).value.members <==>
            exists i: nat, input :: Brings(rs, i, input) && input.fingerprint == f
  {
    hide AfterAll, Brings;
    if AfterAll(None, rs).Some? && f in AfterAll(None, rs).value.members {
      var i := MemberOrigin(rs, f);
      assert Brings(rs, i, AfterAll(None, rs).value.members[f].input);
    }
    if i: nat, input :| Brings(rs, i, input) && input.fingerprint == f {
      BroughtIn(rs, i, input);
    }
  }

  // ---- Keys ----

  /** Key post `n` was accepted for the epoch and wraps a key for `f`; of several wraps for `f` the last one counts. */
  ghost predicate WrapsFor(rs: seq<Request>, n: nat, e: int, f: string) {
    n < |rs| && rs[n].KeysRequest? && Accepted(rs, n) && rs[n].epoch == e && exists w <- rs[n].wraps :: w.recipientId == f
  }

  ghost predicate LastWrap(wraps: seq<Wrap>, j: nat, f: string) {
    && j < |wraps| && wraps[j].recipientId == f
    && forall k :: j < k < |wraps| ==> wraps[k].recipientId != f
  }

  /** The wrap a member gets is the one from the last accepted key post for its epoch that had one for it. */
  ghost predicate Current(rs: seq<Request>, n: nat, j: nat, e: int, f: string)
    ensures Current(rs, n, j, e, f) ==> n < |rs| && rs[n].KeysRequest? && j < |rs[n].wraps|
  {
    && WrapsFor(rs, n, e, f) && LastWrap(rs[n].wraps, j, f)
    && forall k: nat :: n < k < |rs| ==> !WrapsFor(rs, k, e, f)
  }

  /** A key post is accepted exactly from the session's creator. */
  lemma KeysAdmit(rs: seq<Request>, senderId: string, epoch: int, commitment: Text, signature: HexField, wraps: seq<Wrap>)
    ensures
      var p := Perform(AfterAll(None, rs), KeysRequest(senderId, epoch, commitment, signature, wraps));
      && (p.Ok? <==> exists i: nat :: Opens(rs, i) && rs[i].creator.fingerprint == senderId)
      && (p.Err? ==> p == Err(
            if AfterAll(None, rs).None? then SessionError(404, "session_not_found")
            else if exists i: nat, input :: Brings(rs, i, input) && input.fingerprint == senderId
            then SessionError(403, "not_key_holder") else SessionError(403, "not_a_member")))
  {
    hide AfterAll, TokenHash, WithWraps, Brings, Accepted;
    MembersAreBrought(rs, senderId);
    forall i: nat | Opens(rs, i) ensures AfterAll(None, rs).Some? {
      OpenedOpen(rs, i);
    }
    if AfterAll(None, rs).Some? {
      var i := Opening(rs);
      CreatorBrought(rs, i);
      forall j: nat | Opens(rs, j) ensures j == i {
        OpensOnce(rs, j, i);
      }
    }
  }

  lemma OpenedOpen(rs: seq<Request>, i: nat)
    requires Opens(rs, i)
    ensures AfterAll(None, rs).Some?
  {
    AcceptedOpens(rs, i);
    StaysOpen(rs, i + 1);
  }

  lemma CreatorBrought(rs: seq<Request>, i: nat)
    requires Opens(rs, i)
    ensures Brings(rs, i, rs[i].creator)
  {
    hide AfterAll, Perform;
  }

  lemma {:induction false} LastWrapStored(keys: map<(int, string), WrappedKey>, epoch: int, commitment: Text, signature: HexField,
                                          wraps: seq<Wrap>, f: string, j: nat)
    requires LastWrap(wraps, j, f)
    ensures
      var after := WithWraps(keys, epoch, commitment, signature, wraps);
      (epoch, f) in after && after[(epoch, f)] == WrappedKey(wraps[j].wrappedKey, commitment, signature)
  {
    var n := |wraps| - 1;
    if j < n {
      assert wraps[..n][j] == wraps[j];
      LastWrapStored(keys, epoch, commitment, signature, wraps[..n], f, j);
    }
  }

  lemma {:induction false} OtherWrapsKept(keys: map<(int, string), WrappedKey>, epoch: int, commitment: Text, signature: HexField,
                                          wraps: seq<Wrap>, e: int, f: string)
    requires e != epoch || forall w <- wraps :: w.recipientId != f
    ensures
      var after := WithWraps(keys, epoch, commitment, signature, wraps);
      ((e, f) in after <==> (e, f) in keys) && ((e, f) in keys ==> after[(e, f)] == keys[(e, f)])
  {
    if wraps != [] {
      var n := |wraps| - 1;
      assert wraps[n] in wraps && forall w <- wraps[..n] :: w in wraps;
      OtherWrapsKept(keys, epoch, commitment, signature, wraps[..n], e, f);
    }
  }

  lemma {:induction false} LastOf(wraps: seq<Wrap>, f: string) returns (j: nat)
    requires exists w <- wraps :: w.recipientId == f
    ensures LastWrap(wraps, j, f)
  {
    var n := |wraps| - 1;
    if wraps[n].recipientId == f {
      j := n;
    } else {
      assert wraps == wraps[..n] + [wraps[n]];
      j := LastOf(wraps[..n], f);
    }
  }

  /** What a wrap in the table came from: the last accepted key post that had one for that place. */
  lemma {:induction false} KeyOrigin(rs: seq<Request>, e: int, f: string) returns (n: nat, j: nat)
    requires AfterAll(None, rs).Some? && (e, f) in AfterAll(None, rs).value.keys
    ensures Current(rs, n, j, e, f)
    ensures AfterAll(None, rs).value.keys[(e, f)] == WrappedKey(rs[n].wraps[j].wrappedKey, rs[n].commitment, rs[n].signature)
  {
    hide AfterAll, TokenHash, WithWraps, WrapsFor, Current;
    SomeRequest(rs);
    var m := |rs| - 1;
    assert rs[..m + 1] == rs;
    LastRequest(rs, m);
    if WrapsFor(rs, m, e, f) {
      n := m;
      j := NewestWrap(rs, e, f);
    } else {
      OtherRequest(rs, m, e, f);
      n, j := KeyOrigin(rs[..m], e, f);
      EarlierStillCurrent(rs, n, j, e, f);
    }
  }

  lemma SomeRequest(rs: seq<Request>)
    requires AfterAll(None, rs).Some?
    ensures rs != []
  {
  }

  lemma NewestWrap(rs: seq<Request>, e: int, f: string) returns (j: nat)
    requires rs != [] && WrapsFor(rs, |rs| - 1, e, f)
    ensures
      var n := |rs| - 1;
      var s := AfterAll(None, rs);
      && Current(rs, n, j, e, f) && s.Some? && (e, f) in s.value.keys
      && s.value.keys[(e, f)] == WrappedKey(rs[n].wraps[j].wrappedKey, rs[n].commitment, rs[n].signature)
  {
    hide AfterAll, TokenHash, WithWraps, LastWrap;
    var n := |rs| - 1;
    var r := rs[n];
    assert rs[..n + 1] == rs;
    LastRequest(rs, n);
    j := LastOf(r.wraps, f);
    LastWrapStored(AfterAll(None, rs[..n]).value.keys, e, r.commitment, r.signature, r.wraps, f, j);
  }

  /** A request that wraps no key for `f` at the epoch leaves that place alone. */
  lemma OtherRequest(rs: seq<Request>, m: nat, e: int, f: string)
    requires m < |rs| && !WrapsFor(rs, m, e, f)
    ensures
      var before, after := AfterAll(None, rs[..m]), After(AfterAll(None, rs[..m]), rs[m]);
      && (after.Some? && (e, f) in after.value.keys <==> before.Some? && (e, f) in before.value.keys)
      && (before.Some? && (e, f) in before.value.keys ==> after.value.keys[(e, f)] == before.value.keys[(e, f)])
  {
    hide AfterAll, WithWraps, TokenHash;
    var r := rs[m];
    if r.KeysRequest? && Accepted(rs, m) {
      OtherWrapsKept(AfterAll(None, rs[..m]).value.keys, r.epoch, r.commitment, r.signature, r.wraps, e, f);
    }
  }

  lemma EarlierStillCurrent(rs: seq<Request>, n: nat, j: nat, e: int, f: string)
    requires rs != [] && Current(rs[..|rs| - 1], n, j, e, f) && !WrapsFor(rs, |rs| - 1, e, f)
    ensures Current(rs, n, j, e, f)
  {
    hide Perform, AfterAll, LastWrap;
    var m := |rs| - 1;
    forall k: nat | k < m ensures WrapsFor(rs, k, e, f) <==> WrapsFor(rs[..m], k, e, f) {
      assert rs[..m][..k] == rs[..k];
    }
  }

  lemma WrapStays(rs: seq<Request>, n: nat, e: int, f: string)
    requires WrapsFor(rs, n, e, f)
    ensures AfterAll(None, rs).Some? && (e, f) in AfterAll(None, rs).value.keys
  {
    hide AfterAll, Inv, Accepted;
    WrapsEarlier(rs, n, e, f);
    var j := NewestWrap(rs[..n + 1], e, f);
    EveryRunKeepsInv(rs, n + 1);
  }

  lemma WrapsEarlier(rs: seq<Request>, n: nat, e: int, f: string)
    requires WrapsFor(rs, n, e, f)
    ensures |rs[..n + 1]| == n + 1 && WrapsFor(rs[..n + 1], n, e, f)
  {
    hide Perform, AfterAll;
    assert rs[..n + 1][..n] == rs[..n];
  }

  lemma OneCurrent(rs: seq<Request>, n: nat, j: nat, m: nat, k: nat, e: int, f: string)
    requires Current(rs, n, j, e, f) && Current(rs, m, k, e, f)
    ensures n == m && j == k
  {
    hide Accepted;
  }

  /** The relay holds exactly the newest wrap for each epoch and recipient, with the commitment and signature posted with it. */
  lemma KeysAreNewest(rs: seq<Request>, e: int, f: string, key: WrappedKey)
    ensures
      var s := AfterAll(None, rs);
      s.Some? && (e, f) in s.value.keys && s.value.keys[(e, f)] == key <==>
      exists n: nat, j: nat :: Current(rs, n, j, e, f)
                               && key == WrappedKey(rs[n].wraps[j].wrappedKey, rs[n].commitment, rs[n].signature)
  {
    hide AfterAll, Current;
    if n: nat, j: nat :| Current(rs, n, j, e, f)
                         && key == WrappedKey(rs[n].wraps[j].wrappedKey, rs[n].commitment, rs[n].signature) {
      CurrentWraps(rs, n, j, e, f);
      WrapStays(rs, n, e, f);
      var m, k := KeyOrigin(rs, e, f);
      OneCurrent(rs, n, j, m, k, e, f);
    }
    if AfterAll(None, rs).Some? && (e, f) in AfterAll(None, rs).value.keys {
      var n, j := KeyOrigin(rs, e, f);
      assert Current(rs, n, j, e, f);
    }
  }

  lemma CurrentWraps(rs: seq<Request>, n: nat, j: nat, e: int, f: string)
    requires Current(rs, n, j, e, f)
    ensures WrapsFor(rs, n, e, f)
  {
    hide WrapsFor, LastWrap;
  }
}
