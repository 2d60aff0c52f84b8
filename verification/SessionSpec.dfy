/** One relay session as a value: what each request answers and how it changes the session. */
module SessionSpec {
  import opened Prelude
  import opened Decimals
  import opened Sequences
  import opened Sorting
  import opened Crypto
  import opened Message
  import opened Store

  datatype MemberInput = MemberInput(fingerprint: string, identityPub: PublicKey, kxPub: PublicKey)

  datatype Member = Member(input: MemberInput, joinedSeq: int)

  datatype Meta = Meta(sessionId: string, maxMembers: int, locked: bool, epoch: int, creatorId: string)

  datatype WrappedKey = WrappedKey(wrappedKey: HexField, commitment: Text, signature: HexField)

  datatype Wrap = Wrap(recipientId: string, wrappedKey: HexField)

  datatype SessionError = SessionError(status: int, code: string)

  datatype State = State(
    meta: Meta,
    members: map<string, Member>,
    tokens: set<string>,
    log: seq<Entry>,
    keys: map<(int, string), WrappedKey>)

  datatype StatusReply = StatusReply(meta: Meta, members: seq<Member>, lastSeq: int)

  /** A collision-free stand-in for the stored hash of a join token. */
  function TokenHash(token: string): string { token }

  // ---- Requests ----

  function Init(s: Option<State>, sessionId: string, maxMembers: int, creator: MemberInput, token: string): Result<State, SessionError> {
    if s.Some? then Err(SessionError(409, "session_exists"))
    else if maxMembers < 2 then Err(SessionError(400, "max_members_too_small"))
    else Ok(State(Meta(sessionId, maxMembers, false, 0, creator.fingerprint),
                  map[creator.fingerprint := Member(creator, 0)], {TokenHash(token)}, [], map[]))
  }

  function Join(s: Option<State>, token: string, member: MemberInput): Result<State, SessionError> {
    if s.None? then NotFound()
    else if s.value.meta.locked then Err(SessionError(423, "session_locked"))
    else if TokenHash(token) !in s.value.tokens then Err(SessionError(403, "invalid_join_token"))
    else if member.fingerprint in s.value.members then Err(SessionError(409, "member_exists"))
    else
      var members := s.value.members[member.fingerprint := Member(member, |s.value.log|)];
      var meta := s.value.meta;
      Ok(s.value.(members := members,
                  meta := meta.(epoch := meta.epoch + 1, locked := |members| >= meta.maxMembers)))
  }

  function NotFound<T>(): Result<T, SessionError> { Err(SessionError(404, "session_not_found")) }

  function PostMessage(s: Option<State>, message: Entry): Result<State, SessionError> {
    if s.None? then NotFound()
    else if message.senderId !in s.value.members then Err(SessionError(403, "not_a_member"))
    else Ok(s.value.(log := s.value.log + [message.(seqNo := |s.value.log| + 1)]))
  }

  function WithWraps(keys: map<(int, string), WrappedKey>, epoch: int, commitment: Text, signature: HexField, wraps: seq<Wrap>)
    : map<(int, string), WrappedKey>
  {
    if wraps == [] then keys
    else
      var w := wraps[|wraps| - 1];
      WithWraps(keys, epoch, commitment, signature, wraps[..|wraps| - 1])
      [(epoch, w.recipientId) := WrappedKey(w.wrappedKey, commitment, signature)]
  }

  function PostKeys(s: Option<State>, senderId: string, epoch: int, commitment: Text, signature: HexField, wraps: seq<Wrap>)
    : Result<State, SessionError>
  {
    if s.None? then NotFound()
    else if senderId !in s.value.members then Err(SessionError(403, "not_a_member"))
    else if senderId != s.value.meta.creatorId then Err(SessionError(403, "not_key_holder"))
    else Ok(s.value.(keys := WithWraps(s.value.keys, epoch, commitment, signature, wraps)))
  }

  function GetKey(s: Option<State>, epoch: int, memberId: string): Result<WrappedKey, SessionError> {
    if s.None? then NotFound()
    else if (epoch, memberId) !in s.value.keys then Err(SessionError(404, "key_not_found"))
    else Ok(s.value.keys[(epoch, memberId)])
  }

  // ---- Member order ----

  predicate ByJoinedSeq(a: Member, b: Member) { a.joinedSeq <= b.joinedSeq }

  predicate ByName(a: Member, b: Member) { AtMost(a.input.fingerprint, b.input.fingerprint) }

  function MembersAt(members: map<string, Member>, names: seq<string>): seq<Member>
    requires forall n <- names :: n in members
  {
    seq(|names|, i requires 0 <= i < |names| => members[names[i]])
  }

  /** `members()`: the listing by fingerprint, stably sorted by `joinedSeq`. */
  ghost function Roster(members: map<string, Member>): seq<Member> {
    Sort(ByJoinedSeq, MembersAt(members, InOrder(members.Keys)))
  }

  ghost predicate NamesMatch(members: map<string, Member>) {
    forall f <- members :: members[f].input.fingerprint == f
  }

  /** Every member is listed exactly once, by `joinedSeq` and then by fingerprint. */
  lemma RosterListsMembers(members: map<string, Member>)
    requires NamesMatch(members)
    ensures |Roster(members)| == |members|
    ensures forall m :: m in Roster(members) <==> m.input.fingerprint in members && members[m.input.fingerprint] == m
    ensures
      var r := Roster(members);
      forall i, j :: 0 <= i < j < |r| ==>
        r[i].joinedSeq < r[j].joinedSeq
        || (r[i].joinedSeq == r[j].joinedSeq && (r[i].input.fingerprint == r[j].input.fingerprint || Less(r[i].input.fingerprint, r[j].input.fingerprint)))
  {
    hide StrictlySorted, Sorted, Sort, NamesMatch, InOrder, Less;
    var names := InOrder(members.Keys);
    var listed := MembersAt(members, names);
    NoDuplicates(names);
    assert members.Keys == set n | n in names;
    ByFingerprint(members);
    SortIsStable(ByJoinedSeq, ByName, listed);
    RosterOrder(Roster(members));
    forall m ensures m in listed <==> m.input.fingerprint in members && members[m.input.fingerprint] == m {
      MemberListedOnce(members, m);
    }
  }

  lemma RosterOrder(r: seq<Member>)
    requires Sorted(Then(ByJoinedSeq, ByName), r)
    ensures forall i, j :: 0 <= i < j < |r| ==>
        r[i].joinedSeq < r[j].joinedSeq
        || (r[i].joinedSeq == r[j].joinedSeq && (r[i].input.fingerprint == r[j].input.fingerprint || Less(r[i].input.fingerprint, r[j].input.fingerprint)))
  {
    hide Less;
    forall i, j | 0 <= i < j < |r|
      ensures r[i].joinedSeq < r[j].joinedSeq || (r[i].joinedSeq == r[j].joinedSeq && ByName(r[i], r[j]))
    {
      var a, b := r[i], r[j];
      assert Then(ByJoinedSeq, ByName)(a, b);
      assert ByJoinedSeq(a, b) && (ByJoinedSeq(b, a) ==> ByName(a, b));
    }
  }

  /** The unsorted roster is by fingerprint, so ties in the sort are already in order. */
  lemma ByFingerprint(members: map<string, Member>)
    requires NamesMatch(members)
    ensures
      var listed := MembersAt(members, InOrder(members.Keys));
      |listed| == |InOrder(members.Keys)| && forall i, j :: 0 <= i < j < |listed| ==> ByName(listed[i], listed[j])
  {
    var names := InOrder(members.Keys);
    var listed := MembersAt(members, names);
    assert forall i :: 0 <= i < |names| ==> names[i] in names && listed[i].input.fingerprint == names[i];
  }

  lemma MemberListedOnce(members: map<string, Member>, m: Member)
    requires NamesMatch(members)
    ensures m in MembersAt(members, InOrder(members.Keys)) <==>
            m.input.fingerprint in members && members[m.input.fingerprint] == m
  {
    hide StrictlySorted, InOrder;
    var names := InOrder(members.Keys);
    var listed := MembersAt(members, names);
    assert forall i :: 0 <= i < |names| ==> names[i] in names && listed[i].input.fingerprint == names[i];
    if m.input.fingerprint in members && members[m.input.fingerprint] == m {
      var i :| 0 <= i < |names| && names[i] == m.input.fingerprint;
      assert listed[i] == m;
    }
  }

  lemma {:induction false} NoDuplicates(keys: seq<string>)
    requires StrictlySorted(keys)
    ensures |set k | k in keys| == |keys|
  {
    if keys != [] {
      var n := |keys| - 1;
      NoDuplicates(keys[..n]);
      assert keys == keys[..n] + [keys[n]];
      assert keys[n] !in keys[..n] by {
        LessTrichotomy(keys[n], keys[n]);
        assert forall k <- keys[..n] :: Less(k, keys[n]);
      }
      assert (set k | k in keys) == (set k | k in keys[..n]) + {keys[n]};
    }
  }

  lemma RosterSize(members: map<string, Member>)
    requires NamesMatch(members)
    ensures |Roster(members)| == |members|
  {
    RosterListsMembers(members);
  }

  // ---- Cursor reads ----

  /** Does a range read that starts at the padded key of `after + 1` reach message `n`? */
  predicate Reached(after: int, n: nat, width: nat) {
    after <= 0 || !Less(Padded(n, width), Padded(after + 1, width))
  }

  /** Messages after the cursor, as the range read finds them. */
  function Fetch<T>(log: seq<T>, after: int, width: nat): seq<T> {
    if log == [] then []
    else
      var n := |log|;
      Fetch(log[..n - 1], after, width) + if n > after && Reached(after, n, width) then [log[n - 1]] else []
  }

  /** Everything after the cursor, by scanning the whole log. */
  function FullScan<T>(log: seq<T>, after: int): seq<T> {
    if after <= 0 then log else if after >= |log| then [] else log[after..]
  }

  lemma ReachedBelowWidth(after: int, n: nat, width: nat)
    requires width >= 1 && after < n < Power10(width)
    ensures Reached(after, n, width)
  {
    if after > 0 {
      PaddedOrder(n, after + 1, width);
    }
  }

  lemma FullScanStep<T>(log: seq<T>, after: int)
    requires log != []
    ensures FullScan(log, after) ==
            FullScan(log[..|log| - 1], after) + if |log| > after then [log[|log| - 1]] else []
  {
    assert log == log[..|log| - 1] + [log[|log| - 1]];
  }

  lemma {:induction false} FetchBelowWidth<T(!new)>(log: seq<T>, after: int, width: nat)
    requires width >= 1 && |log| < Power10(width)
    ensures Fetch(log, after, width) == FullScan(log, after)
  {
    hide Reached, Power10, FullScan;
    if log != [] {
      FetchBelowWidth(log[..|log| - 1], after, width);
      FullScanStep(log, after);
      if |log| > after {
        ReachedBelowWidth(after, |log|, width);
      }
    } else {
      FullScanOfNothing<T>(after);
    }
  }

  lemma FullScanOfNothing<T>(after: int)
    ensures FullScan<T>([], after) == []
  {
  }

  /**
   * The range read agrees with a full scan for every cursor exactly while the numerals still fit the padding:
   * the first longer numeral sorts before its predecessors and is skipped.
   */
  lemma RangeReadIsFullScan<T(!new)>(log: seq<T>, width: nat)
    requires width >= 1
    ensures (forall after: int :: Fetch(log, after, width) == FullScan(log, after)) <==> |log| < Power10(width)
  {
    if |log| < Power10(width) {
      forall after: int ensures Fetch(log, after, width) == FullScan(log, after) {
        FetchBelowWidth(log, after, width);
      }
    } else {
      FirstLongNumeralSkipped(log, width);
    }
  }

  lemma LongNumeralSkipped(width: nat)
    requires width >= 1
    ensures 0 <= Power10(width) - 2 && !Reached(Power10(width) - 2, Power10(width), width)
  {
    assert Power10(width) == 10 * Power10(width - 1);
    LongNumeralSortsFirst(width);
    hide Padded, Less, Power10;
  }

  lemma FirstLongNumeralSkipped<T(!new)>(log: seq<T>, width: nat)
    requires width >= 1 && |log| >= Power10(width)
    ensures |Fetch(log, Power10(width) - 2, width)| < |FullScan(log, Power10(width) - 2)|
  {
    hide *;
    LongNumeralSkipped(width);
    FetchCount(log, Power10(width) - 2, width, Power10(width));
  }

  /** `"1000...0"`, one digit too long, is before `"999...9"` in string order. */
  lemma LongNumeralSortsFirst(width: nat)
    requires width >= 1
    ensures Less(Padded(Power10(width), width), Padded(Power10(width) - 1, width))
  {
    var big := Power10(width);
    DigitsLength(big, width);
    DigitsLength(big - 1, width);
    LeadingDigit(width);
    assert Padded(big, width)[0] == '1';
    assert Padded(big - 1, width)[0] == '9';
  }

  lemma {:induction false} LeadingDigit(width: nat)
    requires width >= 1
    ensures Digits(Power10(width))[0] == '1'
    ensures |Digits(Power10(width) - 1)| == width && Digits(Power10(width) - 1)[0] == '9'
  {
    hide Digits, Power10;
    if width == 1 {
      FirstPower();
    } else {
      LeadingDigit(width - 1);
      var small := Power10(width - 1);
      PowerStep(width);
      DigitsStep(small, 0);
      DigitsStep(small - 1, 9);
    }
  }

  lemma FirstPower()
    ensures Power10(1) == 10 && Digits(10) == "10" && Digits(9) == "9"
  {
    assert Power10(1) == 10 * Power10(0);
    assert Digits(10) == Digits(1) + [DigitChar(0)];
  }

  lemma PowerStep(width: nat)
    requires width >= 2
    ensures Power10(width) == 10 * Power10(width - 1) && Power10(width - 1) >= 10
  {
    assert Power10(width - 1) == 10 * Power10(width - 2);
  }

  lemma DigitsStep(n: nat, d: nat)
    requires n > 0 && d < 10
    ensures Digits(10 * n + d) == Digits(n) + [DigitChar(d)]
  {
    assert (10 * n + d) / 10 == n && (10 * n + d) % 10 == d;
  }

  lemma {:induction false} FetchCount<T(!new)>(log: seq<T>, after: int, width: nat, skipped: nat)
    requires 0 <= after < skipped
    ensures |Fetch(log, after, width)| <= |FullScan(log, after)|
    ensures skipped <= |log| && !Reached(after, skipped, width) ==> |Fetch(log, after, width)| < |FullScan(log, after)|
  {
    hide Reached, FullScan, Padded, Less;
    if log != [] {
      FetchCount(log[..|log| - 1], after, width, skipped);
      FullScanStep(log, after);
    } else {
      FullScanOfNothing<T>(after);
    }
  }

  const LOG_WIDTH: nat := 12

  lemma TwelveDigits()
    ensures Power10(LOG_WIDTH) == 1_000_000_000_000
  {
    assert Power10(4) == 10_000;
    assert Power10(8) == 100_000_000;
  }

  /** The relay's cursor read finds everything after every cursor exactly below a million million messages. */
  lemma RelayRangeRead<T(!new)>(log: seq<T>)
    ensures (forall after: int :: Fetch(log, after, LOG_WIDTH) == FullScan(log, after)) <==> |log| < 1_000_000_000_000
  {
    hide Power10, Fetch;
    RangeReadIsFullScan(log, LOG_WIDTH);
    TwelveDigits();
  }

  function GetMessages(s: Option<State>, after: int): Result<(seq<Entry>, int), SessionError> {
    if s.None? then NotFound()
    else
      var messages := Fetch(s.value.log, after, LOG_WIDTH);
      Ok((messages, if messages == [] then after else messages[|messages| - 1].seqNo))
  }

  ghost function Status(s: Option<State>): Result<StatusReply, SessionError> {
    if s.None? then NotFound()
    else Ok(StatusReply(s.value.meta, Roster(s.value.members), |s.value.log|))
  }

  // ---- The invariant ----

  ghost predicate Inv(s: State) {
    && NamesMatch(s.members)
    && s.meta.epoch == |s.members| - 1
    && (s.meta.locked <==> |s.members| == s.meta.maxMembers)
    && 2 <= s.meta.maxMembers && |s.members| <= s.meta.maxMembers
    && s.meta.creatorId in s.members
    && (forall i :: 0 <= i < |s.log| ==> s.log[i].seqNo == i + 1 && s.log[i].senderId in s.members)
    && (forall f <- s.members :: 0 <= s.members[f].joinedSeq <= |s.log|)
  }

  /** Members and messages are only ever added, and the session's identity never changes. */
  ghost predicate Extends(s: State, t: State) {
    && s.meta.sessionId == t.meta.sessionId && s.meta.creatorId == t.meta.creatorId
    && s.meta.maxMembers == t.meta.maxMembers && s.meta.epoch <= t.meta.epoch
    && (s.meta.locked ==> t.meta.locked && t.members == s.members)
    && (forall f <- s.members :: f in t.members && t.members[f] == s.members[f])
    && s.log <= t.log && s.keys.Keys <= t.keys.Keys
  }

  datatype Request =
    | InitRequest(sessionId: string, maxMembers: int, creator: MemberInput, token: string)
    | JoinRequest(joinToken: string, member: MemberInput)
    | PostRequest(message: Entry)
    | KeysRequest(senderId: string, epoch: int, commitment: Text, signature: HexField, wraps: seq<Wrap>)

  function Perform(s: Option<State>, r: Request): Result<State, SessionError> {
    match r
    case InitRequest(sessionId, maxMembers, creator, token) => Init(s, sessionId, maxMembers, creator, token)
    case JoinRequest(token, member) => Join(s, token, member)
    case PostRequest(message) => PostMessage(s, message)
    case KeysRequest(senderId, epoch, commitment, signature, wraps) => PostKeys(s, senderId, epoch, commitment, signature, wraps)
  }

  /** The session after a request: unchanged when it is rejected. */
  function After(s: Option<State>, r: Request): Option<State> {
    match Perform(s, r)
    case Ok(t) => Some(t)
    case Err(_) => s
  }

  function AfterAll(s: Option<State>, rs: seq<Request>): Option<State> {
    if rs == [] then s else After(AfterAll(s, rs[..|rs| - 1]), rs[|rs| - 1])
  }

  lemma {:induction false} WithWrapsGrows(keys: map<(int, string), WrappedKey>, epoch: int, commitment: Text, signature: HexField, wraps: seq<Wrap>)
    ensures keys.Keys <= WithWraps(keys, epoch, commitment, signature, wraps).Keys
  {
    if wraps != [] {
      WithWrapsGrows(keys, epoch, commitment, signature, wraps[..|wraps| - 1]);
    }
  }

  lemma RequestKeepsInv(s: Option<State>, r: Request)
    requires s.Some? ==> Inv(s.value)
    ensures After(s, r).Some? ==> Inv(After(s, r).value)
    ensures s.Some? ==> After(s, r).Some? && Extends(s.value, After(s, r).value)
  {
    hide WithWraps, TokenHash, Inv, Extends;
    match r
    case InitRequest(sessionId, maxMembers, creator, token) => InitKeepsInv(s, sessionId, maxMembers, creator, token);
    case JoinRequest(token, member) => JoinKeepsInv(s, token, member);
    case PostRequest(message) => PostKeepsInv(s, message);
    case KeysRequest(senderId, epoch, commitment, signature, wraps) => KeysKeepInv(s, senderId, epoch, commitment, signature, wraps);
  }

  lemma InitKeepsInv(s: Option<State>, sessionId: string, maxMembers: int, creator: MemberInput, token: string)
    requires s.Some? ==> Inv(s.value)
    ensures
      var t := After(s, InitRequest(sessionId, maxMembers, creator, token));
      (t.Some? ==> Inv(t.value)) && (s.Some? ==> t.Some? && Extends(s.value, t.value))
  {
    hide TokenHash;
  }

  lemma JoinKeepsInv(s: Option<State>, token: string, member: MemberInput)
    requires s.Some? ==> Inv(s.value)
    ensures
      var t := After(s, JoinRequest(token, member));
      (t.Some? ==> Inv(t.value)) && (s.Some? ==> t.Some? && Extends(s.value, t.value))
  {
    hide TokenHash;
  }

  lemma PostKeepsInv(s: Option<State>, message: Entry)
    requires s.Some? ==> Inv(s.value)
    ensures
      var t := After(s, PostRequest(message));
      (t.Some? ==> Inv(t.value)) && (s.Some? ==> t.Some? && Extends(s.value, t.value))
  {
  }

  lemma KeysKeepInv(s: Option<State>, senderId: string, epoch: int, commitment: Text, signature: HexField, wraps: seq<Wrap>)
    requires s.Some? ==> Inv(s.value)
    ensures
      var t := After(s, KeysRequest(senderId, epoch, commitment, signature, wraps));
      (t.Some? ==> Inv(t.value)) && (s.Some? ==> t.Some? && Extends(s.value, t.value))
  {
    hide WithWraps;
    if s.Some? {
      WithWrapsGrows(s.value.keys, epoch, commitment, signature, wraps);
    }
  }

  /** Whatever requests arrive in whatever order, the session stays well-formed and only grows. */
  lemma {:induction false} EveryRunKeepsInv(rs: seq<Request>, n: nat)
    requires n <= |rs|
    ensures AfterAll(None, rs).Some? ==> Inv(AfterAll(None, rs).value)
    ensures AfterAll(None, rs[..n]).Some? ==>
              AfterAll(None, rs).Some? && Extends(AfterAll(None, rs[..n]).value, AfterAll(None, rs).value)
  {
    if rs == [] {
      assert rs[..n] == rs;
    } else {
      var m := |rs| - 1;
      EveryRunKeepsInv(rs[..m], if n <= m then n else m);
      RequestKeepsInv(AfterAll(None, rs[..m]), rs[m]);
      if n <= m {
        assert rs[..m][..n] == rs[..n];
      } else {
        assert rs[..n] == rs && rs[..m][..m] == rs[..m];
      }
    }
  }
}
