/** The relay's session engine over its string-keyed store, proved against `SessionSpec`. */
module Relay {
  import opened Prelude
  import opened Decimals
  import opened Sequences
  import opened Sorting
  import opened Crypto
  import opened Message
  import opened Store
  import opened SessionSpec

  datatype Value =
    | MetaValue(meta: Meta)
    | SeqValue(seqNo: nat)
    | MemberValue(member: Member)
    | TokenValue
    | MessageValue(message: Entry)
    | KeyValue(key: WrappedKey)

  /** The places in the store a session uses. */
  datatype Key =
    | MetaKey
    | SeqKey
    | MemberKey(fingerprint: string)
    | TokenKey(hash: string)
    | MessageKey(seqNo: nat)
    | GroupKeyKey(epoch: int, fingerprint: string)

  function KeyText(k: Key): string {
    match k
    case MetaKey => "meta"
    case SeqKey => "seq"
    case MemberKey(f) => "member:" + f
    case TokenKey(h) => "token:" + h
    case MessageKey(n) => "msg:" + Padded(n, LOG_WIDTH)
    case GroupKeyKey(e, f) => "gkey:" + IntText(e) + ":" + f
  }

  /** The first three characters of a key already tell its namespace. */
  function Namespace(k: Key): string {
    match k
    case MetaKey => "met"
    case SeqKey => "seq"
    case MemberKey(_) => "mem"
    case TokenKey(_) => "tok"
    case MessageKey(_) => "msg"
    case GroupKeyKey(_, _) => "gke"
  }

  lemma NamespacesApart(k: Key)
    ensures |KeyText(k)| >= 3 && KeyText(k)[..3] == Namespace(k)
    ensures StartsWith(KeyText(k), "member:") <==> k.MemberKey?
    ensures StartsWith(KeyText(k), "msg:") <==> k.MessageKey?
  {
    var t := KeyText(k);
    assert t[..3] == Namespace(k);
    assert "member:"[..3] == "mem" && "msg:"[..3] == "msg";
    assert StartsWith(t, "member:") ==> t[..3] == t[..7][..3] == "mem";
    assert StartsWith(t, "msg:") ==> t[..3] == t[..4][..3] == "msg";
    match k
    case MemberKey(f) => assert t[..7] == "member:";
    case MessageKey(n) => assert t[..4] == "msg:";
    case _ =>
  }

  lemma MessageKeysApart(n: nat, m: nat)
    requires KeyText(MessageKey(n)) == KeyText(MessageKey(m))
    ensures n == m
  {
    hide Padded;
    assert Padded(n, LOG_WIDTH) == KeyText(MessageKey(n))[4..] && Padded(m, LOG_WIDTH) == KeyText(MessageKey(m))[4..];
    ValueOfPadded(n, LOG_WIDTH);
    ValueOfPadded(m, LOG_WIDTH);
  }

  lemma GroupKeysApart(e: int, f: string, d: int, g: string)
    requires KeyText(GroupKeyKey(e, f)) == KeyText(GroupKeyKey(d, g))
    ensures e == d && f == g
  {
    hide IntText;
    assert IntText(e) + ":" + f == KeyText(GroupKeyKey(e, f))[5..] && IntText(d) + ":" + g == KeyText(GroupKeyKey(d, g))[5..];
    NumeralHasNoColon(e);
    NumeralHasNoColon(d);
    CutFirst(IntText(e), f, IntText(d), g, ':');
    IntTextInjective(e, d);
  }

  lemma SameNamespace(a: Key, b: Key)
    requires KeyText(a) == KeyText(b)
    ensures Namespace(a) == Namespace(b)
  {
    hide KeyText, Namespace;
    NamespacesApart(a);
    NamespacesApart(b);
  }

  /** No two places share a key text, whatever fingerprints and hashes contain. */
  lemma KeysNeverCollide(a: Key, b: Key)
    requires KeyText(a) == KeyText(b)
    ensures a == b
  {
    hide Padded, IntText;
    SameNamespace(a, b);
    match a
    case MetaKey =>
    case SeqKey =>
    case MemberKey(f) => assert f == KeyText(a)[7..] && b.fingerprint == KeyText(b)[7..];
    case TokenKey(h) => assert h == KeyText(a)[6..] && b.hash == KeyText(b)[6..];
    case MessageKey(n) => MessageKeysApart(n, b.seqNo);
    case GroupKeyKey(e, f) => GroupKeysApart(e, f, b.epoch, b.fingerprint);
  }

  lemma NumeralHasNoColon(n: int)
    ensures ':' !in IntText(n)
  {
  }

  /** What a session state keeps in each place. */
  function Holds(s: Option<State>, k: Key): Option<Value> {
    if s.None? then None
    else
      var t := s.value;
      match k
      case MetaKey => Some(MetaValue(t.meta))
      case SeqKey => Some(SeqValue(|t.log|))
      case MemberKey(f) => if f in t.members then Some(MemberValue(t.members[f])) else None
      case TokenKey(h) => if h in t.tokens then Some(TokenValue) else None
      case MessageKey(n) => if 1 <= n <= |t.log| then Some(MessageValue(t.log[n - 1])) else None
      case GroupKeyKey(e, f) => if (e, f) in t.keys then Some(KeyValue(t.keys[(e, f)])) else None
  }

  ghost predicate Stored(contents: map<string, Value>, slots: map<Key, Value>) {
    && (forall k: Key :: Read(contents, KeyText(k)) == Read(slots, k))
    && (forall t <- contents :: exists k: Key :: KeyText(k) == t)
  }

  ghost predicate Shows(slots: map<Key, Value>, s: Option<State>) {
    forall k: Key :: Read(slots, k) == Holds(s, k)
  }

  ghost predicate ShowsMembers(slots: map<Key, Value>, members: map<string, Member>) {
    forall f: string :: Read(slots, MemberKey(f)) == if f in members then Some(MemberValue(members[f])) else None
  }

  lemma PutStored(contents: map<string, Value>, slots: map<Key, Value>, k: Key, v: Value)
    requires Stored(contents, slots)
    ensures Stored(contents[KeyText(k) := v], slots[k := v])
  {
    forall j: Key ensures Read(contents[KeyText(k) := v], KeyText(j)) == Read(slots[k := v], j) {
      if KeyText(j) == KeyText(k) {
        KeysNeverCollide(j, k);
      }
    }
  }

  function Prefixed(prefix: string, names: seq<string>): (r: seq<string>)
    ensures |r| == |names|
    ensures forall i :: 0 <= i < |r| ==> r[i] == prefix + names[i]
  {
    seq(|names|, i requires 0 <= i < |names| => prefix + names[i])
  }

  lemma MemberStored(contents: map<string, Value>, slots: map<Key, Value>, members: map<string, Member>, f: string)
    requires Stored(contents, slots) && ShowsMembers(slots, members)
    ensures Read(contents, KeyText(MemberKey(f))) == if f in members then Some(MemberValue(members[f])) else None
  {
    hide KeyText;
    assert Read(contents, KeyText(MemberKey(f))) == Read(slots, MemberKey(f));
  }

  lemma MemberIsListed(contents: map<string, Value>, slots: map<Key, Value>, members: map<string, Member>, t: string)
    requires Stored(contents, slots) && ShowsMembers(slots, members)
    ensures t in contents && InRange(t, "member:", None) <==> exists f <- members :: t == "member:" + f
  {
    if t in contents && InRange(t, "member:", None) {
      var k: Key :| KeyText(k) == t;
      NamespacesApart(k);
      MemberStored(contents, slots, members, k.fingerprint);
      assert t == "member:" + k.fingerprint;
    }
    if f :| f in members && t == "member:" + f {
      MemberStored(contents, slots, members, f);
      assert t[..7] == "member:";
    }
  }

  lemma PrefixedIsSorted(names: seq<string>)
    requires StrictlySorted(names)
    ensures StrictlySorted(Prefixed("member:", names))
  {
    forall i, j | 0 <= i < j < |names| ensures Less("member:" + names[i], "member:" + names[j]) {
      LessAfterPrefix("member:", names[i], names[j]);
    }
  }

  /** Listing the member namespace lists the members by fingerprint. */
  lemma MemberListing(contents: map<string, Value>, slots: map<Key, Value>, members: map<string, Member>)
    requires Stored(contents, slots) && ShowsMembers(slots, members)
    ensures Listing(contents, "member:", None) == Prefixed("member:", InOrder(members.Keys))
  {
    hide Stored, ShowsMembers, InRange, KeyText, StrictlySorted;
    var names := InOrder(members.Keys);
    var listed := Prefixed("member:", names);
    PrefixedIsSorted(names);
    forall t ensures t in listed <==> t in contents && InRange(t, "member:", None) {
      MemberIsListed(contents, slots, members, t);
      if f :| f in members && t == "member:" + f {
        var i :| 0 <= i < |names| && names[i] == f;
        assert listed[i] == t;
      }
    }
    SameKeysSameOrder(listed, Listing(contents, "member:", None));
  }

  function MemberValues(listed: JsMap<string, Value>): seq<Member>
    requires forall e <- listed :: e.1.MemberValue?
  {
    seq(|listed|, i requires 0 <= i < |listed| => listed[i].1.member)
  }

  /** The members of a listing, stably sorted by when they joined. */
  function MembersIn(listed: JsMap<string, Value>): seq<Member> {
    if forall e <- listed :: e.1.MemberValue? then Sort(ByJoinedSeq, MemberValues(listed)) else []
  }

  lemma ListedMember(contents: map<string, Value>, slots: map<Key, Value>, members: map<string, Member>, i: nat)
    requires Stored(contents, slots) && ShowsMembers(slots, members) && i < |InOrder(members.Keys)|
    requires Listing(contents, "member:", None) == Prefixed("member:", InOrder(members.Keys))
    ensures InOrder(members.Keys)[i] in members
    ensures Entries(contents, Listing(contents, "member:", None))[i].1 == MemberValue(members[InOrder(members.Keys)[i]])
  {
    hide Stored, ShowsMembers;
    var names := InOrder(members.Keys);
    assert names[i] in names;
    MemberStored(contents, slots, members, names[i]);
  }

  /** Listing the members yields the roster. */
  lemma RosterListed(contents: map<string, Value>, slots: map<Key, Value>, members: map<string, Member>)
    requires Stored(contents, slots) && ShowsMembers(slots, members)
    ensures forall e <- Entries(contents, Listing(contents, "member:", None)) :: e.1.MemberValue?
    ensures MembersIn(Entries(contents, Listing(contents, "member:", None))) == Roster(members)
  {
    hide Stored, ShowsMembers, KeyText, Sort, Prefixed, StrictlySorted;
    MemberListing(contents, slots, members);
    var listed, names := Entries(contents, Listing(contents, "member:", None)), InOrder(members.Keys);
    forall i | 0 <= i < |listed| ensures names[i] in members && listed[i].1 == MemberValue(members[names[i]]) {
      ListedMember(contents, slots, members, i);
    }
    assert MemberValues(listed) == MembersAt(members, names);
  }

  /** `[...map.values()].filter((m) => m.seq > afterSeq)`. */
  function MessagesAfter(listed: JsMap<string, Value>, after: int): seq<Entry>
    requires forall e <- listed :: e.1.MessageValue?
  {
    if listed == [] then []
    else
      assert listed[0] in listed;
      var m := listed[0].1.message;
      (if m.seqNo > after then [m] else []) + MessagesAfter(listed[1..], after)
  }

  lemma {:induction false} MessagesAfterPicks(listed: JsMap<string, Value>, after: int, log: seq<Entry>)
    requires Numbered(log)
    requires forall e <- listed :: e.1.MessageValue? && e.1.message in log && e.0 == KeyText(MessageKey(e.1.message.seqNo))
    requires Distinct(listed)
    ensures AllDifferent(MessagesAfter(listed, after))
    ensures forall m :: m in MessagesAfter(listed, after) <==>
                        m.seqNo > after && exists e <- listed :: e.1 == MessageValue(m)
  {
    hide KeyText, Numbered, Distinct;
    if listed != [] {
      assert listed[0] in listed;
      ListedRest(listed);
      MessagesAfterPicks(listed[1..], after, log);
      forall m | m in MessagesAfter(listed[1..], after) ensures m != listed[0].1.message {
        var i :| 0 <= i < |listed[1..]| && listed[1..][i].1 == MessageValue(m);
        assert listed[1..][i] in listed[1..];
      }
      assert listed == [listed[0]] + listed[1..];
    }
  }

  /** Behind the first pair come other pairs, under other keys. */
  lemma ListedRest(listed: JsMap<string, Value>)
    requires listed != [] && Distinct(listed)
    ensures Distinct(listed[1..])
    ensures forall e <- listed[1..] :: e in listed && e.0 != listed[0].0
  {
    forall e | e in listed[1..] ensures e in listed && e.0 != listed[0].0 {
      var i :| 0 <= i < |listed[1..]| && listed[1..][i] == e;
      assert listed[i + 1] == e;
    }
  }

  lemma {:induction false} FetchPicks(log: seq<Entry>, after: int, width: nat)
    requires Numbered(log)
    ensures forall i, j :: 0 <= i < j < |Fetch(log, after, width)| ==>
                             Fetch(log, after, width)[i].seqNo < Fetch(log, after, width)[j].seqNo
    ensures forall m :: m in Fetch(log, after, width) <==>
                        m in log && m.seqNo > after && Reached(after, m.seqNo, width)
  {
    if log != [] {
      var n := |log| - 1;
      FetchPicks(log[..n], after, width);
      assert log == log[..n] + [log[n]];
      assert forall m <- log[..n] :: m.seqNo < log[n].seqNo;
    }
  }

  lemma {:induction false} SameMessagesSameOrder(a: seq<Entry>, b: seq<Entry>)
    requires forall i, j :: 0 <= i < j < |a| ==> a[i].seqNo < a[j].seqNo
    requires forall i, j :: 0 <= i < j < |b| ==> b[i].seqNo < b[j].seqNo
    requires forall m :: m in a <==> m in b
    ensures a == b
  {
    assert b != [] ==> b[0] in a;
    if a != [] {
      assert a[0] in a && a[0] in b && b[0] in b && b[0] in a;
      assert a[0] == b[0] by {
        assert forall x <- a :: x == a[0] || a[0].seqNo < x.seqNo;
        assert forall x <- b :: x == b[0] || b[0].seqNo < x.seqNo;
      }
      assert a == [a[0]] + a[1..] && b == [b[0]] + b[1..];
      forall m ensures m in a[1..] <==> m in b[1..] {
        assert m in a <==> m == a[0] || m in a[1..];
        assert m in b <==> m == b[0] || m in b[1..];
        assert forall x <- a[1..] :: a[0].seqNo < x.seqNo;
        assert forall x <- b[1..] :: b[0].seqNo < x.seqNo;
      }
      SameMessagesSameOrder(a[1..], b[1..]);
    }
  }

  function StartKey(after: int): Option<string> {
    if after > 0 then Some(KeyText(MessageKey(after + 1))) else None
  }

  lemma RangeIsReached(n: nat, after: int)
    ensures InRange(KeyText(MessageKey(n)), "msg:", StartKey(after)) <==> Reached(after, n, LOG_WIDTH)
  {
    NamespacesApart(MessageKey(n));
    if after > 0 {
      LessAfterPrefix("msg:", Padded(n, LOG_WIDTH), Padded(after + 1, LOG_WIDTH));
    }
  }

  /** Each entry of the message listing is a logged message under its own key. */
  lemma MessageListingEntry(contents: map<string, Value>, slots: map<Key, Value>, s: State, after: int, i: nat)
    requires Stored(contents, slots) && Shows(slots, Some(s)) && Numbered(s.log)
    requires i < |Listing(contents, "msg:", StartKey(after))|
    ensures
      var key := Listing(contents, "msg:", StartKey(after))[i];
      && key in contents && contents[key].MessageValue? && contents[key].message in s.log
      && key == KeyText(MessageKey(contents[key].message.seqNo))
      && Reached(after, contents[key].message.seqNo, LOG_WIDTH)
  {
    var keys := Listing(contents, "msg:", StartKey(after));
    assert keys[i] in keys;
    var k: Key :| KeyText(k) == keys[i];
    NamespacesApart(k);
    assert Read(contents, KeyText(k)) == Read(slots, k) == Holds(Some(s), k);
    RangeIsReached(k.seqNo, after);
  }

  lemma MessageIsListed(contents: map<string, Value>, slots: map<Key, Value>, s: State, after: int, m: Entry) returns (i: nat)
    requires Stored(contents, slots) && Shows(slots, Some(s)) && Numbered(s.log)
    requires m in s.log && Reached(after, m.seqNo, LOG_WIDTH)
    ensures i < |Listing(contents, "msg:", StartKey(after))|
    ensures Listing(contents, "msg:", StartKey(after))[i] in contents
    ensures contents[Listing(contents, "msg:", StartKey(after))[i]] == MessageValue(m)
  {
    var keys := Listing(contents, "msg:", StartKey(after));
    var k := MessageKey(m.seqNo);
    RangeIsReached(m.seqNo, after);
    assert Read(contents, KeyText(k)) == Read(slots, k) == Holds(Some(s), k) == Some(MessageValue(m));
    assert KeyText(k) in keys;
    i :| 0 <= i < |keys| && keys[i] == KeyText(k);
  }

  lemma MessageListingEntries(contents: map<string, Value>, slots: map<Key, Value>, s: State, after: int)
    requires Stored(contents, slots) && Shows(slots, Some(s)) && Numbered(s.log)
    ensures
      var listed := Entries(contents, Listing(contents, "msg:", StartKey(after)));
      && Distinct(listed)
      && forall e <- listed :: e.1.MessageValue? && e.1.message in s.log
                               && e.0 == KeyText(MessageKey(e.1.message.seqNo))
                               && Reached(after, e.1.message.seqNo, LOG_WIDTH)
  {
    var keys := Listing(contents, "msg:", StartKey(after));
    forall i | 0 <= i < |keys|
      ensures keys[i] in contents && contents[keys[i]].MessageValue? && contents[keys[i]].message in s.log
      ensures keys[i] == KeyText(MessageKey(contents[keys[i]].message.seqNo))
      ensures Reached(after, contents[keys[i]].message.seqNo, LOG_WIDTH)
    {
      MessageListingEntry(contents, slots, s, after, i);
    }
    forall i, j | 0 <= i < j < |keys| ensures keys[i] != keys[j] {
      LessTrichotomy(keys[i], keys[j]);
    }
  }

  /** Sorting the filtered range listing gives the fetched messages in order. */
  lemma MessageListing(contents: map<string, Value>, slots: map<Key, Value>, s: State, after: int)
    requires Stored(contents, slots) && Shows(slots, Some(s)) && Numbered(s.log)
    ensures
      var listed := Entries(contents, Listing(contents, "msg:", StartKey(after)));
      && (forall e <- listed :: e.1.MessageValue?)
      && Sort(BySeq, MessagesAfter(listed, after)) == Fetch(s.log, after, LOG_WIDTH)
  {
    var listed := Entries(contents, Listing(contents, "msg:", StartKey(after)));
    MessageListingEntries(contents, slots, s, after);
    MessagesAfterPicks(listed, after, s.log);
    var picked := MessagesAfter(listed, after);
    forall m ensures m in picked <==> m in s.log && m.seqNo > after && Reached(after, m.seqNo, LOG_WIDTH) {
      if m in s.log && m.seqNo > after && Reached(after, m.seqNo, LOG_WIDTH) {
        var i := MessageIsListed(contents, slots, s, after, m);
        assert listed[i].1 == MessageValue(m);
      }
    }
    AscendingOrder(picked, s.log);
    FetchPicks(s.log, after, LOG_WIDTH);
    SameMessagesSameOrder(Sort(BySeq, picked), Fetch(s.log, after, LOG_WIDTH));
  }

  lemma AscendingOrder(picked: seq<Entry>, log: seq<Entry>)
    requires Numbered(log) && AllDifferent(picked) && forall m <- picked :: m in log
    ensures forall i, j :: 0 <= i < j < |picked| ==> Sort(BySeq, picked)[i].seqNo < Sort(BySeq, picked)[j].seqNo
  {
    SortKeepsDifferent(BySeq, picked);
    SortSorts(BySeq, picked);
    var sorted := Sort(BySeq, picked);
    forall i, j | 0 <= i < j < |sorted| ensures sorted[i].seqNo < sorted[j].seqNo {
      assert sorted[i] in sorted && sorted[j] in sorted;
      assert BySeq(sorted[i], sorted[j]);
    }
  }

  // ---- Each request's writes, place by place ----

  lemma InitShows(slots: map<Key, Value>, sessionId: string, maxMembers: int, creator: MemberInput, token: string)
    requires Shows(slots, None) && maxMembers >= 2
    ensures
      var meta := Meta(sessionId, maxMembers, false, 0, creator.fingerprint);
      Shows(slots[MetaKey := MetaValue(meta)][SeqKey := SeqValue(0)]
            [MemberKey(creator.fingerprint) := MemberValue(Member(creator, 0))][TokenKey(TokenHash(token)) := TokenValue],
            After(None, InitRequest(sessionId, maxMembers, creator, token)))
  {
    var meta := Meta(sessionId, maxMembers, false, 0, creator.fingerprint);
    var after := slots[MetaKey := MetaValue(meta)][SeqKey := SeqValue(0)]
      [MemberKey(creator.fingerprint) := MemberValue(Member(creator, 0))][TokenKey(TokenHash(token)) := TokenValue];
    forall k: Key ensures Read(after, k) == Holds(After(None, InitRequest(sessionId, maxMembers, creator, token)), k) {
      assert Read(slots, k) == None;
    }
  }

  lemma JoinShows(slots: map<Key, Value>, s: State, token: string, member: MemberInput)
    requires Shows(slots, Some(s)) && SessionSpec.Join(Some(s), token, member).Ok?
    ensures
      var t := SessionSpec.Join(Some(s), token, member).value;
      var added := slots[MemberKey(member.fingerprint) := MemberValue(Member(member, |s.log|))];
      ShowsMembers(added, t.members) && Shows(added[MetaKey := MetaValue(t.meta)], Some(t))
  {
    var t := SessionSpec.Join(Some(s), token, member).value;
    var added := slots[MemberKey(member.fingerprint) := MemberValue(Member(member, |s.log|))];
    forall f: string ensures Read(slots, MemberKey(f)) == Holds(Some(s), MemberKey(f)) {
    }
    forall k: Key ensures Read(added[MetaKey := MetaValue(t.meta)], k) == Holds(Some(t), k) {
      assert Read(slots, k) == Holds(Some(s), k);
    }
  }

  lemma PostShows(slots: map<Key, Value>, s: State, message: Entry)
    requires Shows(slots, Some(s)) && message.senderId in s.members
    ensures
      var n := |s.log| + 1;
      Shows(slots[SeqKey := SeqValue(n)][MessageKey(n) := MessageValue(message.(seqNo := n))], After(Some(s), PostRequest(message)))
  {
    var n := |s.log| + 1;
    var after := slots[SeqKey := SeqValue(n)][MessageKey(n) := MessageValue(message.(seqNo := n))];
    forall k: Key ensures Read(after, k) == Holds(After(Some(s), PostRequest(message)), k) {
      assert Read(slots, k) == Holds(Some(s), k);
    }
  }

  lemma WrapShows(slots: map<Key, Value>, s: State, epoch: int, f: string, key: WrappedKey)
    requires Shows(slots, Some(s))
    ensures Shows(slots[GroupKeyKey(epoch, f) := KeyValue(key)], Some(s.(keys := s.keys[(epoch, f) := key])))
  {
    var after := slots[GroupKeyKey(epoch, f) := KeyValue(key)];
    forall k: Key ensures Read(after, k) == Holds(Some(s.(keys := s.keys[(epoch, f) := key])), k) {
      assert Read(slots, k) == Holds(Some(s), k);
    }
  }

  class Session {
    const store: MemoryKvStore<Value>
    ghost var slots: map<Key, Value>
    ghost var state: Option<State>

    ghost predicate Valid()
      reads this, store
    {
      && Stored(store.contents, slots)
      && Shows(slots, state)
      && (state.Some? ==> Inv(state.value))
    }

    constructor ()
      ensures Valid() && state == None && fresh(store)
    {
      var kv := new MemoryKvStore<Value>();
      store := kv;
      slots := map[];
      state := None;
    }

    method Get(k: Key) returns (v: Option<Value>)
      requires Stored(store.contents, slots)
      ensures v == Read(slots, k)
    {
      v := store.Get(KeyText(k));
    }

    method Put(k: Key, v: Value)
      requires Stored(store.contents, slots)
      modifies this`slots, store
      ensures Stored(store.contents, slots)
      ensures slots == old(slots)[k := v]
    {
      PutStored(store.contents, slots, k, v);
      store.Put(KeyText(k), v);
      slots := slots[k := v];
    }

    method LoadMeta() returns (r: Result<Meta, SessionError>)
      requires Valid()
      ensures r == if state.Some? then Ok(state.value.meta) else NotFound()
    {
      var v := Get(MetaKey);
      if v == None {
        return Err(SessionError(404, "session_not_found"));
      }
      assert Read(slots, MetaKey) == Holds(state, MetaKey);
      r := Ok(v.value.meta);
    }

    method IsMember(fingerprint: string) returns (found: bool)
      requires Valid()
      ensures found <==> state.Some? && fingerprint in state.value.members
    {
      var v := Get(MemberKey(fingerprint));
      assert Read(slots, MemberKey(fingerprint)) == Holds(state, MemberKey(fingerprint));
      found := v.Some?;
    }

    method LoadSeq() returns (seqNo: nat)
      requires Valid()
      ensures seqNo == if state.Some? then |state.value.log| else 0
    {
      var v := Get(SeqKey);
      assert Read(slots, SeqKey) == Holds(state, SeqKey);
      seqNo := if v == None then 0 else v.value.seqNo;
    }

    method MemberIdentityPub(fingerprint: string) returns (key: Option<PublicKey>)
      requires Valid()
      ensures key == if state.Some? && fingerprint in state.value.members
                     then Some(state.value.members[fingerprint].input.identityPub) else None
    {
      var v := Get(MemberKey(fingerprint));
      assert Read(slots, MemberKey(fingerprint)) == Holds(state, MemberKey(fingerprint));
      key := if v == None then None else Some(v.value.member.input.identityPub);
    }

    method ListMembers(ghost members: map<string, Member>) returns (r: seq<Member>)
      requires Stored(store.contents, slots) && ShowsMembers(slots, members)
      ensures r == Roster(members)
    {
      RosterListed(store.contents, slots, members);
      hide Stored, ShowsMembers, Roster, Listing;
      var listed := store.List("member:", None);
      r := Sort(ByJoinedSeq, MemberValues(listed));
    }

    method Init(sessionId: string, maxMembers: int, creator: MemberInput, token: string)
      returns (r: Result<(string, string, string), SessionError>)
      requires Valid()
      modifies this, store
      ensures Valid()
      ensures state == After(old(state), InitRequest(sessionId, maxMembers, creator, token))
      ensures match SessionSpec.Init(old(state), sessionId, maxMembers, creator, token)
              case Ok(_) => r == Ok((sessionId, token, creator.fingerprint))
              case Err(e) => r == Err(e) && store.contents == old(store.contents)
    {
      var existing := Get(MetaKey);
      assert Read(slots, MetaKey) == Holds(state, MetaKey);
      if existing.Some? {
        return Err(SessionError(409, "session_exists"));
      }
      if maxMembers < 2 {
        return Err(SessionError(400, "max_members_too_small"));
      }
      InitShows(slots, sessionId, maxMembers, creator, token);
      RequestKeepsInv(None, InitRequest(sessionId, maxMembers, creator, token));
      hide Stored, Shows, KeyText, SessionSpec.Inv;
      Put(MetaKey, MetaValue(Meta(sessionId, maxMembers, false, 0, creator.fingerprint)));
      Put(SeqKey, SeqValue(0));
      Put(MemberKey(creator.fingerprint), MemberValue(Member(creator, 0)));
      Put(TokenKey(TokenHash(token)), TokenValue);
      state := After(state, InitRequest(sessionId, maxMembers, creator, token));
      r := Ok((sessionId, token, creator.fingerprint));
    }

    method Join(token: string, member: MemberInput)
      returns (r: Result<(seq<Member>, int, bool), SessionError>)
      requires Valid()
      modifies this, store
      ensures Valid()
      ensures state == After(old(state), JoinRequest(token, member))
      ensures match SessionSpec.Join(old(state), token, member)
              case Ok(t) => r == Ok((Roster(t.members), t.meta.epoch, t.meta.locked))
              case Err(e) => r == Err(e) && store.contents == old(store.contents)
    {
      var loaded := LoadMeta();
      if loaded.Err? {
        return Err(loaded.error);
      }
      var meta := loaded.value;
      if meta.locked {
        return Err(SessionError(423, "session_locked"));
      }
      var valid := Get(TokenKey(TokenHash(token)));
      assert Read(slots, TokenKey(TokenHash(token))) == Holds(state, TokenKey(TokenHash(token)));
      if valid == None {
        return Err(SessionError(403, "invalid_join_token"));
      }
      var known := IsMember(member.fingerprint);
      if known {
        return Err(SessionError(409, "member_exists"));
      }
      var seqNo := LoadSeq();
      JoinShows(slots, state.value, token, member);
      Put(MemberKey(member.fingerprint), MemberValue(Member(member, seqNo)));
      ghost var joined := SessionSpec.Join(state, token, member).value;
      meta := meta.(epoch := meta.epoch + 1);
      var members := ListMembers(joined.members);
      RequestKeepsInv(state, JoinRequest(token, member));
      RosterListsMembers(joined.members);
      if |members| >= meta.maxMembers {
        meta := meta.(locked := true);
      }
      Put(MetaKey, MetaValue(meta));
      state := Some(joined);
      r := Ok((members, meta.epoch, meta.locked));
    }

    method PostMessage(message: Entry) returns (r: Result<int, SessionError>)
      requires Valid()
      modifies this, store
      ensures Valid()
      ensures state == After(old(state), PostRequest(message))
      ensures match SessionSpec.PostMessage(old(state), message)
              case Ok(t) => r == Ok(|t.log|)
              case Err(e) => r == Err(e) && store.contents == old(store.contents)
    {
      var loaded := LoadMeta();
      if loaded.Err? {
        return Err(loaded.error);
      }
      var known := IsMember(message.senderId);
      if !known {
        return Err(SessionError(403, "not_a_member"));
      }
      var last := LoadSeq();
      var seqNo := last + 1;
      PostShows(slots, state.value, message);
      Put(SeqKey, SeqValue(seqNo));
      Put(MessageKey(seqNo), MessageValue(message.(seqNo := seqNo)));
      RequestKeepsInv(state, PostRequest(message));
      state := After(state, PostRequest(message));
      r := Ok(seqNo);
    }

    method ListMessages(after: int) returns (messages: seq<Entry>)
      requires Valid() && state.Some?
      ensures messages == Fetch(state.value.log, after, LOG_WIDTH)
    {
      MessageListing(store.contents, slots, state.value, after);
      var start := if after > 0 then Some(KeyText(MessageKey(after + 1))) else None;
      var listed := store.List("msg:", start);
      messages := Sort(BySeq, MessagesAfter(listed, after));
    }

    method GetMessages(after: int) returns (r: Result<(seq<Entry>, int), SessionError>)
      requires Valid()
      ensures r == SessionSpec.GetMessages(state, after)
    {
      var loaded := LoadMeta();
      if loaded.Err? {
        return Err(loaded.error);
      }
      var messages := ListMessages(after);
      var cursor := if |messages| > 0 then messages[|messages| - 1].seqNo else after;
      r := Ok((messages, cursor));
    }

    method PostKeys(senderId: string, epoch: int, commitment: Text, signature: HexField, wraps: seq<Wrap>)
      returns (r: Result<(), SessionError>)
      requires Valid()
      modifies this, store
      ensures Valid()
      ensures state == After(old(state), KeysRequest(senderId, epoch, commitment, signature, wraps))
      ensures match SessionSpec.PostKeys(old(state), senderId, epoch, commitment, signature, wraps)
              case Ok(_) => r == Ok(())
              case Err(e) => r == Err(e) && store.contents == old(store.contents)
    {
      var loaded := LoadMeta();
      if loaded.Err? {
        return Err(loaded.error);
      }
      var known := IsMember(senderId);
      if !known {
        return Err(SessionError(403, "not_a_member"));
      }
      if senderId != loaded.value.creatorId {
        return Err(SessionError(403, "not_key_holder"));
      }
      ghost var before := state.value;
      for i := 0 to |wraps|
        invariant Stored(store.contents, slots)
        invariant Shows(slots, Some(before.(keys := WithWraps(before.keys, epoch, commitment, signature, wraps[..i]))))
        invariant state == Some(before)
      {
        var w := wraps[i];
        PrefixStep(wraps, i);
        var key := WrappedKey(w.wrappedKey, commitment, signature);
        WrapShows(slots, before.(keys := WithWraps(before.keys, epoch, commitment, signature, wraps[..i])),
                  epoch, w.recipientId, key);
        Put(GroupKeyKey(epoch, w.recipientId), KeyValue(key));
      }
      RequestKeepsInv(state, KeysRequest(senderId, epoch, commitment, signature, wraps));
      state := After(state, KeysRequest(senderId, epoch, commitment, signature, wraps));
      assert wraps[..|wraps|] == wraps;
      r := Ok(());
    }

    method GetKey(epoch: int, memberId: string) returns (r: Result<WrappedKey, SessionError>)
      requires Valid()
      ensures r == SessionSpec.GetKey(state, epoch, memberId)
    {
      var loaded := LoadMeta();
      if loaded.Err? {
        return Err(loaded.error);
      }
      var entry := Get(GroupKeyKey(epoch, memberId));
      assert Read(slots, GroupKeyKey(epoch, memberId)) == Holds(state, GroupKeyKey(epoch, memberId));
      if entry == None {
        return Err(SessionError(404, "key_not_found"));
      }
      r := Ok(entry.value.key);
    }

    method Members() returns (r: seq<Member>)
      requires Valid()
      ensures r == Roster(if state.Some? then state.value.members else map[])
    {
      ghost var members := if state.Some? then state.value.members else map[];
      forall f: string
        ensures Read(slots, MemberKey(f)) == if f in members then Some(MemberValue(members[f])) else None
      {
        assert Read(slots, MemberKey(f)) == Holds(state, MemberKey(f));
      }
      r := ListMembers(members);
    }

    method Status() returns (r: Result<StatusReply, SessionError>)
      requires Valid()
      ensures r == SessionSpec.Status(state)
    {
      var loaded := LoadMeta();
      if loaded.Err? {
        return Err(loaded.error);
      }
      var lastSeq := LoadSeq();
      var members := Members();
      r := Ok(StatusReply(loaded.value, members, lastSeq));
    }
  }
}
