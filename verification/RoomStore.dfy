/** The hosted room over its key-value store: a send writes the counter and a nine-digit key, a receive lists a range. */
module RoomStore {
  import opened Prelude
  import opened Decimals
  import opened Sequences
  import opened Sorting
  import opened Store
  import opened RoomText
  import opened Room
  import opened SessionSpec

  /** What the room keeps: the counter, the messages, and settings that neither call touches. */
  datatype Slot = Counter(last: nat) | Message(message: RoomMessage) | Setting(text: string)

  const COUNTER := "seq"
  const MESSAGES := "msg:"

  function MessageKey(n: nat): string { MESSAGES + Padded(n, ROOM_WIDTH) }

  predicate Counted(log: seq<RoomMessage>) {
    forall i :: 0 <= i < |log| ==> log[i].seqNo == i + 1
  }

  /** The store holds the log: its length as the counter, every message under its own key, and no other message. */
  ghost predicate HoldsLog(contents: map<string, Slot>, log: seq<RoomMessage>) {
    && Counted(log)
    && Read(contents, COUNTER) == (if log == [] && COUNTER !in contents then None else Some(Counter(|log|)))
    && (forall n: nat :: 1 <= n <= |log| ==> Read(contents, MessageKey(n)) == Some(Message(log[n - 1])))
    && (forall k <- contents :: StartsWith(k, MESSAGES) ==> exists n: nat :: 1 <= n <= |log| && k == MessageKey(n))
  }

  // ---- Listing ----

  /** The `start` of the range: just past the cursor, or none for a cursor that is not positive. */
  function StartAfter(after: int): Option<string> {
    if after > 0 then Some(MessageKey(after + 1)) else None
  }

  lemma PaddedInjective(a: nat, b: nat, w: nat)
    requires Padded(a, w) == Padded(b, w)
    ensures a == b
  {
    hide Padded, Value;
    ValueOfPadded(a, w);
    ValueOfPadded(b, w);
  }

  lemma MessageKeyFacts(n: nat)
    ensures StartsWith(MessageKey(n), MESSAGES) && MessageKey(n) != COUNTER
    ensures MessageKey(n)[|MESSAGES|..] == Padded(n, ROOM_WIDTH)
  {
    hide Padded;
    assert MessageKey(n)[0] == 'm' && COUNTER[0] == 's';
  }

  lemma MessageKeysDiffer(a: nat, b: nat)
    requires MessageKey(a) == MessageKey(b)
    ensures a == b
  {
    hide MessageKey, Padded;
    MessageKeyFacts(a);
    MessageKeyFacts(b);
    PaddedInjective(a, b, ROOM_WIDTH);
  }

  lemma RangeIsReached(n: nat, after: int)
    ensures InRange(MessageKey(n), MESSAGES, StartAfter(after)) <==> Reached(after, n, ROOM_WIDTH)
  {
    hide Padded, Less;
    MessageKeyFacts(n);
    if after > 0 {
      LessAfterPrefix(MESSAGES, Padded(n, ROOM_WIDTH), Padded(after + 1, ROOM_WIDTH));
    }
  }

  /** The keys a receive lists are those of the messages its range reaches. */
  lemma ListedKeys(contents: map<string, Slot>, log: seq<RoomMessage>, after: int, k: string)
    requires HoldsLog(contents, log)
    ensures k in contents && InRange(k, MESSAGES, StartAfter(after)) <==>
            exists n: nat :: 1 <= n <= |log| && k == MessageKey(n) && Reached(after, n, ROOM_WIDTH)
  {
    hide MessageKey, Reached, StartAfter;
    if k in contents && InRange(k, MESSAGES, StartAfter(after)) {
      var n: nat :| 1 <= n <= |log| && k == MessageKey(n);
      RangeIsReached(n, after);
    }
    if n: nat :| 1 <= n <= |log| && k == MessageKey(n) && Reached(after, n, ROOM_WIDTH) {
      RangeIsReached(n, after);
      assert Read(contents, k) == Some(Message(log[n - 1]));
    }
  }

  ghost predicate Wanted(log: seq<RoomMessage>, after: int, m: RoomMessage) {
    m in log && m.seqNo > after && Reached(after, m.seqNo, ROOM_WIDTH)
  }

  predicate AllMessages(listed: JsMap<string, Slot>) { forall e <- listed :: e.1.Message? }

  /** `[...map.values()].filter((m) => m.seq > after)`. */
  function Past(listed: JsMap<string, Slot>, after: int): seq<RoomMessage>
    requires AllMessages(listed)
  {
    if listed == [] then []
    else
      assert listed[0] in listed;
      var m := listed[0].1.message;
      (if m.seqNo > after then [m] else []) + Past(listed[1..], after)
  }

  /** Every listed pair is a logged message under its own key, and no key is listed twice. */
  ghost predicate Genuine(listed: JsMap<string, Slot>, log: seq<RoomMessage>) {
    && Distinct(listed)
    && forall e <- listed :: e.1.Message? && e.1.message in log && e.0 == MessageKey(e.1.message.seqNo)
  }

  lemma GenuineRest(listed: JsMap<string, Slot>, log: seq<RoomMessage>)
    requires listed != [] && Genuine(listed, log)
    ensures Genuine(listed[1..], log)
    ensures listed[0].1.Message? && forall e <- listed[1..] :: e.1.Message? && e.1.message != listed[0].1.message
  {
    hide MessageKey;
    assert listed[0] in listed && forall e <- listed[1..] :: e in listed;
    forall e | e in listed[1..] ensures e.1.message != listed[0].1.message {
      var i :| 0 <= i < |listed[1..]| && listed[1..][i] == e;
      assert listed[i + 1].0 != listed[0].0;
    }
  }

  lemma {:induction false} PastPicks(listed: JsMap<string, Slot>, log: seq<RoomMessage>, after: int)
    requires Genuine(listed, log)
    ensures AllMessages(listed) && AllDifferent(Past(listed, after))
    ensures forall m :: m in Past(listed, after) <==> m.seqNo > after && exists e <- listed :: e.1 == Message(m)
  {
    hide Genuine;
    if listed != [] {
      GenuineRest(listed, log);
      PastPicks(listed[1..], log, after);
      assert listed == [listed[0]] + listed[1..];
      assert listed[0] in listed;
    }
  }

  lemma ListingGenuine(contents: map<string, Slot>, log: seq<RoomMessage>, after: int)
    requires HoldsLog(contents, log)
    ensures Genuine(Entries(contents, Listing(contents, MESSAGES, StartAfter(after))), log)
    ensures forall m :: (exists e <- Entries(contents, Listing(contents, MESSAGES, StartAfter(after))) :: e.1 == Message(m)) <==>
              m in log && Reached(after, m.seqNo, ROOM_WIDTH)
  {
    hide MessageKey, Reached, StartAfter, InRange;
    var keys := Listing(contents, MESSAGES, StartAfter(after));
    var listed := Entries(contents, keys);
    forall i | 0 <= i < |keys|
      ensures listed[i].1.Message? && listed[i].1.message in log && listed[i].0 == MessageKey(listed[i].1.message.seqNo)
      ensures Reached(after, listed[i].1.message.seqNo, ROOM_WIDTH)
    {
      assert keys[i] in keys;
      ListedKeys(contents, log, after, keys[i]);
      var n: nat :| 1 <= n <= |log| && keys[i] == MessageKey(n) && Reached(after, n, ROOM_WIDTH);
      assert Read(contents, keys[i]) == Some(Message(log[n - 1]));
    }
    KeysDiffer(keys);
    forall m | m in log && Reached(after, m.seqNo, ROOM_WIDTH) ensures exists e <- listed :: e.1 == Message(m) {
      var n: nat :| n < |log| && log[n] == m;
      ListedKeys(contents, log, after, MessageKey(n + 1));
      assert MessageKey(n + 1) in keys;
      var i :| 0 <= i < |keys| && keys[i] == MessageKey(n + 1);
      assert listed[i] in listed && Read(contents, keys[i]) == Some(Message(m));
    }
  }

  lemma KeysDiffer(keys: seq<string>)
    requires StrictlySorted(keys)
    ensures forall i, j :: 0 <= i < j < |keys| ==> keys[i] != keys[j]
  {
    forall i, j | 0 <= i < j < |keys| ensures keys[i] != keys[j] {
      LessTrichotomy(keys[i], keys[j]);
    }
  }

  // ---- Receiving ----

  predicate ByNumber(a: RoomMessage, b: RoomMessage) { a.seqNo <= b.seqNo }

  ghost predicate Ascending(messages: seq<RoomMessage>) {
    forall i, j :: 0 <= i < j < |messages| ==> messages[i].seqNo < messages[j].seqNo
  }

  lemma {:induction false} FetchWants(log: seq<RoomMessage>, after: int)
    requires Counted(log)
    ensures Ascending(Received(log, after))
    ensures forall m :: m in Received(log, after) <==> Wanted(log, after, m)
  {
    hide Reached;
    if log != [] {
      var n := |log| - 1;
      FetchWants(log[..n], after);
      assert log == log[..n] + [log[n]];
      assert forall m <- log[..n] :: m.seqNo < log[n].seqNo;
      var rest := Received(log[..n], after);
      forall i | 0 <= i < |rest| ensures rest[i].seqNo < log[n].seqNo {
        assert rest[i] in rest && Wanted(log[..n], after, rest[i]);
      }
    }
  }

  lemma AscendingFirst(a: seq<RoomMessage>)
    requires Ascending(a) && a != []
    ensures a[0] in a && Ascending(a[1..]) && forall m :: m in a[1..] <==> m in a && m != a[0]
    ensures forall m <- a[1..] :: a[0].seqNo < m.seqNo
  {
    assert a == [a[0]] + a[1..];
  }

  lemma AscendingHead(a: seq<RoomMessage>, b: seq<RoomMessage>)
    requires Ascending(a) && Ascending(b) && a != [] && forall m :: m in a <==> m in b
    ensures b != [] && a[0] == b[0]
    ensures Ascending(a[1..]) && Ascending(b[1..]) && forall m :: m in a[1..] <==> m in b[1..]
  {
    hide Ascending;
    assert a[0] in b;
    AscendingFirst(a);
    AscendingFirst(b);
    assert b[0] in a;
    var x, y, p, q := a[0], b[0], a[1..], b[1..];
    assert (y == x || y in p) && (x == y || x in q);
  }

  /** Ascending lists of the same messages are one list. */
  lemma {:induction false} AscendingUnique(a: seq<RoomMessage>, b: seq<RoomMessage>)
    requires Ascending(a) && Ascending(b) && forall m :: m in a <==> m in b
    ensures a == b
  {
    hide Ascending;
    assert b != [] ==> b[0] in a;
    if a != [] {
      AscendingHead(a, b);
      AscendingUnique(a[1..], b[1..]);
      assert a == [a[0]] + a[1..] && b == [b[0]] + b[1..];
    }
  }

  lemma SortedAscends(picked: seq<RoomMessage>, log: seq<RoomMessage>)
    requires Counted(log) && AllDifferent(picked) && forall m <- picked :: m in log
    ensures Ascending(Sort(ByNumber, picked))
  {
    hide Sort, AllDifferent, Sorted;
    SortKeepsDifferent(ByNumber, picked);
    SortSorts(ByNumber, picked);
    SortedDiffer(Sort(ByNumber, picked), log);
  }

  lemma SortedDiffer(sorted: seq<RoomMessage>, log: seq<RoomMessage>)
    requires Counted(log) && AllDifferent(sorted) && Sorted(ByNumber, sorted) && forall m <- sorted :: m in log
    ensures Ascending(sorted)
  {
    forall i, j | 0 <= i < j < |sorted| ensures sorted[i].seqNo < sorted[j].seqNo {
      assert ByNumber(sorted[i], sorted[j]) && sorted[i] != sorted[j];
      NumberedApart(log, sorted[i], sorted[j]);
    }
  }

  lemma NumberedApart(log: seq<RoomMessage>, x: RoomMessage, y: RoomMessage)
    requires Counted(log) && x in log && y in log && x != y
    ensures x.seqNo != y.seqNo
  {
  }

  /** Sorting the filtered range listing gives the messages past the cursor, as the room's range read finds them. */
  lemma ListingIsReceived(contents: map<string, Slot>, log: seq<RoomMessage>, after: int)
    requires HoldsLog(contents, log)
    ensures
      var listed := Entries(contents, Listing(contents, MESSAGES, StartAfter(after)));
      AllMessages(listed) && Sort(ByNumber, Past(listed, after)) == Received(log, after)
  {
    hide Genuine, Ascending, Received, StartAfter, Past, AllMessages, AllDifferent, MessageKey, Reached;
    var listed := Entries(contents, Listing(contents, MESSAGES, StartAfter(after)));
    ListingGenuine(contents, log, after);
    PastPicks(listed, log, after);
    var picked := Past(listed, after);
    FetchWants(log, after);
    assert forall m :: m in picked <==> Wanted(log, after, m);
    SortedAscends(picked, log);
    AscendingUnique(Sort(ByNumber, picked), Received(log, after));
  }

  // ---- Sending ----

  /** Writing the next number and the message under its key extends the log by it. */
  lemma SendHolds(contents: map<string, Slot>, log: seq<RoomMessage>, m: RoomMessage)
    requires HoldsLog(contents, log) && m.seqNo == |log| + 1
    ensures HoldsLog(contents[COUNTER := Counter(|log| + 1)][MessageKey(|log| + 1) := Message(m)], log + [m])
  {
    hide MessageKey;
    var n := |log| + 1;
    var after := contents[COUNTER := Counter(n)][MessageKey(n) := Message(m)];
    MessageKeyFacts(n);
    forall i: nat | 1 <= i <= n ensures Read(after, MessageKey(i)) == Some(Message((log + [m])[i - 1])) {
      MessageKeyFacts(i);
      if MessageKey(i) == MessageKey(n) {
        MessageKeysDiffer(i, n);
      }
    }
    assert !StartsWith(COUNTER, MESSAGES) by { assert COUNTER[0] == 's' && MESSAGES[0] == 'm'; }
    forall k | k in after && StartsWith(k, MESSAGES) ensures exists i: nat :: 1 <= i <= n && k == MessageKey(i) {
      if k != MessageKey(n) {
        var i: nat :| 1 <= i <= |log| && k == MessageKey(i);
      }
    }
  }

  class HostedRoom {
    const store: MemoryKvStore<Slot>
    ghost var log: seq<RoomMessage>

    ghost predicate Valid()
      reads this, store
    {
      HoldsLog(store.contents, log)
    }

    constructor ()
      ensures Valid() && log == [] && fresh(store)
    {
      store := new MemoryKvStore<Slot>();
      log := [];
    }

    /** `send` appends under the next number. */
    method Send(from: string, text: string, messageType: string, retryAfter: Option<nat>) returns (seqNo: nat)
      requires Valid()
      modifies this, store
      ensures Valid() && seqNo == |old(log)| + 1
      ensures log == old(log) + [RoomMessage(seqNo, from, messageType, text, retryAfter)]
    {
      hide HoldsLog, MessageKey;
      var counter := store.Get(COUNTER);
      CounterReads(store.contents, log);
      seqNo := (if counter.Some? && counter.value.Counter? then counter.value.last else 0) + 1;
      var m := RoomMessage(seqNo, from, messageType, text, retryAfter);
      SendHolds(store.contents, log, m);
      store.Put(COUNTER, Counter(seqNo));
      store.Put(MessageKey(seqNo), Message(m));
      log := log + [m];
    }

    /** `receive` returns the messages past the cursor and the cursor to pass next. */
    method Receive(after: int) returns (messages: seq<RoomMessage>, cursor: int)
      requires Valid()
      ensures messages == Received(log, after) && cursor == CursorAfter(messages, after)
    {
      hide HoldsLog, Listing, Received, StartAfter, Past, AllMessages, Sort;
      var listed := store.List(MESSAGES, StartAfter(after));
      ListingIsReceived(store.contents, log, after);
      messages := Sort(ByNumber, Past(listed, after));
      cursor := if |messages| > 0 then messages[|messages| - 1].seqNo else after;
    }
  }

  lemma CounterReads(contents: map<string, Slot>, log: seq<RoomMessage>)
    requires HoldsLog(contents, log)
    ensures match Read(contents, COUNTER)
            case None => log == []
            case Some(slot) => slot == Counter(|log|)
  {
  }
}
