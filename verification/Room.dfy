/** The hosted room's message log: nine-digit keys, and readers that poll with a cursor. */
module Room {
  import opened Decimals
  import opened Sequences
  import opened RoomText
  import opened SessionSpec

  const ROOM_WIDTH: nat := 9

  /** `receive`: the messages past the cursor, as the range read finds them. */
  function Received(log: seq<RoomMessage>, after: int): seq<RoomMessage> { Fetch(log, after, ROOM_WIDTH) }

  function CursorAfter(messages: seq<RoomMessage>, after: int): int {
    if messages == [] then after else messages[|messages| - 1].seqNo
  }

  /** The range read agrees with a full scan for every cursor exactly below a thousand million messages. */
  lemma RoomRangeRead(log: seq<RoomMessage>)
    ensures (forall after: int :: Received(log, after) == FullScan(log, after)) <==> |log| < 1_000_000_000
  {
    RangeReadIsFullScan(log, ROOM_WIDTH);
    NineDigits();
  }

  lemma NineDigits()
    ensures Power10(ROOM_WIDTH) == 1_000_000_000
  {
    assert Power10(3) == 1000;
    assert Power10(6) == 1_000_000;
  }

  /** Everything a reader has collected, and its cursor, after polling while the log had these lengths. */
  function Collected(log: seq<RoomMessage>, lengths: seq<nat>): (seq<RoomMessage>, int)
    requires forall i :: 0 <= i < |lengths| ==> lengths[i] <= |log|
  {
    if lengths == [] then ([], 0)
    else
      var (before, cursor) := Collected(log, lengths[..|lengths| - 1]);
      var messages := Received(log[..lengths[|lengths| - 1]], cursor);
      (before + messages, CursorAfter(messages, cursor))
  }

  /** One poll takes the reader from having everything up to its cursor to having everything. */
  lemma PollCatchesUp(log: seq<RoomMessage>, cursor: nat, n: nat)
    requires cursor <= n <= |log| < 1_000_000_000
    requires forall i :: 0 <= i < |log| ==> log[i].seqNo == i + 1
    ensures log[..cursor] + Received(log[..n], cursor) == log[..n]
    ensures CursorAfter(Received(log[..n], cursor), cursor) == n
  {
    hide Fetch, Power10;
    NineDigits();
    FetchBelowWidth(log[..n], cursor, ROOM_WIDTH);
    assert Received(log[..n], cursor) == log[cursor..n];
  }

  /** Polling with the returned cursor is lossless: every message is collected once, in order, whenever the polls happen. */
  lemma {:induction false} PollingIsLossless(log: seq<RoomMessage>, lengths: seq<nat>)
    requires |log| < 1_000_000_000
    requires forall i :: 0 <= i < |log| ==> log[i].seqNo == i + 1
    requires forall i, j :: 0 <= i < j < |lengths| ==> lengths[i] <= lengths[j]
    requires forall i :: 0 <= i < |lengths| ==> lengths[i] <= |log|
    ensures
      var n := if lengths == [] then 0 else lengths[|lengths| - 1];
      Collected(log, lengths) == (log[..n], n)
  {
    hide Received, CursorAfter;
    if lengths != [] {
      var m := |lengths| - 1;
      PollingIsLossless(log, lengths[..m]);
      PollCatchesUp(log, if m == 0 then 0 else lengths[m - 1], lengths[m]);
    } else {
      assert log[..0] == [];
    }
  }
}
