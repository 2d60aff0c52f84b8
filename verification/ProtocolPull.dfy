/** Folding the relay log into a client: what `pull` establishes, in any batching. */
module ProtocolPull {
  import opened Prelude
  import opened Decimals
  import opened Sequences
  import opened Crypto
  import opened Message
  import opened Client
  import opened ClientFacts
  import opened Protocol
  import opened ProtocolInvariant
  import opened ProtocolSteps
  import T = Transcript
  import S = SessionSpec

  lemma LinkIs(sh: Shared, i: nat)
    requires LogOk(sh) && i < |sh.s.log|
    ensures |sh.Links()| == |sh.s.log| && Decode(sh.Sid(), sh.s.log[i]).Some?
    ensures sh.Links()[i] == SigningBytes(Decode(sh.Sid(), sh.s.log[i]).value)
  {
    AllLinked(sh);
    LinkedUpTo(sh, i);
    LinkedUpTo(sh, i + 1);
    PrefixStep(sh.s.log, i);
    assert MessageOk(sh, sh.s.log[i], sh.sent[i]);
    var before, after := T.Signed(sh.Sid(), sh.s.log[..i]), T.Signed(sh.Sid(), sh.s.log[..i + 1]);
    SignedPart(sh.Sid(), sh.s.log, i + 1);
    assert after[i] == SigningBytes(Decode(sh.Sid(), sh.s.log[i]).value);
  }

  lemma {:induction false} SignedPart(sessionId: string, log: seq<Entry>, n: nat)
    requires n <= |log|
    ensures T.Signed(sessionId, log[..n]) <= T.Signed(sessionId, log)
  {
    if n < |log| {
      var m := |log| - 1;
      assert log[..m][..n] == log[..n];
      SignedPart(sessionId, log[..m], n);
    } else {
      assert log[..n] == log;
    }
  }

  /** A client's keys are copies of the creator's. */
  ghost predicate KeysAgree(sh: Shared, c: Client) {
    forall e :: Get(c.groupKeys, e).Some? ==> Get(sh.vault, e) == Get(c.groupKeys, e)
  }

  /** The chain check at a client passes exactly when nothing overtook the message between its sender's pull and post. */
  lemma ChainCheckMeansNotOvertaken(sh: Shared, i: nat)
    requires LogOk(sh) && i < |sh.s.log|
    ensures |sh.Links()| == |sh.s.log| && Decode(sh.Sid(), sh.s.log[i]).Some?
    ensures Decode(sh.Sid(), sh.s.log[i]).value.prevHash == Fold(sh.Links()[..i]) <==> sh.sent[i].base == i
  {
    AllLinked(sh);
    assert MessageOk(sh, sh.s.log[i], sh.sent[i]);
    if Decode(sh.Sid(), sh.s.log[i]).value.prevHash == Fold(sh.Links()[..i]) {
      FoldInjective(sh.Links()[..sh.sent[i].base], sh.Links()[..i]);
      assert |sh.Links()[..sh.sent[i].base]| == |sh.Links()[..i]|;
    }
  }

  lemma BodyIsSent(sh: Shared, c: Client, i: nat, verified: bool)
    requires LogOk(sh) && i < |sh.s.log| && c.sessionId == sh.Sid() && KeysAgree(sh, c)
    requires Decode(sh.Sid(), sh.s.log[i]).Some?
    ensures
      var m := sh.s.log[i];
      var body := BodyOf(c, m, Decode(sh.Sid(), m).value, verified);
      if verified && m.senderId != c.MemberId() && Get(c.groupKeys, m.epoch).Some? then body == sh.sent[i].draft.body else body == ""
  {
    assert MessageOk(sh, sh.s.log[i], sh.sent[i]);
  }

  /** What `pull` leaves alone. */
  ghost predicate OnlyFolded(before: Client, after: Client) {
    && after == before.(head := after.head, log := after.log, fetchedSeq := after.fetchedSeq)
    && before.log <= after.log
  }

  lemma OnlyFoldedTwice(a: Client, b: Client, c: Client)
    requires OnlyFolded(a, b) && OnlyFolded(b, c)
    ensures OnlyFolded(a, c) && c.sessionId == a.sessionId
  {
  }

  lemma NextEntryOk(sh: Shared, c: Client, i: nat)
    requires LogOk(sh) && |sh.Links()| == |sh.s.log| && i < |sh.s.log|
    requires c.head == Fold(sh.Links()[..i])
    requires c.sessionId == sh.Sid() && KeysAgree(sh, c)
    ensures Foldable(c, sh.s.log[i]) && EntryOk(sh, Entered(c, sh.s.log[i]), i)
  {
    var m := sh.s.log[i];
    assert MessageOk(sh, m, sh.sent[i]);
    LinkIs(sh, i);
    ChainCheckMeansNotOvertaken(sh, i);
    BodyIsSent(sh, c, i, Entered(c, m).verified);
    hide LogOk, MessageOk, KeysAgree, BodyOf;
  }

  lemma NextHead(sh: Shared, c: Client, i: nat)
    requires LogOk(sh) && |sh.Links()| == |sh.s.log| && i < |sh.s.log|
    requires c.head == Fold(sh.Links()[..i]) && c.sessionId == sh.Sid() && Foldable(c, sh.s.log[i])
    ensures FoldOne(c, sh.s.log[i]).head == Fold(sh.Links()[..i + 1])
  {
    hide LogOk;
    LinkIs(sh, i);
    PrefixStep(sh.Links(), i);
  }

  lemma FoldedHead(sh: Shared, c: Client)
    requires |sh.sent| == |sh.s.log| <= |sh.Links()| && FoldedOk(sh, c)
    ensures c.fetchedSeq == |c.log| && c.head == Fold(sh.Links()[..|c.log|])
  {
    hide EntryOk;
  }

  lemma FoldedNext(sh: Shared, c: Client, d: Client, e: LogEntry)
    requires |sh.sent| == |sh.s.log| <= |sh.Links()| && FoldedOk(sh, c) && |c.log| < |sh.s.log|
    requires EntryOk(sh, e, |c.log|) && d.log == c.log + [e] && d.fetchedSeq == |d.log|
    requires d.head == Fold(sh.Links()[..|c.log| + 1])
    ensures FoldedOk(sh, d)
  {
    hide EntryOk, T.Signed, Fold;
  }

  lemma FoldStep(sh: Shared, c: Client, i: nat)
    requires LogOk(sh) && |sh.Links()| == |sh.s.log| && i < |sh.s.log|
    requires FoldedOk(sh, c) && |c.log| == i
    requires c.sessionId == sh.Sid() && KeysAgree(sh, c)
    requires sh.s.log[i].seqNo == i + 1
    ensures Foldable(c, sh.s.log[i])
    ensures FoldedOk(sh, FoldOne(c, sh.s.log[i]))
    ensures KeysAgree(sh, FoldOne(c, sh.s.log[i]))
    ensures OnlyFolded(c, FoldOne(c, sh.s.log[i])) && |FoldOne(c, sh.s.log[i]).log| == i + 1
  {
    FoldedHead(sh, c);
    NextEntryOk(sh, c, i);
    NextHead(sh, c, i);
    hide LogOk, FoldedOk, EntryOk, Entered, Foldable, T.Signed, Fold;
    FoldedNext(sh, c, FoldOne(c, sh.s.log[i]), Entered(c, sh.s.log[i]));
  }

  lemma PullOneMore(c: Client, messages: seq<Entry>, m: Entry)
    requires Pull(c, messages).1 && Foldable(Pull(c, messages).0, m)
    ensures Pull(c, messages + [m]) == (FoldOne(Pull(c, messages).0, m), true)
  {
    assert (messages + [m])[..|messages|] == messages;
  }

  lemma PullNothing(c: Client)
    ensures Pull(c, []) == (c, true) && OnlyFolded(c, c)
  {
  }

  lemma NumberedAt(log: seq<Entry>, i: nat)
    requires Numbered(log) && i < |log|
    ensures log[i].seqNo == i + 1
  {
  }

  lemma Extend(log: seq<Entry>, start: nat, n: nat)
    requires start < n <= |log|
    ensures log[start..n] == log[start..n - 1] + [log[n - 1]]
  {
  }

  lemma {:induction false} PullFolds(sh: Shared, c: Client, n: nat) returns (after: Client)
    requires LogOk(sh) && |sh.Links()| == |sh.s.log| && Numbered(sh.s.log)
    requires FoldedOk(sh, c) && c.sessionId == sh.Sid() && KeysAgree(sh, c)
    requires |c.log| <= n <= |sh.s.log|
    ensures Pull(c, sh.s.log[|c.log|..n]) == (after, true)
    ensures OnlyFolded(c, after) && FoldedOk(sh, after) && |after.log| == n && KeysAgree(sh, after)
    ensures after.sessionId == c.sessionId
  {
    hide *;
    if n == |c.log| {
      assert sh.s.log[|c.log|..n] == [];
      PullNothing(c);
      after := c;
    } else {
      var m := sh.s.log[n - 1];
      var mid := PullFolds(sh, c, n - 1);
      Extend(sh.s.log, |c.log|, n);
      NumberedAt(sh.s.log, n - 1);
      FoldStep(sh, mid, n - 1);
      PullOneMore(c, sh.s.log[|c.log|..n - 1], m);
      after := FoldOne(mid, m);
      OnlyFoldedTwice(c, mid, after);
    }
  }

  /** Batching does not matter: pulling twice folds what one pull of everything folds. */
  lemma {:induction false} PullBatches(c: Client, a: seq<Entry>, b: seq<Entry>)
    requires Pull(c, a).1
    ensures Pull(c, a + b) == Pull(Pull(c, a).0, b)
  {
    if b == [] {
      assert a + b == a;
    } else {
      var n := |b| - 1;
      PullBatches(c, a, b[..n]);
      assert (a + b)[..|a + b| - 1] == a + b[..n];
    }
  }

  lemma FetchesTheRest(sh: Shared, c: Client)
    requires FoldedReady(sh, c) && |sh.s.log| < Power10(S.LOG_WIDTH)
    ensures S.Fetch(sh.s.log, c.fetchedSeq, S.LOG_WIDTH) == sh.s.log[|c.log|..|sh.s.log|]
  {
    S.FetchBelowWidth(sh.s.log, c.fetchedSeq, S.LOG_WIDTH);
  }

  ghost predicate FoldedReady(sh: Shared, c: Client) {
    c.fetchedSeq == |c.log| <= |sh.s.log|
  }
}
