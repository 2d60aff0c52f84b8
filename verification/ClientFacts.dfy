/** Lemmas about the client's tables, deliveries and pull, away from any protocol state. */
module ClientFacts {
  import opened Prelude
  import opened Sequences
  import opened Crypto
  import opened Message
  import opened Client
  import S = SessionSpec

  lemma {:induction false} CacheAllReads(table: JsMap<string, S.MemberInput>, members: seq<S.Member>)
    ensures Distinct(table) ==> Distinct(CacheAll(table, members))
    ensures forall f :: Get(table, f).Some? ==> Get(CacheAll(table, members), f).Some?
    ensures forall m <- members :: Get(CacheAll(table, members), m.input.fingerprint).Some?
    ensures forall e <- CacheAll(table, members) ::
              e in table || exists m <- members :: e == (m.input.fingerprint, m.input)
  {
    if members != [] {
      var n := |members| - 1;
      CacheAllReads(table, members[..n]);
      assert members == members[..n] + [members[n]];
      assert members[n] in members;
    }
  }

  lemma {:induction false} FindMemberFinds(members: seq<S.Member>, f: string)
    ensures FindMember(members, f).Some? ==>
              FindMember(members, f).value in members && FindMember(members, f).value.input.fingerprint == f
    ensures FindMember(members, f).None? ==> forall m <- members :: m.input.fingerprint != f
  {
    if members != [] && members[0].input.fingerprint != f {
      FindMemberFinds(members[1..], f);
    }
  }

  /** The wraps of one post land under their recipients; everything else in the table stays. */
  lemma {:induction false} WithWrapsReads(keys: map<(int, string), S.WrappedKey>, epoch: int, commitment: Text,
                                          signature: HexField, wraps: seq<S.Wrap>, e: int, f: string)
    ensures
      var after := S.WithWraps(keys, epoch, commitment, signature, wraps);
      if e == epoch && exists w <- wraps :: w.recipientId == f
      then (e, f) in after && exists w <- wraps ::
             w.recipientId == f && after[(e, f)] == S.WrappedKey(w.wrappedKey, commitment, signature)
      else ((e, f) in after <==> (e, f) in keys) && ((e, f) in keys ==> after[(e, f)] == keys[(e, f)])
  {
    if wraps != [] {
      var n := |wraps| - 1;
      WithWrapsReads(keys, epoch, commitment, signature, wraps[..n], e, f);
      assert wraps == wraps[..n] + [wraps[n]];
      assert wraps[n] in wraps;
    }
  }

  lemma {:induction false} InboxAppends(a: seq<LogEntry>, b: seq<LogEntry>, me: string)
    ensures Inbox(a + b, me) == Inbox(a, me) + Inbox(b, me)
  {
    if b == [] {
      assert a + b == a;
    } else {
      var n := |b| - 1;
      InboxAppends(a, b[..n], me);
      assert (a + b)[..|a + b| - 1] == a + b[..n];
    }
  }

  ghost predicate InSequence(log: seq<LogEntry>) {
    forall i :: 0 <= i < |log| ==> log[i].seqNo == i + 1
  }

  /** One `receive` pass delivers exactly the entries past the cursor and moves the cursor to the end. */
  lemma {:induction false} DeliverIsInbox(cursor: int, log: seq<LogEntry>, me: string)
    requires InSequence(log) && 0 <= cursor
    ensures Deliver(cursor, log, me).0 == if |log| <= cursor then cursor else |log|
    ensures Deliver(cursor, log, me).1 == if |log| <= cursor then [] else Inbox(log[cursor..], me)
  {
    if log != [] {
      var n := |log| - 1;
      DeliverIsInbox(cursor, log[..n], me);
      if cursor <= n {
        var late := log[cursor..];
        assert late[..|late| - 1] == log[..n][cursor..];
        if cursor == n {
          assert late[..|late| - 1] == [];
        }
      }
    }
  }
}
