/** Every step of every client keeps the invariant. */
module ProtocolSteps {
  import opened Prelude
  import opened Sequences
  import opened Crypto
  import opened Message
  import opened Client
  import opened ClientFacts
  import opened Protocol
  import opened ProtocolInvariant
  import opened ProtocolGrowth
  import T = Transcript
  import S = SessionSpec

  // ---- Shared state ----

  lemma KeysGrow(a: Shared, b: Shared)
    requires Grows(a, b) && a.joined != [] && KeysOk(a)
    requires a.s.meta.epoch == |a.joined| - 1
    requires b.s.keys == a.s.keys && b.vault == a.vault
    ensures KeysOk(b)
  {
    assert a.joined[0] == b.joined[0];
    forall e, f | (e, f) in b.s.keys ensures KeyOk(b, e, f) {
      KeyGrows(a, b, e, f);
    }
    forall e | Get(b.vault, e).Some?
      ensures 0 <= e <= b.s.meta.epoch && forall k :: MemberBy(b, k, e) ==> (e, Fingerprint(k)) in b.s.keys
    {
      forall k | MemberBy(b, k, e) ensures (e, Fingerprint(k)) in b.s.keys {
        MemberByStays(a, b, k, e);
      }
    }
  }

  lemma KeyGrows(a: Shared, b: Shared, e: int, f: string)
    requires Grows(a, b) && a.joined != [] && (e, f) in a.s.keys && KeyOk(a, e, f)
    requires (e, f) in b.s.keys && b.s.keys[(e, f)] == a.s.keys[(e, f)]
    ensures KeyOk(b, e, f)
  {
    assert a.joined[0] == b.joined[0];
    var k :| k in a.joined && Fingerprint(k) == f && MemberBy(a, k, e)
             && Get(a.vault, e).Some? && a.s.keys[(e, f)] == KeyFor(a, e, Get(a.vault, e).value, k)
             && Get(a.known, f).Some?;
    var i :| 0 <= i < |a.joined| && i <= e && a.joined[i] == k;
    assert b.joined[i] == k && k in b.joined;
    assert MemberBy(b, k, e);
  }

  lemma SharedGrows(a: Shared, b: Shared)
    requires SharedOk(a) && Grows(a, b)
    requires RelayOk(b) && LogOk(b) && |b.Links()| == |b.s.log|
    requires b.s.keys == a.s.keys && b.vault == a.vault
    ensures SharedOk(b)
  {
    KeysGrow(a, b);
  }

  /** The status reply lists exactly the joined members, by their own keys. */
  lemma RosterIsJoined(sh: Shared)
    requires RelayOk(sh)
    ensures forall m <- S.Roster(sh.s.members) :: exists k <- sh.joined :: m.input == sh.SelfOf(k)
    ensures forall k <- sh.joined :: exists m <- S.Roster(sh.s.members) :: m.input == sh.SelfOf(k)
  {
    var roster := S.Roster(sh.s.members);
    S.RosterListsMembers(sh.s.members);
    forall m | m in roster ensures exists k <- sh.joined :: m.input == sh.SelfOf(k) {
      var k :| k in sh.joined && Fingerprint(k) == m.input.fingerprint;
    }
    forall k | k in sh.joined ensures exists m <- roster :: m.input == sh.SelfOf(k) {
      var m := sh.s.members[Fingerprint(k)];
      assert m in roster;
    }
  }

  lemma CacheRoster(sh: Shared, table: JsMap<string, S.MemberInput>)
    requires RelayOk(sh) && CacheOk(sh, table)
    ensures
      var cached := CacheAll(table, S.Roster(sh.s.members));
      && CacheOk(sh, cached)
      && (forall f :: Get(table, f).Some? ==> Get(cached, f).Some?)
      && forall k <- sh.joined :: Get(cached, Fingerprint(k)).Some?
  {
    var roster := S.Roster(sh.s.members);
    var cached := CacheAll(table, roster);
    RosterIsJoined(sh);
    CacheAllReads(table, roster);
    forall e | e in cached ensures exists k <- sh.joined :: e == (Fingerprint(k), sh.SelfOf(k)) {
      if e !in table {
        var m :| m in roster && e == (m.input.fingerprint, m.input);
      }
    }
    forall k | k in sh.joined ensures Get(cached, Fingerprint(k)).Some? {
      var m :| m in roster && m.input == sh.SelfOf(k);
    }
  }

  lemma AllLinked(sh: Shared)
    requires LogOk(sh)
    ensures |sh.Links()| == |sh.s.log|
  {
    LinkedUpTo(sh, |sh.s.log|);
    assert sh.s.log[..|sh.s.log|] == sh.s.log;
  }

  lemma {:induction false} LinkedUpTo(sh: Shared, n: nat)
    requires LogOk(sh) && n <= |sh.s.log|
    ensures |T.Signed(sh.Sid(), sh.s.log[..n])| == n
  {
    hide Decode, MessageOk;
    if n > 0 {
      LinkedUpTo(sh, n - 1);
      PrefixStep(sh.s.log, n - 1);
      LogDecodes(sh, n - 1);
      assert sh.s.log[..n][..n - 1] == sh.s.log[..n - 1];
    }
  }

  lemma LogDecodes(sh: Shared, i: nat)
    requires LogOk(sh) && i < |sh.s.log|
    ensures Decode(sh.Sid(), sh.s.log[i]).Some?
  {
    hide T.Signed, Fold, Decode;
    assert MessageOk(sh, sh.s.log[i], sh.sent[i]);
  }
}
