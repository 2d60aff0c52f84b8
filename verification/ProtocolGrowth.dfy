/** Facts about one client survive everything the others do. */
module ProtocolGrowth {
  import opened Prelude
  import opened Sequences
  import opened Crypto
  import opened Message
  import opened Client
  import opened Protocol
  import opened ProtocolInvariant
  import T = Transcript
  import S = SessionSpec

  /** Later shared state: the log, the members, the vault and the creator's cache have only been added to. */
  ghost predicate Grows(a: Shared, b: Shared) {
    && a.kx == b.kx && a.Sid() == b.Sid() && a.s.meta.creatorId == b.s.meta.creatorId
    && a.joined <= b.joined && a.sent <= b.sent && a.s.log <= b.s.log && a.s.meta.epoch <= b.s.meta.epoch
    && (forall e :: Get(a.vault, e).Some? ==> Get(b.vault, e) == Get(a.vault, e))
    && (forall f :: Get(a.known, f).Some? ==> Get(b.known, f).Some?)
  }

  lemma {:induction false} SignedGrows(sessionId: string, a: seq<Entry>, b: seq<Entry>)
    requires a <= b
    ensures T.Signed(sessionId, a) <= T.Signed(sessionId, b)
  {
    if |b| > |a| {
      var n := |b| - 1;
      assert a <= b[..n];
      SignedGrows(sessionId, a, b[..n]);
    } else {
      assert a == b;
    }
  }

  lemma LinksGrow(a: Shared, b: Shared)
    requires Grows(a, b)
    ensures a.Links() <= b.Links()
  {
    SignedGrows(a.Sid(), a.s.log, b.s.log);
  }

  lemma MessageGrows(a: Shared, b: Shared, m: Entry, x: Sent)
    requires Grows(a, b) && MessageOk(a, m, x)
    ensures MessageOk(b, m, x)
  {
    LinksGrow(a, b);
    assert b.Links()[..x.base] == a.Links()[..x.base];
  }

  lemma MemberByStays(a: Shared, b: Shared, k: PublicKey, e: int)
    requires Grows(a, b) && e <= a.s.meta.epoch == |a.joined| - 1
    ensures MemberBy(a, k, e) <==> MemberBy(b, k, e)
  {
    assert forall i :: 0 <= i < |a.joined| ==> a.joined[i] == b.joined[i];
  }

  lemma FoldedGrows(a: Shared, b: Shared, c: Client)
    requires Grows(a, b)
    requires |a.sent| == |a.s.log| <= |a.Links()| && |b.sent| == |b.s.log| <= |b.Links()|
    requires FoldedOk(a, c)
    ensures FoldedOk(b, c)
  {
    LinksGrow(a, b);
    assert b.Links()[..|c.log|] == a.Links()[..|c.log|];
    forall i | 0 <= i < |c.log| ensures EntryOk(b, c.log[i], i) {
      assert EntryOk(a, c.log[i], i);
    }
  }

  lemma CacheGrows(a: Shared, b: Shared, table: JsMap<string, S.MemberInput>)
    requires Grows(a, b) && CacheOk(a, table)
    ensures CacheOk(b, table)
  {
    forall e | e in table ensures exists k <- b.joined :: e == (Fingerprint(k), b.SelfOf(k)) {
      var k :| k in a.joined && e == (Fingerprint(k), a.SelfOf(k));
      assert k in b.joined && b.SelfOf(k) == a.SelfOf(k);
    }
  }

  lemma VaultGrows(a: Shared, b: Shared, k: PublicKey, c: Client, posting: bool)
    requires Grows(a, b) && VaultOk(a, k, c, posting)
    ensures VaultOk(b, k, c, posting)
  {
    forall e | Get(c.groupKeys, e).Some? ensures MemberBy(b, k, e) {
      var i :| 0 <= i < |a.joined| && i <= e && a.joined[i] == k;
      assert b.joined[i] == k;
    }
  }

  lemma WrapsGrow(a: Shared, b: Shared, e: int, key: Bytes, wraps: seq<S.Wrap>)
    requires Grows(a, b) && e <= a.s.meta.epoch == |a.joined| - 1 && WrapsOk(a, e, key, wraps)
    ensures WrapsOk(b, e, key, wraps)
  {
    forall k: PublicKey ensures MemberBy(a, k, e) <==> MemberBy(b, k, e) {
      MemberByStays(a, b, k, e);
    }
    forall w | w in wraps ensures WrapOk(b, e, key, w) {
      WrapGrows(a, b, e, key, w);
    }
  }

  lemma WrapGrows(a: Shared, b: Shared, e: int, key: Bytes, w: S.Wrap)
    requires Grows(a, b) && e <= a.s.meta.epoch == |a.joined| - 1 && WrapOk(a, e, key, w)
    ensures WrapOk(b, e, key, w)
  {
    var k :| k in a.joined && MemberBy(a, k, e) && w == S.Wrap(Fingerprint(k), HexField(Seal(a.kx(k), key)));
    MemberByStays(a, b, k, e);
    assert k in b.joined;
  }

  lemma PhaseGrows(a: Shared, b: Shared, k: PublicKey, p: Proc)
    requires Grows(a, b) && a.joined != [] && a.s.meta.epoch == |a.joined| - 1 && PhaseOk(a, k, p)
    ensures b.joined != [] && PhaseOk(b, k, p)
  {
    hide WrapsOk, MessageOk, T.Signed, Fold, Fingerprint;
    assert a.joined[0] == b.joined[0];
    match p.phase
    case PostingKeys(_, e, key, wraps) => WrapsGrow(a, b, e, key, wraps);
    case Posting(message, draft, base) => MessageGrows(a, b, message, Sent(k, draft, base));
    case _ =>
  }

  lemma CreatorGrows(a: Shared, b: Shared, c: Client, posting: bool)
    requires Grows(a, b) && a.vault == b.vault && a.known == b.known && CreatorOk(a, c, posting)
    ensures CreatorOk(b, c, posting)
  {
  }

  lemma ProcGrows(a: Shared, b: Shared, k: PublicKey, p: Proc)
    requires SharedOk(a) && SharedOk(b) && Grows(a, b) && ProcOk(a, k, p)
    requires k == a.joined[0] ==> a.vault == b.vault && a.known == b.known
    ensures ProcOk(b, k, p)
  {
    hide S.Inv, KeysOk, LogOk, FoldedOk, CacheOk, VaultOk, CreatorOk, PhaseOk, T.Signed, Fingerprint;
    assert a.joined[0] == b.joined[0];
    FoldedGrows(a, b, p.client);
    CacheGrows(a, b, p.client.membersById);
    VaultGrows(a, b, k, p.client, p.phase.PostingKeys?);
    PhaseGrows(a, b, k, p);
    if k == a.joined[0] {
      CreatorGrows(a, b, p.client, p.phase.PostingKeys?);
    }
  }

  lemma LogGrows(a: Shared, b: Shared)
    requires Grows(a, b) && LogOk(a) && b.s.log == a.s.log && b.sent == a.sent
    ensures LogOk(b)
  {
    forall i | 0 <= i < |b.s.log| ensures MessageOk(b, b.s.log[i], b.sent[i]) && b.sent[i].base <= i {
      MessageGrows(a, b, b.s.log[i], b.sent[i]);
    }
  }

  lemma BystanderOk(w: World, v: World, k: PublicKey)
    requires Started(w) && SharedOk(SharedOf(w)) && Started(v) && SharedOk(SharedOf(v))
    requires k in w.procs && k in v.procs && v.procs[k] == w.procs[k]
    requires k in v.joined <==> k in w.joined
    requires Grows(SharedOf(w), SharedOf(v))
    requires PartOk(w, k)
    ensures PartOk(v, k)
  {
    if k in w.joined {
      var a, b := SharedOf(w), SharedOf(v);
      assert a.joined[0] == b.joined[0];
      ProcGrows(a, b, k, v.procs[k]);
    }
  }

  lemma PartsOk(w: World, v: World, who: PublicKey)
    requires Started(w) && SharedOk(SharedOf(w)) && Started(v) && SharedOk(SharedOf(v))
    requires who in w.procs && v.procs.Keys == w.procs.Keys
    requires forall k <- w.procs :: k != who ==> v.procs[k] == w.procs[k]
    requires v.joined == w.joined || v.joined == w.joined + [who]
    requires Grows(SharedOf(w), SharedOf(v))
    requires forall k {:trigger PartOk(w, k)} :: k in w.procs ==> PartOk(w, k)
    requires PartOk(v, who)
    ensures forall k {:trigger PartOk(v, k)} :: k in v.procs ==> PartOk(v, k)
  {
    hide SharedOk, ProcOk, Outsider, Grows;
    forall k | k in v.procs ensures PartOk(v, k) {
      if k != who {
        assert PartOk(w, k);
        BystanderOk(w, v, k);
      }
    }
  }

  /** One client's step, everyone else untouched: the invariant carries over once that client is re-established. */
  lemma Assemble(w: World, v: World, who: PublicKey)
    requires Inv(w) && Started(w) && Started(v)
    requires who in w.procs && v.procs.Keys == w.procs.Keys
    requires forall k <- w.procs :: k != who ==> v.procs[k] == w.procs[k]
    requires v.joined == w.joined || v.joined == w.joined + [who]
    requires Grows(SharedOf(w), SharedOf(v)) && SharedOk(SharedOf(v))
    requires PartOk(v, who)
    ensures Inv(v)
  {
    hide SharedOk, ProcOk, Outsider, Grows, PartOk;
    PartsOk(w, v, who);
  }

  /** `v` is `w` after member `who` moved, with `b` as its shared state. */
  ghost predicate Moved(w: World, v: World, who: PublicKey, b: Shared) {
    && Started(v) && SharedOf(v) == b
    && who in w.procs && who in v.joined && v.procs.Keys == w.procs.Keys
    && (forall k <- w.procs :: k != who ==> v.procs[k] == w.procs[k])
    && (v.joined == w.joined || v.joined == w.joined + [who])
  }

  lemma Finish(w: World, v: World, who: PublicKey, b: Shared)
    requires Inv(w) && Started(w) && Moved(w, v, who, b)
    requires Grows(SharedOf(w), b) && SharedOk(b) && ProcOk(b, who, v.procs[who])
    ensures Inv(v)
  {
    hide Grows, SharedOk, ProcOk, Outsider;
    assert PartOk(v, who);
    Assemble(w, v, who);
  }
}
