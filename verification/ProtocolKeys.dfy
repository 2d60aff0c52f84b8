/** Posting and fetching the epoch key keep the invariant. */
module ProtocolKeys {
  import opened Prelude
  import opened Decimals
  import opened Crypto
  import opened Message
  import opened Client
  import opened ClientFacts
  import opened Protocol
  import opened ProtocolInvariant
  import opened ProtocolGrowth
  import opened ProtocolSteps
  import opened ProtocolStatus
  import S = SessionSpec

  // ---- Posting ----

  /** Shared state after the creator posted and kept a new key. */
  function Posted(a: Shared, e: int, key: Bytes, wraps: seq<S.Wrap>): Shared
    requires a.joined != []
  {
    var (commitment, signature) := SignGroupKey(a.Sid(), e, key, a.joined[0]);
    a.(s := a.s.(keys := S.WithWraps(a.s.keys, e, commitment, signature, wraps)), vault := Set(a.vault, e, key))
  }

  ghost predicate NewKey(a: Shared, e: int, key: Bytes, wraps: seq<S.Wrap>) {
    && a.joined != [] && 0 <= e <= a.s.meta.epoch && Get(a.vault, e).None? && WrapsOk(a, e, key, wraps)
  }

  lemma PostedGrows(a: Shared, e: int, key: Bytes, wraps: seq<S.Wrap>)
    requires NewKey(a, e, key, wraps)
    ensures Grows(a, Posted(a, e, key, wraps))
  {
    hide WrapsOk;
  }

  lemma PostedRelay(a: Shared, e: int, key: Bytes, wraps: seq<S.Wrap>)
    requires RelayOk(a) && a.joined != []
    ensures RelayOk(Posted(a, e, key, wraps))
  {
  }

  lemma WrapIsKey(a: Shared, e: int, key: Bytes, wraps: seq<S.Wrap>, w: S.Wrap)
    requires a.joined != [] && WrapOk(a, e, key, w) && WrapsOk(a, e, key, wraps)
    requires (e, w.recipientId) in Posted(a, e, key, wraps).s.keys
    requires var (commitment, signature) := SignGroupKey(a.Sid(), e, key, a.joined[0]);
             Posted(a, e, key, wraps).s.keys[(e, w.recipientId)] == S.WrappedKey(w.wrappedKey, commitment, signature)
    ensures KeyOk(Posted(a, e, key, wraps), e, w.recipientId)
  {
    hide S.WithWraps, KeyDistribution, Commitment, Fingerprint;
    var b := Posted(a, e, key, wraps);
    var k :| k in a.joined && MemberBy(a, k, e) && w == S.Wrap(Fingerprint(k), HexField(Seal(a.kx(k), key)));
    assert MemberBy(b, k, e);
    assert Get(a.known, Fingerprint(k)).Some?;
    assert b.joined == a.joined && b.known == a.known && b.kx == a.kx && Get(b.vault, e) == Some(key);
    assert b.s.keys[(e, w.recipientId)] == KeyFor(b, e, key, k);
  }

  /** A wrap in the new post is the key for its recipient. */
  lemma PostedWrap(a: Shared, e: int, key: Bytes, wraps: seq<S.Wrap>, f: string)
    requires NewKey(a, e, key, wraps)
    requires exists w <- wraps :: w.recipientId == f
    ensures var b := Posted(a, e, key, wraps); (e, f) in b.s.keys && KeyOk(b, e, f)
  {
    hide WrapOk, KeyOk, SignGroupKey, S.WithWraps;
    var b := Posted(a, e, key, wraps);
    var (commitment, signature) := SignGroupKey(a.Sid(), e, key, a.joined[0]);
    WithWrapsReads(a.s.keys, e, commitment, signature, wraps, e, f);
    var w :| w in wraps && w.recipientId == f && b.s.keys[(e, f)] == S.WrappedKey(w.wrappedKey, commitment, signature);
    assert WrapOk(a, e, key, w);
    WrapIsKey(a, e, key, wraps, w);
  }

  lemma PostedOther(a: Shared, e: int, key: Bytes, wraps: seq<S.Wrap>, e': int, f: string)
    requires SharedOk(a) && NewKey(a, e, key, wraps)
    requires (e', f) in Posted(a, e, key, wraps).s.keys && !(e' == e && exists w <- wraps :: w.recipientId == f)
    ensures KeyOk(Posted(a, e, key, wraps), e', f)
  {
    var b := Posted(a, e, key, wraps);
    var (commitment, signature) := SignGroupKey(a.Sid(), e, key, a.joined[0]);
    WithWrapsReads(a.s.keys, e, commitment, signature, wraps, e', f);
    assert KeyOk(a, e', f);
    PostedGrows(a, e, key, wraps);
    hide RelayOk, LogOk, KeysOk, WrapsOk, S.WithWraps;
    KeyGrows(a, b, e', f);
  }

  lemma PostedComplete(a: Shared, e: int, key: Bytes, wraps: seq<S.Wrap>, e': int, k: PublicKey)
    requires SharedOk(a) && NewKey(a, e, key, wraps)
    requires Get(Posted(a, e, key, wraps).vault, e').Some? && MemberBy(a, k, e')
    ensures (e', Fingerprint(k)) in Posted(a, e, key, wraps).s.keys
  {
    hide *;
    SharedFacts(a);
    if e' == e {
      RecipientPosted(a, e, key, wraps, k);
    } else {
      EarlierKeyStays(a, e, key, wraps, e', k);
    }
  }

  lemma SharedFacts(a: Shared)
    requires SharedOk(a)
    ensures a.joined != [] && RelayOk(a) && KeysOk(a)
  {
    hide RelayOk, LogOk, KeysOk, T.Signed;
  }

  /** Everyone who was a member by the new epoch is among the recipients. */
  lemma RecipientPosted(a: Shared, e: int, key: Bytes, wraps: seq<S.Wrap>, k: PublicKey)
    requires NewKey(a, e, key, wraps) && MemberBy(a, k, e)
    ensures (e, Fingerprint(k)) in Posted(a, e, key, wraps).s.keys
  {
    hide WrapOk, S.WithWraps, KeyDistribution, MemberBy;
    var (commitment, signature) := SignGroupKey(a.Sid(), e, key, a.joined[0]);
    WithWrapsReads(a.s.keys, e, commitment, signature, wraps, e, Fingerprint(k));
  }

  lemma EarlierKeyStays(a: Shared, e: int, key: Bytes, wraps: seq<S.Wrap>, e': int, k: PublicKey)
    requires a.joined != [] && KeysOk(a) && e' != e
    requires Get(Posted(a, e, key, wraps).vault, e').Some? && MemberBy(a, k, e')
    ensures (e', Fingerprint(k)) in Posted(a, e, key, wraps).s.keys
  {
    hide KeyOk, S.WithWraps, KeyDistribution, MemberBy;
    var (commitment, signature) := SignGroupKey(a.Sid(), e, key, a.joined[0]);
    WithWrapsReads(a.s.keys, e, commitment, signature, wraps, e', Fingerprint(k));
  }

  lemma PostedEveryKey(a: Shared, e: int, key: Bytes, wraps: seq<S.Wrap>, e': int, f: string)
    requires SharedOk(a) && NewKey(a, e, key, wraps)
    requires (e', f) in Posted(a, e, key, wraps).s.keys
    ensures Posted(a, e, key, wraps).joined != [] && KeyOk(Posted(a, e, key, wraps), e', f)
  {
    assert a.joined != [];
    hide SharedOk, NewKey, KeyOk, S.WithWraps;
    if e' == e && exists w <- wraps :: w.recipientId == f {
      PostedWrap(a, e, key, wraps, f);
    } else {
      PostedOther(a, e, key, wraps, e', f);
    }
  }

  lemma PostedEpochs(a: Shared, e: int, key: Bytes, wraps: seq<S.Wrap>, e': int)
    requires SharedOk(a) && NewKey(a, e, key, wraps)
    requires Get(Posted(a, e, key, wraps).vault, e').Some?
    ensures 0 <= e' <= a.s.meta.epoch
  {
    hide RelayOk, LogOk, WrapsOk, S.WithWraps;
  }

  lemma PostedKeys(a: Shared, e: int, key: Bytes, wraps: seq<S.Wrap>)
    requires SharedOk(a) && NewKey(a, e, key, wraps)
    ensures a.joined != [] && KeysOk(Posted(a, e, key, wraps))
  {
    var b := Posted(a, e, key, wraps);
    assert a.joined != [] && b.joined == a.joined && b.s.meta == a.s.meta;
    hide SharedOk, NewKey, KeyOk, Posted;
    forall e', f | (e', f) in b.s.keys ensures KeyOk(b, e', f) {
      PostedEveryKey(a, e, key, wraps, e', f);
    }
    forall e' | Get(b.vault, e').Some?
      ensures 0 <= e' <= b.s.meta.epoch && forall k :: MemberBy(b, k, e') ==> (e', Fingerprint(k)) in b.s.keys
    {
      PostedEpochs(a, e, key, wraps, e');
      forall k | MemberBy(b, k, e') ensures (e', Fingerprint(k)) in b.s.keys {
        PostedComplete(a, e, key, wraps, e', k);
      }
    }
    KeysOkIntro(b);
  }

  lemma KeysOkIntro(b: Shared)
    requires b.joined != []
    requires forall e, f :: (e, f) in b.s.keys ==> KeyOk(b, e, f)
    requires forall e :: Get(b.vault, e).Some? ==>
               0 <= e <= b.s.meta.epoch && forall k :: MemberBy(b, k, e) ==> (e, Fingerprint(k)) in b.s.keys
    ensures KeysOk(b)
  {
    hide KeyOk;
  }

  lemma PostedShared(a: Shared, e: int, key: Bytes, wraps: seq<S.Wrap>)
    requires SharedOk(a) && NewKey(a, e, key, wraps)
    ensures SharedOk(Posted(a, e, key, wraps)) && Grows(a, Posted(a, e, key, wraps))
  {
    hide RelayOk, LogOk, KeysOk, Grows, NewKey;
    PostedKeys(a, e, key, wraps);
    PostedRelay(a, e, key, wraps);
    PostedGrows(a, e, key, wraps);
    LogGrows(a, Posted(a, e, key, wraps));
  }

  lemma PostingIsNew(sh: Shared, k: PublicKey, p: Proc)
    requires SharedOk(sh) && ProcOk(sh, k, p) && p.phase.PostingKeys?
    ensures k == sh.joined[0] && NewKey(sh, p.phase.epoch, p.phase.key, p.phase.wraps)
    ensures p.client.MemberId() in sh.s.members && p.client.MemberId() == sh.s.meta.creatorId
    ensures p.client.sessionId == sh.Sid() && p.client.identity == k
  {
    hide FoldedOk, CacheOk, LogOk, KeysOk, WrapsOk;
    assert CreatorOk(sh, p.client, true);
    assert p.client.groupKey.None? ==> Get(sh.vault, p.phase.epoch).None?;
    assert sh.joined[0] in sh.joined;
  }

  lemma PostedVault(a: Shared, k: PublicKey, p: Proc)
    requires SharedOk(a) && ProcOk(a, k, p) && p.phase.PostingKeys? && k == a.joined[0]
    requires Get(a.vault, p.phase.epoch).None? && 0 <= p.phase.epoch
    ensures
      var b, c := Posted(a, p.phase.epoch, p.phase.key, p.phase.wraps), OnKeysPosted(p.client, p.phase.epoch, p.phase.key);
      VaultOk(b, k, c, false) && CreatorOk(b, c, false)
  {
    hide *;
    VaultParts(a, k, p);
    var b := Posted(a, p.phase.epoch, p.phase.key, p.phase.wraps);
    PostedIs(a, p.phase.epoch, p.phase.key, p.phase.wraps);
    FirstAlwaysMember(b);
    GrownVault(a, b, k, p.client, p.phase.epoch, p.phase.key);
    GrownCreator(a, b, p.client, p.phase.epoch, p.phase.key);
  }

  lemma VaultParts(a: Shared, k: PublicKey, p: Proc)
    requires SharedOk(a) && ProcOk(a, k, p) && p.phase.PostingKeys? && k == a.joined[0]
    ensures a.joined != [] && VaultOk(a, k, p.client, true) && CreatorOk(a, p.client, true) && a.vault == p.client.groupKeys
    ensures p.client.establishedEpoch < p.phase.epoch == p.client.epoch <= a.s.meta.epoch
    ensures forall e :: Get(a.vault, e).Some? ==> 0 <= e
    ensures Get(a.known, Fingerprint(k)).Some?
  {
    hide RelayOk, LogOk, FoldedOk, CacheOk, VaultOk, WrapsOk, InboxOk, MemberBy, Fingerprint;
    assert CreatorOk(a, p.client, true);
  }

  lemma PostedIs(a: Shared, e: int, key: Bytes, wraps: seq<S.Wrap>)
    requires a.joined != []
    ensures
      var b := Posted(a, e, key, wraps);
      && b == a.(s := b.s, vault := Set(a.vault, e, key)) && b.s == a.s.(keys := b.s.keys)
  {
    hide S.WithWraps, SignGroupKey;
  }

  lemma FirstAlwaysMember(sh: Shared)
    requires sh.joined != []
    ensures forall e :: 0 <= e ==> MemberBy(sh, sh.joined[0], e)
  {
    assert sh.joined[0] == sh.joined[0];
  }

  lemma GrownVault(a: Shared, b: Shared, k: PublicKey, c: Client, e: int, key: Bytes)
    requires VaultOk(a, k, c, true) && a.vault == c.groupKeys && b.vault == Set(a.vault, e, key) && b.known == a.known
    requires 0 <= e == c.epoch && Get(b.known, Fingerprint(k)).Some?
    requires forall i :: Get(a.vault, i).Some? ==> 0 <= i
    requires forall i :: 0 <= i ==> MemberBy(b, k, i)
    ensures VaultOk(b, k, OnKeysPosted(c, e, key), false)
  {
    hide MemberBy, Fingerprint;
  }

  lemma GrownCreator(a: Shared, b: Shared, c: Client, e: int, key: Bytes)
    requires CreatorOk(a, c, true) && b.vault == Set(a.vault, e, key) && b.known == a.known
    requires c.establishedEpoch < e == c.epoch <= b.s.meta.epoch
    ensures CreatorOk(b, OnKeysPosted(c, e, key), false)
  {
  }

  lemma PostedProc(a: Shared, k: PublicKey, p: Proc)
    requires SharedOk(a) && ProcOk(a, k, p) && p.phase.PostingKeys?
    ensures k == a.joined[0]
    ensures
      var e, key, wraps := p.phase.epoch, p.phase.key, p.phase.wraps;
      var b := Posted(a, e, key, wraps);
      SharedOk(b) && Grows(a, b) && ProcOk(b, k, AfterKeys(p, OnKeysPosted(p.client, e, key), p.phase.call))
  {
    hide RelayOk, LogOk, KeysOk, NewKey;
    PostingIsNew(a, k, p);
    var e, key, wraps := p.phase.epoch, p.phase.key, p.phase.wraps;
    PostedShared(a, e, key, wraps);
    assert Get(a.vault, e).None? && 0 <= e;
    PostedVaultAll(a, k, p);
  }

  /** A change to key fields alone leaves the folded log's facts alone. */
  lemma FoldedSame(sh: Shared, c: Client, d: Client)
    requires |sh.sent| == |sh.s.log| <= |sh.Links()| && FoldedOk(sh, c)
    requires d.log == c.log && d.head == c.head && d.fetchedSeq == c.fetchedSeq
    ensures FoldedOk(sh, d)
  {
    hide EntryOk;
  }

  lemma RekeyedFolded(a: Shared, b: Shared, c: Client, d: Client)
    requires |a.sent| == |a.s.log| <= |a.Links()| && |b.sent| == |b.s.log| <= |b.Links()|
    requires Grows(a, b) && FoldedOk(a, c)
    requires d.log == c.log && d.head == c.head && d.fetchedSeq == c.fetchedSeq
    ensures FoldedOk(b, d)
  {
    hide Grows;
    FoldedGrows(a, b, c);
    FoldedSame(b, c, d);
  }

  lemma TableGrows(a: Shared, b: Shared, k: PublicKey, table: JsMap<string, S.MemberInput>)
    requires Grows(a, b) && a.joined != [] && TableOk(a, k, table)
    ensures TableOk(b, k, table)
  {
    assert a.joined[0] == b.joined[0];
    CacheGrows(a, b, table);
  }

  lemma IdentityGrows(a: Shared, b: Shared, k: PublicKey, c: Client)
    requires Grows(a, b) && a.joined != [] && IdentityOk(a, k, c)
    ensures IdentityOk(b, k, c)
  {
    assert a.joined[0] == b.joined[0];
  }

  ghost predicate OnlyKeysDiffer(c: Client, d: Client) {
    d == c.(groupKey := d.groupKey, groupKeys := d.groupKeys, epoch := d.epoch, establishedEpoch := d.establishedEpoch)
  }

  /** Re-establish a client whose key fields changed while everything else about it stayed. */
  lemma RekeyedOk(a: Shared, b: Shared, k: PublicKey, p: Proc, d: Client)
    requires SharedOk(a) && SharedOk(b) && Grows(a, b) && ProcOk(a, k, p)
    requires OnlyKeysDiffer(p.client, d)
    requires VaultOk(b, k, d, false) && (k == b.joined[0] ==> CreatorOk(b, d, false))
    ensures ProcOk(b, k, p.(client := d, phase := Idle))
  {
    assert a.joined != [] && b.joined != [];
    assert |a.sent| == |a.s.log| <= |a.Links()| && |b.sent| == |b.s.log| <= |b.Links()|;
    assert IdentityOk(a, k, p.client) && FoldedOk(a, p.client) && TableOk(a, k, p.client.membersById) && InboxOk(k, p);
    hide SharedOk, ProcOk, FoldedOk, TableOk, VaultOk, CreatorOk, InboxOk, IdentityOk;
    IdentityGrows(a, b, k, p.client);
    RekeyedFolded(a, b, p.client, d);
    TableGrows(a, b, k, p.client.membersById);
    hide Grows;
    RekeyedJoin(b, k, p, d);
  }

  lemma RekeyedJoin(b: Shared, k: PublicKey, p: Proc, d: Client)
    requires b.joined != [] && |b.sent| == |b.s.log| <= |b.Links()|
    requires IdentityOk(b, k, p.client) && FoldedOk(b, d) && TableOk(b, k, p.client.membersById) && InboxOk(k, p)
    requires OnlyKeysDiffer(p.client, d)
    requires VaultOk(b, k, d, false) && (k == b.joined[0] ==> CreatorOk(b, d, false))
    ensures ProcOk(b, k, p.(client := d, phase := Idle))
  {
    hide FoldedOk, TableOk, VaultOk, CreatorOk;
  }

  lemma PostedVaultAll(a: Shared, k: PublicKey, p: Proc)
    requires SharedOk(a) && ProcOk(a, k, p) && p.phase.PostingKeys? && k == a.joined[0]
    requires Get(a.vault, p.phase.epoch).None? && 0 <= p.phase.epoch
    requires var b := Posted(a, p.phase.epoch, p.phase.key, p.phase.wraps); SharedOk(b) && Grows(a, b)
    ensures
      ProcOk(Posted(a, p.phase.epoch, p.phase.key, p.phase.wraps), k,
             AfterKeys(p, OnKeysPosted(p.client, p.phase.epoch, p.phase.key), p.phase.call))
  {
    var b := Posted(a, p.phase.epoch, p.phase.key, p.phase.wraps);
    var c := OnKeysPosted(p.client, p.phase.epoch, p.phase.key);
    PostedVault(a, k, p);
    assert b.joined == a.joined && |b.sent| == |b.s.log| <= |b.Links()|;
    hide SharedOk, ProcOk, Grows, VaultOk, CreatorOk, Posted;
    RekeyedOk(a, b, k, p, c);
    AfterKeysOk(b, k, p, c, p.phase.call);
  }

  lemma PostKeysOk(w: World, who: PublicKey)
    requires Inv(w) && IsMember(w, who) && w.procs[who].phase.PostingKeys?
    ensures Inv(StepPostKeys(w, w.procs[who], who))
  {
    var a, p := SharedOf(w), w.procs[who];
    MemberIsJoined(a, who);
    assert PartOk(w, who);
    PostingIsNew(a, who, p);
    PostedProc(a, who, p);
    PostKeysMoved(w, who);
    hide SharedOk, ProcOk, Grows, Posted;
    Finish(w, StepPostKeys(w, p, who), who, Posted(a, p.phase.epoch, p.phase.key, p.phase.wraps));
  }

  lemma PostKeysMoved(w: World, who: PublicKey)
    requires Started(w) && who in w.procs && who == w.joined[0] && w.procs[who].phase.PostingKeys?
    requires var c, s := w.procs[who].client, w.relay.value;
             c.MemberId() in s.members && c.MemberId() == s.meta.creatorId
             && c.sessionId == s.meta.sessionId && c.identity == who
    ensures
      var p := w.procs[who];
      var v := StepPostKeys(w, p, who);
      && Moved(w, v, who, Posted(SharedOf(w), p.phase.epoch, p.phase.key, p.phase.wraps))
      && v.procs[who] == AfterKeys(p, OnKeysPosted(p.client, p.phase.epoch, p.phase.key), p.phase.call)
  {
  }

  // ---- Fetching ----

  /** The relay's answer to a member: its own wrap of the creator's key, or nothing yet. */
  lemma FetchedIsMine(sh: Shared, k: PublicKey, e: int)
    requires SharedOk(sh) && (e, Fingerprint(k)) in sh.s.keys
    ensures Get(sh.vault, e).Some? && MemberBy(sh, k, e) && Get(sh.known, Fingerprint(k)).Some?
    ensures sh.s.keys[(e, Fingerprint(k))] == KeyFor(sh, e, Get(sh.vault, e).value, k)
  {
    hide RelayOk, LogOk;
    assert KeyOk(sh, e, Fingerprint(k));
    var j :| j in sh.joined && Fingerprint(j) == Fingerprint(k) && MemberBy(sh, j, e)
             && Get(sh.vault, e).Some? && sh.s.keys[(e, Fingerprint(k))] == KeyFor(sh, e, Get(sh.vault, e).value, j)
             && Get(sh.known, Fingerprint(k)).Some?;
    FingerprintInjective(j, k);
  }

  /** A cached member carries its own keys. */
  lemma CachedIsSelf(sh: Shared, table: JsMap<string, S.MemberInput>, k: PublicKey)
    requires CacheOk(sh, table) && Get(table, Fingerprint(k)).Some?
    ensures Get(table, Fingerprint(k)) == Some(sh.SelfOf(k))
  {
    GetIsEntry(table, Fingerprint(k));
    var e := (Fingerprint(k), Get(table, Fingerprint(k)).value);
    var j :| j in sh.joined && e == (Fingerprint(j), sh.SelfOf(j));
    FingerprintInjective(j, k);
  }

  lemma UnwrapsOwnKey(sh: Shared, k: PublicKey, c: Client, e: int, key: Bytes)
    requires sh.joined != [] && sh.s.meta.creatorId == Fingerprint(sh.joined[0])
    requires c.agreement == sh.kx(k) && c.sessionId == sh.Sid() && c.creatorFingerprint == Fingerprint(sh.joined[0])
    requires Get(c.membersById, Fingerprint(sh.joined[0])) == Some(sh.SelfOf(sh.joined[0]))
    ensures OnKey(c, e, sh.s.meta.creatorId, Ok(KeyFor(sh, e, key, k))) ==
            Ok(c.(groupKey := Some(key), groupKeys := Set(c.groupKeys, e, key), epoch := e))
  {
  }

  lemma FetchedVault(sh: Shared, k: PublicKey, c: Client, e: int, key: Bytes)
    requires VaultOk(sh, k, c, false)
    requires Get(sh.vault, e) == Some(key) && MemberBy(sh, k, e) && Get(sh.known, Fingerprint(k)).Some?
    ensures VaultOk(sh, k, c.(groupKey := Some(key), groupKeys := Set(c.groupKeys, e, key), epoch := e), false)
  {
  }

  lemma FetchingFacts(sh: Shared, k: PublicKey, p: Proc)
    requires SharedOk(sh) && ProcOk(sh, k, p) && p.phase.FetchingKey?
    ensures k != sh.joined[0] && p.phase.creatorId == sh.s.meta.creatorId == Fingerprint(sh.joined[0])
    ensures p.client.agreement == sh.kx(k) && p.client.sessionId == sh.Sid() && p.client.identity == k
    ensures p.client.creatorFingerprint == Fingerprint(sh.joined[0])
    ensures Get(p.client.membersById, Fingerprint(sh.joined[0])) == Some(sh.SelfOf(sh.joined[0]))
    ensures VaultOk(sh, k, p.client, false)
  {
    hide FoldedOk, CacheOk, LogOk, KeysOk, VaultOk;
    CachedIsSelf(sh, p.client.membersById, sh.joined[0]);
  }

  lemma FetchProc(sh: Shared, k: PublicKey, p: Proc) returns (c: Client)
    requires SharedOk(sh) && ProcOk(sh, k, p) && p.phase.FetchingKey?
    ensures OnKey(p.client, p.phase.epoch, p.phase.creatorId, S.GetKey(Some(sh.s), p.phase.epoch, Fingerprint(k))) == Ok(c)
    ensures VaultOk(sh, k, c, false) && k != sh.joined[0]
    ensures OnlyKeysDiffer(p.client, c)
  {
    FetchingFacts(sh, k, p);
    var e := p.phase.epoch;
    if (e, Fingerprint(k)) in sh.s.keys {
      FetchedIsMine(sh, k, e);
      var key := Get(sh.vault, e).value;
      hide SharedOk, ProcOk, VaultOk, OnKey, KeyFor;
      UnwrapsOwnKey(sh, k, p.client, e, key);
      FetchedVault(sh, k, p.client, e, key);
      c := p.client.(groupKey := Some(key), groupKeys := Set(p.client.groupKeys, e, key), epoch := e);
    } else {
      hide SharedOk, ProcOk, VaultOk;
      c := p.client;
    }
  }

  lemma GrowsSame(sh: Shared)
    ensures Grows(sh, sh)
  {
  }

  lemma FetchKeyOk(w: World, who: PublicKey)
    requires Inv(w) && IsMember(w, who) && w.procs[who].phase.FetchingKey?
    ensures Inv(StepFetchKey(w, w.procs[who], who))
  {
    var a, p := SharedOf(w), w.procs[who];
    MemberIsJoined(a, who);
    assert PartOk(w, who);
    FetchingFacts(a, who, p);
    var c := FetchProc(a, who, p);
    GrowsSame(a);
    assert a.joined != [] && |a.sent| == |a.s.log| <= |a.Links()|;
    hide SharedOk, ProcOk, Grows, VaultOk, OnKey, AfterKeys;
    RekeyedOk(a, a, who, p, c);
    FetchFinish(w, who, c);
  }

  lemma FetchMoved(w: World, who: PublicKey, c: Client)
    requires Started(w) && who in w.procs && who in w.joined && who != w.joined[0]
    requires w.procs[who].phase.FetchingKey?
    requires var p := w.procs[who];
             OnKey(p.client, p.phase.epoch, p.phase.creatorId, S.GetKey(w.relay, p.phase.epoch, p.client.MemberId())) == Ok(c)
    ensures
      var p := w.procs[who];
      var v := StepFetchKey(w, p, who);
      Moved(w, v, who, SharedOf(w)) && v.procs[who] == AfterKeys(p, c, p.phase.call)
  {
    hide OnKey, AfterKeys;
  }

  lemma FetchFinish(w: World, who: PublicKey, c: Client)
    requires Inv(w) && Started(w) && who in w.procs && who in w.joined && who != w.joined[0]
    requires w.procs[who].phase.FetchingKey?
    requires SharedOk(SharedOf(w)) && ProcOk(SharedOf(w), who, w.procs[who].(client := c, phase := Idle))
    requires var p := w.procs[who];
             OnKey(p.client, p.phase.epoch, p.phase.creatorId, S.GetKey(w.relay, p.phase.epoch, p.client.MemberId())) == Ok(c)
    ensures Inv(StepFetchKey(w, w.procs[who], who))
  {
    var a, p := SharedOf(w), w.procs[who];
    AfterKeysOk(a, who, p, c, p.phase.call);
    GrowsSame(a);
    FetchMoved(w, who, c);
    hide *;
    Finish(w, StepFetchKey(w, p, who), who, a);
  }
}
