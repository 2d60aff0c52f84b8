/** What a passing verdict proves about a bundle, whoever assembled it. */
module Integrity {
  import opened Prelude
  import opened Sequences
  import opened Sorting
  import opened Crypto
  import opened Message
  import opened Transcript

  /** Every link of the presented messages passes: all decode, and each names the head before it. */
  predicate Chained(b: Bundle) {
    forall v <- Verdicts(b) :: v.chainValid
  }

  function EnvelopeAt(b: Bundle, i: nat): (env: Envelope)
    requires i < |b.messages| && Decode(b.sessionId, Ordered(b)[i]).Some?
    ensures WellFormed(env)
  {
    Decode(b.sessionId, Ordered(b)[i]).value
  }

  function Links(b: Bundle): seq<Bytes> { Signed(b.sessionId, Ordered(b)) }

  lemma SignedLast(sessionId: string, entries: seq<Entry>)
    requires entries != [] && Decode(sessionId, entries[|entries| - 1]).Some?
    ensures Signed(sessionId, entries) == Signed(sessionId, entries[..|entries| - 1])
                                          + [SigningBytes(Decode(sessionId, entries[|entries| - 1]).value)]
  {
    hide Decode, SigningBytes;
  }

  lemma {:induction false} SignedAt(sessionId: string, entries: seq<Entry>, i: nat)
    requires forall e <- entries :: Decode(sessionId, e).Some?
    ensures |Signed(sessionId, entries)| == |entries|
    ensures i < |entries| ==> Signed(sessionId, entries)[i] == SigningBytes(Decode(sessionId, entries[i]).value)
  {
    hide *;
    if entries != [] {
      var n := |entries| - 1;
      assert entries[n] in entries && forall e <- entries[..n] :: e in entries;
      SignedAt(sessionId, entries[..n], i);
      SignedLast(sessionId, entries);
    }
  }

  lemma SignedPrefix(sessionId: string, entries: seq<Entry>, i: nat)
    requires i <= |entries|
    requires forall e <- entries :: Decode(sessionId, e).Some?
    ensures |Signed(sessionId, entries)| == |entries|
    ensures Signed(sessionId, entries[..i]) == Signed(sessionId, entries)[..i]
  {
    var whole, part := Signed(sessionId, entries), Signed(sessionId, entries[..i]);
    SignedAt(sessionId, entries, 0);
    SignedAt(sessionId, entries[..i], 0);
    forall k | 0 <= k < i ensures part[k] == whole[..i][k] {
      SignedAt(sessionId, entries, k);
      SignedAt(sessionId, entries[..i], k);
    }
  }

  lemma ChainedDecodes(b: Bundle)
    requires Chained(b)
    ensures |Links(b)| == |b.messages|
    ensures forall e <- Ordered(b) :: Decode(b.sessionId, e).Some?
  {
    forall i | 0 <= i < |Ordered(b)| ensures Decode(b.sessionId, Ordered(b)[i]).Some? {
      assert Verdicts(b)[i].chainValid;
    }
    SignedAt(b.sessionId, Ordered(b), 0);
  }

  /** In a chained bundle the i-th message names the fold of exactly the i messages before it. */
  lemma LinkAt(b: Bundle, i: nat)
    requires Chained(b) && i < |b.messages|
    ensures |Links(b)| == |b.messages|
    ensures Decode(b.sessionId, Ordered(b)[i]).Some?
    ensures Links(b)[i] == SigningBytes(EnvelopeAt(b, i))
    ensures EnvelopeAt(b, i).prevHash == Fold(Links(b)[..i])
    ensures Verdicts(b)[i].id == HexOf(Links(b)[i])
    ensures Verdicts(b)[i].ref == EnvelopeAt(b, i).ref
  {
    ChainedDecodes(b);
    assert Ordered(b)[i] in Ordered(b);
    SignedAt(b.sessionId, Ordered(b), i);
    SignedPrefix(b.sessionId, Ordered(b), i);
    assert Verdicts(b)[i] in Verdicts(b) && Verdicts(b)[i] == VerdictAt(b, i);
  }

  /** Content ids of a chained bundle are pairwise distinct: each link fixes its own position. */
  lemma IdsDistinct(b: Bundle, i: nat, j: nat)
    requires Chained(b) && i < |b.messages| && j < |b.messages|
    ensures Verdicts(b)[i].id == Verdicts(b)[j].id <==> i == j
  {
    LinkAt(b, i);
    LinkAt(b, j);
    if Verdicts(b)[i].id == Verdicts(b)[j].id {
      HexOfInjective(Links(b)[i], Links(b)[j]);
      SigningBytesBindChain(EnvelopeAt(b, i), EnvelopeAt(b, j));
      FoldInjective(Links(b)[..i], Links(b)[..j]);
    }
  }

  /** A digest is deeper than every digest spelled out in its canonical text. */
  lemma IdInsideIsShallower(env: Envelope, inner: Bytes)
    requires inner.Sha256?
    requires RefText(env.ref) == HexOf(inner) || env.prevHash == Some(inner)
    ensures Depth(inner) < Depth(SigningBytes(env))
  {
    var at: nat := if RefText(env.ref) == HexOf(inner) then 5 else 6;
    assert Fields(env)[at] == HexOf(inner);
    InJoin(Fields(env), at, Hex(inner));
    SymbolInText(Hex(inner), Canonical(env));
    assert Depth(SigningBytes(env)) == 1 + PartsDepth([Utf8(Canonical(env))]);
    assert [Utf8(Canonical(env))][1..] == [];
  }

  lemma {:induction false} InJoin(parts: seq<Text>, i: nat, s: Symbol)
    requires i < |parts| && s in parts[i]
    ensures s in Join(parts, PIPE)
  {
    if i > 0 {
      InJoin(parts[1..], i - 1, s);
    }
  }

  lemma {:induction false} FoldDepthGrows(links: seq<Bytes>, i: nat)
    requires i < |links|
    ensures Fold(links).Some? && Fold(links).value.Sha256?
    ensures Depth(links[i]) < Depth(Fold(links).value)
  {
    var n := |links| - 1;
    var parts := Fold(links).value.parts;
    assert Depth(Fold(links).value) == 1 + PartsDepth(parts);
    assert parts[|parts| - 1] == links[n];
    assert PartsDepth(parts) >= Depth(links[n]) by {
      assert parts[1..] == [] || parts[1..] == [links[n]];
      assert [links[n]][0] == links[n];
    }
    if i < n {
      FoldDepthGrows(links[..n], i);
      assert parts[0] == Fold(links[..n]).value;
    }
  }

  /** A message can only refer to a strictly earlier one. */
  lemma RefersBackwards(b: Bundle, i: nat, j: nat)
    requires Chained(b) && i < |b.messages| && j < |b.messages|
    requires RefText(Verdicts(b)[i].ref) == Verdicts(b)[j].id
    ensures j < i
  {
    LinkAt(b, i);
    LinkAt(b, j);
    var links := Links(b);
    IdInsideIsShallower(EnvelopeAt(b, i), links[j]);
    if i < j {
      FoldDepthGrows(links[..j], i);
      IdInsideIsShallower(EnvelopeAt(b, j), Fold(links[..j]).value);
    }
  }

  lemma {:induction false} IdTableFinds(verdicts: seq<Verdict>, id: Text)
    requires id != []
    ensures id in IdTable(verdicts) ==> IdTable(verdicts)[id] in verdicts && IdTable(verdicts)[id].id == id
    ensures id !in IdTable(verdicts) ==> forall v <- verdicts :: v.id != id
  {
    if verdicts != [] {
      var n := |verdicts| - 1;
      IdTableFinds(verdicts[..n], id);
      assert verdicts == verdicts[..n] + [verdicts[n]];
    }
  }

  /** The acceptance at `i` signs off on the message at `j`. */
  ghost predicate Names(b: Bundle, a: Agreement, i: nat, j: nat)
    requires i < |b.messages| && j < |b.messages|
  {
    var acceptance, target := Verdicts(b)[i], Verdicts(b)[j];
    && j < i
    && IsAcceptance(acceptance) && acceptance.senderId == a.accepter && RefText(acceptance.ref) == a.acceptsId
    && target.id == a.acceptsId
    && a.acceptedSenderId == Some(target.senderId)
    && target.body.Some? && a.acceptedBody == target.body
    && (forall k :: 0 <= k < |b.messages| && Verdicts(b)[k].id == a.acceptsId ==> k == j)
  }

  /**
   * In a valid bundle an agreement either names no presented message, or names exactly one, strictly earlier
   * than the acceptance, and quotes its sender and its decrypted text.
   */
  lemma AgreementsNameOneEarlierMessage(b: Bundle, a: Agreement)
    requires Valid(b)
    requires a in Agreements(IdTable(Verdicts(b)), Verdicts(b))
    ensures (forall v <- Verdicts(b) :: v.id != a.acceptsId) ==> a.acceptedSenderId == None && a.acceptedBody == None
    ensures (exists v <- Verdicts(b) :: v.id == a.acceptsId) ==>
              exists i: nat, j: nat :: i < |b.messages| && j < |b.messages| && Names(b, a, i, j)
  {
    var verdicts := Verdicts(b);
    var acceptance :| acceptance in verdicts && IsAcceptance(acceptance) && a == Resolve(IdTable(verdicts), acceptance);
    var i: nat :| i < |verdicts| && verdicts[i] == acceptance;
    IdTableFinds(verdicts, a.acceptsId);
    if a.acceptsId in IdTable(verdicts) {
      var j: nat :| j < |verdicts| && verdicts[j] == IdTable(verdicts)[a.acceptsId];
      AgreementNames(b, a, i, j);
    }
  }

  lemma AgreementNames(b: Bundle, a: Agreement, i: nat, j: nat)
    requires Valid(b) && i < |b.messages| && j < |b.messages|
    requires IsAcceptance(Verdicts(b)[i]) && a == Resolve(IdTable(Verdicts(b)), Verdicts(b)[i])
    requires a.acceptsId in IdTable(Verdicts(b)) && Verdicts(b)[j] == IdTable(Verdicts(b))[a.acceptsId]
    requires Verdicts(b)[j].id == a.acceptsId
    ensures Names(b, a, i, j)
  {
    assert Verdicts(b)[j] in Verdicts(b);
    RefersBackwards(b, i, j);
    forall k: nat | k < |b.messages| && Verdicts(b)[k].id == a.acceptsId ensures k == j {
      IdsDistinct(b, k, j);
    }
  }

  /**
   * Take any bundle whose messages all carry signing bytes found in the chained bundle `b`: dropped, reordered,
   * duplicated or renumbered at will. If its own links pass, it is a prefix of `b`, link for link.
   */
  lemma ChainedPartIsPrefix(b: Bundle, part: Bundle)
    requires Chained(b) && Chained(part)
    requires forall s <- Links(part) :: s in Links(b)
    ensures |part.messages| <= |b.messages| == |Links(b)|
    ensures Links(part) == Links(b)[..|part.messages|]
  {
    ChainedDecodes(b);
    ChainedDecodes(part);
    PrefixByPosition(b, part, |part.messages|);
    assert Links(part) == Links(part)[..|part.messages|];
  }

  lemma {:induction false} PrefixByPosition(b: Bundle, part: Bundle, n: nat)
    requires Chained(b) && Chained(part) && n <= |part.messages| == |Links(part)|
    requires forall s <- Links(part) :: s in Links(b)
    ensures n <= |Links(b)| && Links(part)[..n] == Links(b)[..n]
  {
    hide *;
    if n > 0 {
      PrefixByPosition(b, part, n - 1);
      ChainedDecodes(b);
      assert Links(part)[n - 1] in Links(part);
      var i: nat :| i < |Links(b)| && Links(b)[i] == Links(part)[n - 1];
      LinkFixesPosition(b, i, part, n - 1);
      PrefixStep(Links(part), n - 1);
      PrefixStep(Links(b), n - 1);
    }
  }

  /** Two chained bundles that hold the same link at some places agree on everything before it. */
  lemma LinkFixesPosition(b: Bundle, i: nat, part: Bundle, n: nat)
    requires Chained(b) && Chained(part) && i < |Links(b)| == |b.messages| && n < |Links(part)| == |part.messages|
    requires Links(b)[i] == Links(part)[n]
    ensures i == n && Links(part)[..n] == Links(b)[..i]
  {
    hide *;
    LinkAt(part, n);
    LinkAt(b, i);
    SigningBytesBindChain(EnvelopeAt(part, n), EnvelopeAt(b, i));
    FoldInjective(Links(part)[..n], Links(b)[..i]);
    assert |Links(part)[..n]| == |Links(b)[..i]|;
  }

  /**
   * What equal signing bytes say: chain position, nonce and ciphertext agree, and in envelopes whose names and
   * references hold no separator everything else does, up to a null and an empty reference.
   */
  ghost predicate SameContent(a: Envelope, b: Envelope) {
    && a.prevHash == b.prevHash && a.nonce == b.nonce && a.ciphertext == b.ciphertext
    && (NoPipes(a) && NoPipes(b) ==> a.(ref := None) == b.(ref := None) && RefText(a.ref) == RefText(b.ref))
  }

  lemma SameBytesSameContent(a: Envelope, b: Envelope)
    requires WellFormed(a) && WellFormed(b) && SigningBytes(a) == SigningBytes(b)
    ensures SameContent(a, b)
  {
    hide SigningBytes, NoPipes;
    SigningBytesBindChain(a, b);
    if NoPipes(a) && NoPipes(b) {
      SigningBytesUniquelyReadable(a, b);
    }
  }

  /** That prefix agrees with the original message by message. */
  lemma PrefixHasSameContent(b: Bundle, part: Bundle, i: nat)
    requires Chained(b) && Chained(part)
    requires forall s <- Links(part) :: s in Links(b)
    requires i < |part.messages|
    ensures i < |b.messages|
    ensures Decode(b.sessionId, Ordered(b)[i]).Some? && Decode(part.sessionId, Ordered(part)[i]).Some?
    ensures SameContent(EnvelopeAt(part, i), EnvelopeAt(b, i))
  {
    hide Links, Chained, Ordered, Decode, SigningBytes, SameContent, Verdicts, Fold;
    ChainedPartIsPrefix(b, part);
    LinkAt(b, i);
    LinkAt(part, i);
    assert Links(part)[i] == Links(b)[i];
    SameBytesSameContent(EnvelopeAt(part, i), EnvelopeAt(b, i));
  }

  /** Every message is decodable, as every message of a valid bundle is. */
  ghost predicate AllDecode(b: Bundle) {
    forall e <- Ordered(b) :: Decode(b.sessionId, e).Some?
  }

  lemma ValidDecodes(b: Bundle)
    requires Valid(b)
    ensures AllDecode(b)
  {
    hide HeadMatches, MembersValid, Verdicts, Ordered, Decode;
    ChainedDecodes(b);
  }

  /**
   * Two bundles that satisfy one signed head have the same decodable messages in the same order; if all are decodable,
   * as in valid bundles, they are the same messages: no tail can be dropped.
   */
  lemma SameHeadSameMessages(b: Bundle, other: Bundle)
    requires b.head.Some? && b.head == other.head
    requires HeadMatches(b, b.head.value) && HeadMatches(other, other.head.value)
    ensures Links(b) == Links(other)
    ensures LastSeq(Ordered(b)) == LastSeq(Ordered(other))
    ensures AllDecode(b) && AllDecode(other) ==>
              |b.messages| == |other.messages|
              && forall i: nat :: i < |b.messages| ==> SameContent(EnvelopeAt(b, i), EnvelopeAt(other, i))
    ensures Valid(b) && Valid(other) ==> AllDecode(b) && AllDecode(other)
  {
    hide Links, Ordered, Valid, AllDecode, SameContent, Decode;
    HeadsFold(b, other);
    if AllDecode(b) && AllDecode(other) {
      DecodedCount(b);
      DecodedCount(other);
      forall i: nat | i < |b.messages| ensures SameContent(EnvelopeAt(b, i), EnvelopeAt(other, i)) {
        DecodedAt(b, i);
        DecodedAt(other, i);
        SameBytesSameContent(EnvelopeAt(b, i), EnvelopeAt(other, i));
      }
    }
    if Valid(b) && Valid(other) {
      ValidDecodes(b);
      ValidDecodes(other);
    }
  }

  lemma HeadsFold(b: Bundle, other: Bundle)
    requires b.head.Some? && b.head == other.head
    requires HeadMatches(b, b.head.value) && HeadMatches(other, other.head.value)
    ensures Links(b) == Links(other) && LastSeq(Ordered(b)) == LastSeq(Ordered(other))
  {
    hide KeyTable, Signed, Ordered, HeadCanonical, HeadText;
    HeadTextInjective(Links(b), Links(other));
    FoldInjective(Links(b), Links(other));
  }

  lemma HeadTextInjective(a: seq<Bytes>, b: seq<Bytes>)
    requires HeadText(Fold(a)) == HeadText(Fold(b))
    ensures Fold(a) == Fold(b)
  {
    var x, y := Fold(a), Fold(b);
    if x.Some? && y.Some? {
      HexOfInjective(x.value, y.value);
    }
  }

  lemma DecodedCount(b: Bundle)
    requires AllDecode(b)
    ensures |Ordered(b)| == |b.messages| == |Links(b)|
    ensures forall i: nat :: i < |b.messages| ==> Decode(b.sessionId, Ordered(b)[i]).Some?
  {
    hide Signed, Sort, Decode;
    SignedAt(b.sessionId, Ordered(b), 0);
  }

  lemma DecodedAt(b: Bundle, i: nat)
    requires AllDecode(b) && i < |b.messages|
    ensures |Links(b)| == |b.messages| && Decode(b.sessionId, Ordered(b)[i]).Some?
    ensures Links(b)[i] == SigningBytes(EnvelopeAt(b, i))
  {
    hide Signed, Sort, Decode, SigningBytes;
    SignedAt(b.sessionId, Ordered(b), i);
  }

  // ---- What a head does not cover ----

  lemma {:induction false} SignedAppends(sessionId: string, a: seq<Entry>, b: seq<Entry>)
    ensures Signed(sessionId, a + b) == Signed(sessionId, a) + Signed(sessionId, b)
  {
    hide Decode, SigningBytes;
    if b == [] {
      assert a + b == a;
    } else {
      var n := |b| - 1;
      SignedAppends(sessionId, a, b[..n]);
      assert (a + b)[..|a + b| - 1] == a + b[..n];
    }
  }

  lemma SignedOfUndecodable(sessionId: string, e: Entry)
    requires Decode(sessionId, e).None?
    ensures Signed(sessionId, [e]) == []
  {
    hide Decode, SigningBytes;
    assert [e][..0] == [];
  }

  lemma {:induction false} UndecodableInserted(sessionId: string, e: Entry, s: seq<Entry>)
    requires Decode(sessionId, e).None?
    ensures Signed(sessionId, Insert(BySeq, e, s)) == Signed(sessionId, s)
  {
    hide Decode, Signed;
    SignedOfUndecodable(sessionId, e);
    if s == [] || BySeq(e, s[0]) {
      SignedAppends(sessionId, [e], s);
    } else {
      UndecodableInserted(sessionId, e, s[1..]);
      SignedAppends(sessionId, [s[0]], Insert(BySeq, e, s[1..]));
      SignedAppends(sessionId, [s[0]], s[1..]);
      assert s == [s[0]] + s[1..];
    }
  }

  lemma {:induction false} LastStays(e: Entry, s: seq<Entry>)
    requires s != [] && e.seqNo <= LastSeq(s)
    ensures LastSeq(Insert(BySeq, e, s)) == LastSeq(s)
  {
    if !BySeq(e, s[0]) {
      LastStays(e, s[1..]);
    }
  }

  /**
   * An undecodable message with a sequence number that is not past the last one can be added without the head
   * noticing; it is the verdict on the messages that fails.
   */
  lemma HeadMissesUndecodable(b: Bundle, e: Entry)
    requires b.head.Some? && HeadMatches(b, b.head.value)
    requires Decode(b.sessionId, e).None? && b.messages != [] && e.seqNo <= LastSeq(Ordered(b))
    ensures HeadMatches(b.(messages := [e] + b.messages), b.head.value) && !Valid(b.(messages := [e] + b.messages))
  {
    hide KeyTable, Signed, Fold, HeadCanonical, Decode, Verdicts, VerdictAt;
    var more := b.(messages := [e] + b.messages);
    OrderedInserts(b, e);
    UndecodableInserted(b.sessionId, e, Ordered(b));
    LastStays(e, Ordered(b));
    UndecodableUnsound(more, e);
  }

  lemma OrderedInserts(b: Bundle, e: Entry)
    ensures Ordered(b.(messages := [e] + b.messages)) == Insert(BySeq, e, Ordered(b))
    ensures |Ordered(b)| == |b.messages|
  {
    assert ([e] + b.messages)[1..] == b.messages;
  }

  lemma UndecodableUnsound(b: Bundle, e: Entry)
    requires e in b.messages && Decode(b.sessionId, e).None?
    ensures !Valid(b)
  {
    hide Decode, MembersValid, HeadMatches, KeyTable, EpochTable, Signed, Fold;
    var i: nat :| i < |Ordered(b)| && Ordered(b)[i] == e;
    assert Verdicts(b)[i] in Verdicts(b) && !Sound(VerdictAt(b, i));
  }

  /** With pairwise distinct sequence numbers the whole verification ignores the order messages arrive in. */
  lemma VerificationIgnoresOrder(b: Bundle, shuffled: seq<Entry>)
    requires multiset(shuffled) == multiset(b.messages)
    requires forall i, j :: 0 <= i < j < |b.messages| ==> b.messages[i].seqNo != b.messages[j].seqNo
    ensures Expected(b.(messages := shuffled)) == Expected(b)
  {
    hide Sort, Judge, KeyTable, EpochTable, Signed, Fold, Agreements, IdTable, HeadCanonical;
    SortIgnoresOrder(BySeq, b.messages, shuffled);
    var other := b.(messages := shuffled);
    assert Ordered(other) == Ordered(b);
    assert Verdicts(other) == Verdicts(b);
  }

  lemma {:induction false} KeyTableReads(members: seq<Member>, fingerprint: string)
    requires forall m <- members :: MemberValid(m)
    ensures fingerprint in KeyTable(members) <==> exists m <- members :: m.fingerprint == fingerprint
    ensures forall m <- members :: m.fingerprint == fingerprint ==>
                                     fingerprint in KeyTable(members) && m.identityPub == Some(KeyTable(members)[fingerprint])
  {
    if members != [] {
      var n := |members| - 1;
      KeyTableReads(members[..n], fingerprint);
      assert members == members[..n] + [members[n]];
      assert members[n] in members;
      forall m | m in members && m.fingerprint == fingerprint
        ensures fingerprint in KeyTable(members) && m.identityPub == Some(KeyTable(members)[fingerprint])
      {
        if members[n].fingerprint == fingerprint {
          FingerprintInjective(m.identityPub.value, members[n].identityPub.value);
        } else {
          assert m in members[..n];
        }
      }
    }
  }

  /** The key disclosed for an epoch: the last well-formed entry for it. */
  ghost predicate Discloses(keys: seq<GroupKey>, epoch: int, key: Bytes) {
    exists i :: 0 <= i < |keys| && keys[i] == GroupKey(epoch, HexField(key))
                && forall j :: i < j < |keys| && keys[j].epoch == epoch ==> keys[j].key.NotHex?
  }

  /** A well-formed last entry for the epoch decides; any other leaves the choice to the entries before it. */
  lemma LastDisclosure(keys: seq<GroupKey>, last: GroupKey, epoch: int, key: Bytes)
    ensures Discloses(keys + [last], epoch, key) <==>
            if last.epoch == epoch && last.key.HexField? then last.key.bytes == key else Discloses(keys, epoch, key)
  {
    var n, all := |keys|, keys + [last];
    assert all[n] == last && forall i :: 0 <= i < n ==> all[i] == keys[i];
    if last.epoch == epoch && last.key.HexField? {
      if last.key.bytes == key {
        assert all[n] == GroupKey(epoch, HexField(key));
      }
    } else if Discloses(keys, epoch, key) {
      var i :| 0 <= i < n && keys[i] == GroupKey(epoch, HexField(key))
               && forall j :: i < j < n && keys[j].epoch == epoch ==> keys[j].key.NotHex?;
      assert all[i] == GroupKey(epoch, HexField(key));
    }
  }

  lemma {:induction false} EpochTableReads(keys: seq<GroupKey>, epoch: int, key: Bytes)
    ensures Discloses(keys, epoch, key) <==> epoch in EpochTable(keys) && EpochTable(keys)[epoch] == key
  {
    if keys != [] {
      var n := |keys| - 1;
      EpochTableReads(keys[..n], epoch, key);
      assert keys == keys[..n] + [keys[n]];
      LastDisclosure(keys[..n], keys[n], epoch, key);
      hide Discloses;
    }
  }

  /** Some listed member with the entry's sender fingerprint made its signature. */
  ghost predicate SignedByMember(b: Bundle, e: Entry, env: Envelope) {
    exists m <- b.members :: m.fingerprint == e.senderId && m.identityPub.Some?
                             && e.signature == HexField(SignMessage(env, m.identityPub.value))
  }

  /** The ciphertext was made under the key disclosed for the entry's epoch, for this session and sender. */
  ghost predicate Opens(b: Bundle, e: Entry, env: Envelope) {
    exists key, plaintext ::
      && Discloses(b.groupKeys, e.epoch, key)
      && env.ciphertext == Encrypt(key, env.nonce, AssociatedData(b.sessionId, e.epoch, e.senderId), plaintext)
  }

  /** What the documentation promises of one message: who signed it, where it stands, and that it opens. */
  ghost predicate Proven(b: Bundle, i: nat)
    requires i < |b.messages|
  {
    var e := Ordered(b)[i];
    match Decode(b.sessionId, e)
    case None => false
    case Some(env) =>
      SignedByMember(b, e, env) && env.prevHash == Fold(Signed(b.sessionId, Ordered(b)[..i])) && Opens(b, e, env)
  }

  lemma SignatureOkMeans(b: Bundle, e: Entry, env: Envelope)
    requires MembersValid(b)
    ensures SignatureOk(KeyTable(b.members), e, env) <==> SignedByMember(b, e, env)
  {
    KeyTableReads(b.members, e.senderId);
  }

  lemma OpenedMeans(b: Bundle, e: Entry, env: Envelope)
    ensures Opened(EpochTable(b.groupKeys), b.sessionId, e, env).Some? <==> Opens(b, e, env)
  {
    var epochs := EpochTable(b.groupKeys);
    forall key ensures Discloses(b.groupKeys, e.epoch, key) <==> e.epoch in epochs && epochs[e.epoch] == key {
      EpochTableReads(b.groupKeys, e.epoch, key);
    }
    if Opened(epochs, b.sessionId, e, env).Some? {
      assert Discloses(b.groupKeys, e.epoch, epochs[e.epoch]);
      assert env.ciphertext == Encrypt(epochs[e.epoch], env.nonce, AssociatedData(b.sessionId, e.epoch, e.senderId),
                                       env.ciphertext.plaintext);
    }
  }

  /** `valid` means what it says: the verdict without tables, loops or running state. */
  lemma ValidMeansProven(b: Bundle)
    ensures Valid(b) <==>
            && MembersValid(b)
            && (forall i :: 0 <= i < |b.messages| ==> Proven(b, i))
            && (b.head.Some? ==> HeadMatches(b, b.head.value))
  {
    if MembersValid(b) {
      forall i: nat | i < |b.messages| ensures Sound(Verdicts(b)[i]) <==> Proven(b, i) {
        SoundMeansProven(b, i);
      }
      assert forall v <- Verdicts(b) :: exists i: nat :: i < |b.messages| && Verdicts(b)[i] == v;
    }
  }

  lemma SoundMeansProven(b: Bundle, i: nat)
    requires MembersValid(b) && i < |b.messages|
    ensures Sound(VerdictAt(b, i)) <==> Proven(b, i)
  {
    var e := Ordered(b)[i];
    var decoded := Decode(b.sessionId, e);
    if decoded.Some? {
      SignatureOkMeans(b, e, decoded.value);
      OpenedMeans(b, e, decoded.value);
    }
  }
}
