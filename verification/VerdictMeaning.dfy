/** What the verifier's answer says about an arbitrary bundle, entry by entry and agreement by agreement. */
module VerdictMeaning {
  import opened Prelude
  import opened Decimals
  import opened Sequences
  import opened Sorting
  import opened Crypto
  import opened Message
  import opened Transcript
  import opened Integrity

  // ---- Keys ----

  /** The key that counts for a fingerprint: the last one listed for it that decodes. */
  ghost predicate Listed(members: seq<Member>, f: string, key: PublicKey) {
    exists i :: 0 <= i < |members| && members[i].fingerprint == f && members[i].identityPub == Some(key)
                && forall j :: i < j < |members| && members[j].fingerprint == f ==> members[j].identityPub.None?
  }

  lemma LastListed(members: seq<Member>, last: Member, f: string, key: PublicKey)
    ensures Listed(members + [last], f, key) <==>
            if last.fingerprint == f && last.identityPub.Some? then last.identityPub.value == key else Listed(members, f, key)
  {
    var n, all := |members|, members + [last];
    assert all[n] == last && forall i :: 0 <= i < n ==> all[i] == members[i];
    if last.fingerprint == f && last.identityPub.Some? {
      if last.identityPub.value == key {
        assert all[n].fingerprint == f && all[n].identityPub == Some(key);
      }
    } else if Listed(members, f, key) {
      var i :| 0 <= i < n && members[i].fingerprint == f && members[i].identityPub == Some(key)
               && forall j :: i < j < n && members[j].fingerprint == f ==> members[j].identityPub.None?;
      assert all[i].fingerprint == f && all[i].identityPub == Some(key);
    }
  }

  lemma {:induction false} KeyTableLists(members: seq<Member>, f: string, key: PublicKey)
    ensures Listed(members, f, key) <==> f in KeyTable(members) && KeyTable(members)[f] == key
  {
    if members != [] {
      var n := |members| - 1;
      KeyTableLists(members[..n], f, key);
      assert members == members[..n] + [members[n]];
      LastListed(members[..n], members[n], f, key);
      hide Listed;
    }
  }

  // ---- One verdict ----

  /** The listed key of the claimed sender made the signature. */
  ghost predicate SignedAs(b: Bundle, e: Entry, env: Envelope) {
    exists key :: Listed(b.members, e.senderId, key) && e.signature == HexField(SignMessage(env, key))
  }

  /** Under the key disclosed for the entry's epoch, for this session and sender, the ciphertext is this plaintext. */
  ghost predicate ReadsAs(b: Bundle, e: Entry, env: Envelope, plaintext: string) {
    exists key :: Discloses(b.groupKeys, e.epoch, key)
                  && env.ciphertext == Encrypt(key, env.nonce, AssociatedData(b.sessionId, e.epoch, e.senderId), plaintext)
  }

  lemma SignatureMeans(b: Bundle, e: Entry, env: Envelope)
    ensures SignatureOk(KeyTable(b.members), e, env) <==> SignedAs(b, e, env)
  {
    hide KeyTable, Listed, SigningBytes;
    if SignatureOk(KeyTable(b.members), e, env) {
      KeyTableLists(b.members, e.senderId, KeyTable(b.members)[e.senderId]);
    }
    if key :| Listed(b.members, e.senderId, key) && e.signature == HexField(SignMessage(env, key)) {
      KeyTableLists(b.members, e.senderId, key);
    }
  }

  lemma ReadingMeans(b: Bundle, e: Entry, env: Envelope, plaintext: string)
    ensures Opened(EpochTable(b.groupKeys), b.sessionId, e, env) == Some(plaintext) <==> ReadsAs(b, e, env, plaintext)
  {
    hide EpochTable, Discloses, AssociatedData;
    var epochs := EpochTable(b.groupKeys);
    if Opened(epochs, b.sessionId, e, env) == Some(plaintext) {
      EpochTableReads(b.groupKeys, e.epoch, epochs[e.epoch]);
    }
    if key :| Discloses(b.groupKeys, e.epoch, key)
              && env.ciphertext == Encrypt(key, env.nonce, AssociatedData(b.sessionId, e.epoch, e.senderId), plaintext) {
      EpochTableReads(b.groupKeys, e.epoch, key);
    }
  }

  /** The chain as it stood before entry `i`. */
  function HeadBefore(b: Bundle, i: nat): Option<Bytes>
    requires i <= |Ordered(b)|
  {
    Fold(Signed(b.sessionId, Ordered(b)[..i]))
  }

  /** What a verdict says: nothing of an undecodable entry, else its content id, and signature, link and plaintext exactly. */
  ghost predicate Tells(b: Bundle, i: nat, v: Verdict)
    requires i < |Ordered(b)|
  {
    var e := Ordered(b)[i];
    && v.seqNo == e.seqNo && v.senderId == e.senderId && v.messageType == e.messageType && v.ref == e.ref
    && match Decode(b.sessionId, e)
       case None => v.id == [] && !v.signatureValid && !v.chainValid && v.body == None
       case Some(env) =>
         && v.id == [Hex(SigningBytes(env))]
         && (v.signatureValid <==> SignedAs(b, e, env))
         && (v.chainValid <==> env.prevHash == HeadBefore(b, i))
         && forall p :: v.body == Some(p) <==> SignedAs(b, e, env) && ReadsAs(b, e, env, p)
  }

  lemma VerdictMeans(b: Bundle, i: nat)
    requires i < |b.messages|
    ensures |Ordered(b)| == |b.messages| == |Expected(b).messages| && Tells(b, i, Expected(b).messages[i])
  {
    hide KeyTable, EpochTable, Signed, Fold, Sort, SigningBytes, Decode, SignedAs, ReadsAs, SignatureOk, Opened,
         Valid, MembersValid, Agreements, IdTable, HeadMatches;
    var e := Ordered(b)[i];
    var decoded := Decode(b.sessionId, e);
    if decoded.Some? {
      SignatureMeans(b, e, decoded.value);
      forall p ensures Opened(EpochTable(b.groupKeys), b.sessionId, e, decoded.value) == Some(p) <==> ReadsAs(b, e, decoded.value, p) {
        ReadingMeans(b, e, decoded.value, p);
      }
      IdIsHex(decoded.value);
    }
  }

  lemma IdIsHex(env: Envelope)
    ensures MessageId(env) == [Hex(SigningBytes(env))]
  {
  }

  // ---- Members and head ----

  /** A member entry whose fingerprint and identifier belong to its key. */
  ghost predicate SelfCertifying(m: Member) {
    exists key: PublicKey :: m == Member(Fingerprint(key), DidKey(key), Some(key))
  }

  lemma MembersMeans(b: Bundle)
    ensures Expected(b).membersValid <==> b.members != [] && forall m <- b.members :: SelfCertifying(m)
  {
    hide Fingerprint, DidKey, Verdicts, Valid, Agreements, HeadMatches;
    forall m: Member ensures MemberValid(m) <==> SelfCertifying(m) {
      if MemberValid(m) {
        assert m == Member(Fingerprint(m.identityPub.value), DidKey(m.identityPub.value), m.identityPub);
      }
    }
  }

  /** In a valid member list a fingerprint, and an identifier, belongs to one key. */
  lemma OneKeyPerName(b: Bundle, m: Member, n: Member)
    requires Expected(b).membersValid && m in b.members && n in b.members
    requires m.fingerprint == n.fingerprint || m.did == n.did
    ensures m == n && m.identityPub.Some?
  {
    hide Fingerprint, DidKey, Verdicts, Valid, Agreements, HeadMatches;
    MembersMeans(b);
    assert SelfCertifying(m) && SelfCertifying(n);
    var j: PublicKey :| m == Member(Fingerprint(j), DidKey(j), Some(j));
    var k: PublicKey :| n == Member(Fingerprint(k), DidKey(k), Some(k));
    if m.fingerprint == n.fingerprint {
      FingerprintInjective(j, k);
    } else {
      DidKeyInjective(j, k);
    }
  }

  /** The listed signer signed the session, the last sequence number and the hash of everything decodable. */
  ghost predicate HeadSigned(b: Bundle, h: Head) {
    && (exists key :: Listed(b.members, h.signer, key)
                      && h.signature == HexField(Signature(key, Utf8(
                           Lift("randevu/transcript-head/v1|" + b.sessionId + "|" + IntText(h.lastSeq) + "|") + h.headHash))))
    && h.lastSeq == (if b.messages == [] then 0 else Ordered(b)[|b.messages| - 1].seqNo)
    && h.headHash == match HeadBefore(b, |b.messages|)
                     case None => []
                     case Some(head) => [Hex(head)]
  }

  lemma HeadMeans(b: Bundle)
    ensures match b.head
            case None => Expected(b).headValid == None
            case Some(h) => Expected(b).headValid == Some(HeadSigned(b, h))
  {
    hide KeyTable, Listed, Signed, Sort, Verdicts, Valid, Agreements, Fold, HeadText, Lift, IntText;
    if b.head.Some? {
      var h := b.head.value;
      assert Ordered(b)[..|b.messages|] == Ordered(b);
      HeadTextIs(HeadBefore(b, |b.messages|), Signed(b.sessionId, Ordered(b)));
      if h.signer in KeyTable(b.members) {
        KeyTableLists(b.members, h.signer, KeyTable(b.members)[h.signer]);
      }
      forall key | Listed(b.members, h.signer, key) ensures h.signer in KeyTable(b.members) && KeyTable(b.members)[h.signer] == key {
        KeyTableLists(b.members, h.signer, key);
      }
    }
  }

  lemma HeadTextIs(head: Option<Bytes>, links: seq<Bytes>)
    requires head == Fold(links)
    ensures HeadText(head) == match head case None => [] case Some(h) => [Hex(h)]
  {
    assert links != [] ==> Fold(links).value.Sha256?;
  }

  // ---- Agreements ----

  /** Entry `i` accepts something: an `accept` with a reference, signed by its sender and in its place in the chain. */
  ghost predicate Accepts(b: Bundle, i: nat) {
    && i < |Ordered(b)| && Ordered(b)[i].messageType == "accept"
    && Ordered(b)[i].ref.Some? && Ordered(b)[i].ref.value != []
    && var decoded := Decode(b.sessionId, Ordered(b)[i]);
    && decoded.Some? && SignedAs(b, Ordered(b)[i], decoded.value) && decoded.value.prevHash == HeadBefore(b, i)
  }

  /** Entry `j` is the last one with this content id. */
  ghost predicate LastWithId(b: Bundle, j: nat, id: Text) {
    && j < |Ordered(b)| && HasId(b, j, id)
    && forall k: nat :: j < k < |Ordered(b)| ==> !HasId(b, k, id)
  }

  ghost predicate HasId(b: Bundle, j: nat, id: Text) {
    && j < |Ordered(b)| && Decode(b.sessionId, Ordered(b)[j]).Some?
    && id == [Hex(SigningBytes(Decode(b.sessionId, Ordered(b)[j]).value))]
  }

  /** What the agreement quotes of the message at `j`. */
  ghost predicate QuotesAt(b: Bundle, a: Agreement, j: nat)
    requires j < |Ordered(b)| && Decode(b.sessionId, Ordered(b)[j]).Some?
  {
    && a.acceptedSenderId == Some(Ordered(b)[j].senderId)
    && var env := Decode(b.sessionId, Ordered(b)[j]).value;
    forall p :: a.acceptedBody == Some(p) <==> SignedAs(b, Ordered(b)[j], env) && ReadsAs(b, Ordered(b)[j], env, p)
  }

  /** What an agreement quotes: the acceptance at `i`, and sender and plaintext of the last entry with the id it accepts. */
  ghost predicate Quotes(b: Bundle, a: Agreement, i: nat)
    requires i < |Ordered(b)|
  {
    && a.accepter == Ordered(b)[i].senderId && Some(a.acceptsId) == Ordered(b)[i].ref
    && ((forall j: nat :: !HasId(b, j, a.acceptsId)) ==> a.acceptedSenderId == None && a.acceptedBody == None)
    && forall j: nat :: LastWithId(b, j, a.acceptsId) ==> QuotesAt(b, a, j)
  }

  lemma AcceptanceMeans(b: Bundle, i: nat)
    requires i < |b.messages|
    ensures IsAcceptance(Verdicts(b)[i]) <==> Accepts(b, i)
  {
    hide Sort, SigningBytes, Decode, SignedAs, ReadsAs, Verdicts, HeadBefore;
    VerdictMeans(b, i);
    VerdictsExpected(b);
  }

  lemma VerdictsExpected(b: Bundle)
    ensures Expected(b).messages == Verdicts(b) && |Verdicts(b)| == |b.messages| == |Ordered(b)|
    ensures Expected(b).agreements == Agreements(IdTable(Verdicts(b)), Verdicts(b))
  {
    hide Valid, MembersValid, HeadMatches, Verdicts, IdTable, Agreements;
  }

  /** The table holds the last verdict with an id. */
  lemma {:induction false} IdTableLast(verdicts: seq<Verdict>, id: Text, j: nat)
    requires id != [] && j < |verdicts| && verdicts[j].id == id
    requires forall k :: j < k < |verdicts| ==> verdicts[k].id != id
    ensures id in IdTable(verdicts) && IdTable(verdicts)[id] == verdicts[j]
  {
    var n := |verdicts| - 1;
    if j < n {
      IdTableLast(verdicts[..n], id, j);
    }
  }

  lemma IdsAre(b: Bundle, id: Text)
    requires id != []
    ensures |Verdicts(b)| == |Ordered(b)|
    ensures forall j: nat :: HasId(b, j, id) <==> j < |Verdicts(b)| && Verdicts(b)[j].id == id
  {
    hide Sort, SigningBytes, Decode, SignedAs, ReadsAs, Verdicts, HeadBefore, Expected, HasId;
    VerdictsExpected(b);
    InRangeOnly(b, id);
    forall j: nat | j < |Verdicts(b)| ensures HasId(b, j, id) <==> Verdicts(b)[j].id == id {
      VerdictMeans(b, j);
      HasIdMeans(b, j, id);
    }
  }

  lemma TargetUnknown(b: Bundle, id: Text)
    requires id != [] && forall j: nat :: !HasId(b, j, id)
    ensures id !in IdTable(Verdicts(b))
  {
    hide Verdicts, IdTable, HasId;
    IdsAre(b, id);
    IdTableFinds(Verdicts(b), id);
  }

  lemma TargetKnown(b: Bundle, id: Text, j: nat)
    requires id != [] && LastWithId(b, j, id)
    ensures j < |Verdicts(b)| == |Ordered(b)| && id in IdTable(Verdicts(b)) && IdTable(Verdicts(b))[id] == Verdicts(b)[j]
    ensures Decode(b.sessionId, Ordered(b)[j]).Some? && Verdicts(b)[j].senderId == Ordered(b)[j].senderId
    ensures var env := Decode(b.sessionId, Ordered(b)[j]).value;
            forall p :: Verdicts(b)[j].body == Some(p) <==> SignedAs(b, Ordered(b)[j], env) && ReadsAs(b, Ordered(b)[j], env, p)
  {
    hide Sort, SigningBytes, Decode, SignedAs, ReadsAs, Verdicts, HeadBefore, IdTable, Expected, HasId, LastWithId;
    VerdictsExpected(b);
    LastIsLast(b, j, id);
    IdsAre(b, id);
    VerdictMeans(b, j);
    IdTableLast(Verdicts(b), id, j);
  }

  /** The agreement an acceptance becomes names it and what it refers to. */
  lemma ResolvedNames(b: Bundle, i: nat)
    requires Accepts(b, i)
    ensures i < |Verdicts(b)| && i < |Ordered(b)|
    ensures
      var a, id := Resolve(IdTable(Verdicts(b)), Verdicts(b)[i]), Ordered(b)[i].ref.value;
      && a.accepter == Ordered(b)[i].senderId && a.acceptsId == id
      && (id !in IdTable(Verdicts(b)) ==> a.acceptedSenderId == None && a.acceptedBody == None)
      && (id in IdTable(Verdicts(b)) ==>
            a.acceptedSenderId == Some(IdTable(Verdicts(b))[id].senderId) && a.acceptedBody == IdTable(Verdicts(b))[id].body)
  {
    hide Sort, SigningBytes, Decode, SignedAs, ReadsAs, Verdicts, HeadBefore, IdTable, Expected;
    VerdictsExpected(b);
    VerdictMeans(b, i);
  }

  lemma ResolvedTarget(b: Bundle, i: nat, j: nat)
    requires Accepts(b, i) && i < |Ordered(b)| && LastWithId(b, j, Ordered(b)[i].ref.value)
    ensures i < |Verdicts(b)| && j < |Ordered(b)| && Decode(b.sessionId, Ordered(b)[j]).Some?
    ensures QuotesAt(b, Resolve(IdTable(Verdicts(b)), Verdicts(b)[i]), j)
  {
    hide Sort, SigningBytes, Decode, SignedAs, ReadsAs, Verdicts, HeadBefore, IdTable, Resolve, LastWithId;
    ResolvedNames(b, i);
    TargetKnown(b, Ordered(b)[i].ref.value, j);
  }

  lemma ResolvedQuotes(b: Bundle, i: nat)
    requires Accepts(b, i)
    ensures i < |Verdicts(b)| && i < |Ordered(b)| && Quotes(b, Resolve(IdTable(Verdicts(b)), Verdicts(b)[i]), i)
  {
    hide Sort, SigningBytes, Decode, SignedAs, ReadsAs, Verdicts, HeadBefore, IdTable, HasId, LastWithId, Resolve, QuotesAt;
    ResolvedNames(b, i);
    var id := Ordered(b)[i].ref.value;
    if forall j: nat :: !HasId(b, j, id) {
      TargetUnknown(b, id);
    }
    forall j: nat | LastWithId(b, j, id)
      ensures j < |Ordered(b)| && Decode(b.sessionId, Ordered(b)[j]).Some?
      ensures QuotesAt(b, Resolve(IdTable(Verdicts(b)), Verdicts(b)[i]), j)
    {
      ResolvedTarget(b, i, j);
    }
  }

  lemma HasIdMeans(b: Bundle, j: nat, id: Text)
    requires j < |Ordered(b)| && id != []
    ensures HasId(b, j, id) <==> Decode(b.sessionId, Ordered(b)[j]).Some?
                                 && id == [Hex(SigningBytes(Decode(b.sessionId, Ordered(b)[j]).value))]
  {
  }

  lemma InRangeOnly(b: Bundle, id: Text)
    ensures forall j: nat :: HasId(b, j, id) ==> j < |Ordered(b)|
  {
    hide Decode, SigningBytes, Sort;
  }

  lemma LastIsLast(b: Bundle, j: nat, id: Text)
    requires LastWithId(b, j, id)
    ensures j < |Ordered(b)| && HasId(b, j, id) && Decode(b.sessionId, Ordered(b)[j]).Some?
    ensures forall k: nat :: j < k < |Ordered(b)| ==> !HasId(b, k, id)
  {
    hide Sort, SigningBytes, Decode;
  }

  /** The agreements are those of the acceptances, which stand at these places, in order. */
  ghost predicate Placed(byId: map<Text, Verdict>, verdicts: seq<Verdict>, agreements: seq<Agreement>, at: seq<nat>) {
    && |at| == |agreements|
    && (forall n, m :: 0 <= n < m < |at| ==> at[n] < at[m])
    && (forall i: nat :: i in at <==> i < |verdicts| && IsAcceptance(verdicts[i]))
    && (forall n :: 0 <= n < |at| ==> at[n] < |verdicts| && agreements[n] == Resolve(byId, verdicts[at[n]]))
  }

  lemma {:induction false} AgreementsAppend(byId: map<Text, Verdict>, verdicts: seq<Verdict>, v: Verdict)
    ensures Agreements(byId, verdicts + [v]) ==
            Agreements(byId, verdicts) + if IsAcceptance(v) then [Resolve(byId, v)] else []
  {
    hide IsAcceptance, Resolve;
    if verdicts == [] {
      assert verdicts + [v] == [v] && [v][1..] == [];
    } else {
      AgreementsAppend(byId, verdicts[1..], v);
      assert (verdicts + [v])[1..] == verdicts[1..] + [v];
    }
  }

  lemma PlacedOneMore(byId: map<Text, Verdict>, verdicts: seq<Verdict>, agreements: seq<Agreement>, at: seq<nat>, v: Verdict)
    requires Placed(byId, verdicts, agreements, at)
    ensures !IsAcceptance(v) ==> Placed(byId, verdicts + [v], agreements, at)
    ensures IsAcceptance(v) ==> Placed(byId, verdicts + [v], agreements + [Resolve(byId, v)], at + [|verdicts|])
  {
    hide IsAcceptance, Resolve;
    var all := verdicts + [v];
    assert forall i :: 0 <= i < |verdicts| ==> all[i] == verdicts[i];
    forall n | 0 <= n < |at| ensures at[n] < |verdicts| {
      assert at[n] in at;
    }
  }

  lemma {:induction false} AgreementPlaces(byId: map<Text, Verdict>, verdicts: seq<Verdict>) returns (at: seq<nat>)
    ensures Placed(byId, verdicts, Agreements(byId, verdicts), at)
  {
    hide IsAcceptance, Resolve, Placed;
    if verdicts == [] {
      at := [];
      PlacedNowhere(byId);
    } else {
      var n := |verdicts| - 1;
      at := AgreementPlaces(byId, verdicts[..n]);
      assert verdicts == verdicts[..n] + [verdicts[n]];
      AgreementsAppend(byId, verdicts[..n], verdicts[n]);
      PlacedOneMore(byId, verdicts[..n], Agreements(byId, verdicts[..n]), at, verdicts[n]);
      if IsAcceptance(verdicts[n]) {
        at := at + [n];
      } else {
        assert Agreements(byId, verdicts) == Agreements(byId, verdicts[..n]);
      }
    }
  }

  lemma PlacedNowhere(byId: map<Text, Verdict>)
    ensures Placed(byId, [], [], [])
  {
    hide Resolve;
  }

  /**
   * The agreements of an arbitrary bundle: one for each acceptance, in the order of the messages, and nothing else; each
   * quotes the message its acceptance refers to.
   */
  lemma AgreementsAre(b: Bundle) returns (at: seq<nat>)
    ensures |at| == |Expected(b).agreements|
    ensures forall n, m :: 0 <= n < m < |at| ==> at[n] < at[m]
    ensures forall i: nat :: i in at <==> Accepts(b, i)
    ensures forall n :: 0 <= n < |at| ==> at[n] < |Ordered(b)| && Quotes(b, Expected(b).agreements[n], at[n])
  {
    hide Accepts, Quotes, Expected, Agreements, IdTable, Verdicts, IsAcceptance, Resolve, Sort;
    VerdictsExpected(b);
    at := AgreementPlaces(IdTable(Verdicts(b)), Verdicts(b));
    forall i: nat ensures i in at <==> Accepts(b, i) {
      if i < |b.messages| {
        AcceptanceMeans(b, i);
      }
      AcceptsInRange(b, i);
    }
    forall n | 0 <= n < |at| ensures at[n] < |Ordered(b)| && Quotes(b, Expected(b).agreements[n], at[n]) {
      assert at[n] in at;
      ResolvedQuotes(b, at[n]);
    }
  }

  lemma AcceptsInRange(b: Bundle, i: nat)
    ensures Accepts(b, i) ==> i < |Ordered(b)|
  {
    hide Decode, SignedAs, Sort, HeadBefore;
  }

  /** Someone is reported to have agreed to a message exactly if they signed an acceptance of it, in its place in the chain. */
  lemma AgreedMeansAccepted(b: Bundle, f: string, id: Text)
    ensures (exists a <- Expected(b).agreements :: a.accepter == f && a.acceptsId == id) <==>
            exists i: nat :: Accepts(b, i) && Ordered(b)[i].senderId == f && Ordered(b)[i].ref == Some(id)
  {
    hide Accepts, Expected, Sort;
    AcceptsBounds(b);
    var at := AgreementsAre(b);
    QuotesNames(b, at);
    if a :| a in Expected(b).agreements && a.accepter == f && a.acceptsId == id {
      var n :| 0 <= n < |at| && Expected(b).agreements[n] == a;
      assert at[n] in at;
    }
    if i: nat :| Accepts(b, i) && Ordered(b)[i].senderId == f && Ordered(b)[i].ref == Some(id) {
      var n :| 0 <= n < |at| && at[n] == i;
      assert Expected(b).agreements[n] in Expected(b).agreements;
    }
  }

  lemma AcceptsBounds(b: Bundle)
    ensures forall i: nat :: Accepts(b, i) ==> i < |Ordered(b)|
  {
    hide Decode, SignedAs, Sort, HeadBefore;
  }

  lemma QuotesNames(b: Bundle, at: seq<nat>)
    requires |at| == |Expected(b).agreements|
    requires forall n :: 0 <= n < |at| ==> at[n] < |Ordered(b)| && Quotes(b, Expected(b).agreements[n], at[n])
    ensures forall n :: 0 <= n < |at| ==>
              var a, e := Expected(b).agreements[n], Ordered(b)[at[n]];
              a.accepter == e.senderId && Some(a.acceptsId) == e.ref
  {
    hide Expected, Sort, HasId, LastWithId, SignedAs, ReadsAs, Decode;
  }
}
