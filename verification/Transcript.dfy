/** Offline verification of an exported transcript bundle. The bundle is arbitrary, hostile input included. */
module Transcript {
  import opened Prelude
  import opened Decimals
  import opened Sequences
  import opened Sorting
  import opened Crypto
  import opened Message

  datatype Member = Member(fingerprint: string, did: string, identityPub: Option<PublicKey>)

  datatype GroupKey = GroupKey(epoch: int, key: HexField)

  datatype Head = Head(lastSeq: int, headHash: Text, signer: string, signature: HexField)

  datatype Bundle = Bundle(
    sessionId: string,
    members: seq<Member>,
    groupKeys: seq<GroupKey>,
    messages: seq<Entry>,
    head: Option<Head>)

  datatype Verdict = Verdict(
    seqNo: int,
    id: Text,
    senderId: string,
    messageType: string,
    ref: Option<Text>,
    body: Option<string>,
    signatureValid: bool,
    chainValid: bool)

  datatype Agreement = Agreement(
    accepter: string,
    acceptsId: Text,
    acceptedSenderId: Option<string>,
    acceptedBody: Option<string>)

  datatype Verification = Verification(
    valid: bool,
    membersValid: bool,
    messages: seq<Verdict>,
    agreements: seq<Agreement>,
    headValid: Option<bool>)

  function HeadCanonical(sessionId: string, lastSeq: int, headHash: Text): Text {
    Lift("randevu/transcript-head/v1|" + sessionId + "|" + IntText(lastSeq) + "|") + headHash
  }

  function SignHead(sessionId: string, lastSeq: int, headHash: Text, signer: string, privateKey: PublicKey): Head {
    Head(lastSeq, headHash, signer,
         HexField(Sign(Utf8(HeadCanonical(sessionId, lastSeq, headHash)), privateKey)))
  }

  // ---- Decoding and the lookup tables ----

  function Ordered(b: Bundle): seq<Entry> { Sort(BySeq, b.messages) }

  predicate MemberValid(m: Member) {
    m.identityPub.Some? && m.fingerprint == Fingerprint(m.identityPub.value) && m.did == DidKey(m.identityPub.value)
  }

  predicate MembersValid(b: Bundle) {
    b.members != [] && forall m <- b.members :: MemberValid(m)
  }

  /** Fingerprint to public key; a later member with the same fingerprint overwrites an earlier one. */
  function KeyTable(members: seq<Member>): map<string, PublicKey> {
    if members == [] then map[]
    else
      var m := members[|members| - 1];
      var table := KeyTable(members[..|members| - 1]);
      if m.identityPub.Some? then table[m.fingerprint := m.identityPub.value] else table
  }

  function EpochTable(keys: seq<GroupKey>): map<int, Bytes> {
    if keys == [] then map[]
    else
      var g := keys[|keys| - 1];
      var table := EpochTable(keys[..|keys| - 1]);
      if g.key.HexField? then table[g.epoch := g.key.bytes] else table
  }

  // ---- The verdict on one message ----

  /** Signing bytes of the entries that decode, in order: what the chain is folded over. */
  function Signed(sessionId: string, entries: seq<Entry>): (s: seq<Bytes>)
    ensures |s| <= |entries|
  {
    if entries == [] then []
    else
      var env := Decode(sessionId, entries[|entries| - 1]);
      Signed(sessionId, entries[..|entries| - 1]) + if env.Some? then [SigningBytes(env.value)] else []
  }

  function Undecodable(e: Entry): Verdict {
    Verdict(e.seqNo, [], e.senderId, e.messageType, e.ref, None, false, false)
  }

  function SignatureOk(keys: map<string, PublicKey>, e: Entry, env: Envelope): bool {
    e.senderId in keys && e.signature.HexField? && VerifyMessage(env, e.signature.bytes, keys[e.senderId])
  }

  function Opened(epochs: map<int, Bytes>, sessionId: string, e: Entry, env: Envelope): Option<string> {
    if e.epoch in epochs
    then Decrypt(epochs[e.epoch], env.nonce, AssociatedData(sessionId, e.epoch, e.senderId), env.ciphertext)
    else None
  }

  /** The verdict on an entry when the chain stood at `head` before it. */
  function Judge(keys: map<string, PublicKey>, epochs: map<int, Bytes>, sessionId: string, head: Option<Bytes>, e: Entry): Verdict {
    match Decode(sessionId, e)
    case None => Undecodable(e)
    case Some(env) =>
      var signatureValid := SignatureOk(keys, e, env);
      Verdict(e.seqNo, MessageId(env), e.senderId, e.messageType, e.ref,
              if signatureValid then Opened(epochs, sessionId, e, env) else None,
              signatureValid, env.prevHash == head)
  }

  function VerdictAt(b: Bundle, i: nat): Verdict
    requires i < |Ordered(b)|
  {
    Judge(KeyTable(b.members), EpochTable(b.groupKeys), b.sessionId,
          Fold(Signed(b.sessionId, Ordered(b)[..i])), Ordered(b)[i])
  }

  function Verdicts(b: Bundle): (v: seq<Verdict>)
    ensures |v| == |b.messages|
    ensures forall i :: 0 <= i < |v| ==> v[i] == VerdictAt(b, i)
  {
    seq(|Ordered(b)|, i requires 0 <= i < |Ordered(b)| => VerdictAt(b, i))
  }

  predicate Sound(v: Verdict) { v.signatureValid && v.chainValid && v.body.Some? }

  // ---- Agreements ----

  /** Content id to verdict; a later message with the same id overwrites an earlier one. */
  function IdTable(verdicts: seq<Verdict>): map<Text, Verdict> {
    if verdicts == [] then map[]
    else
      var v := verdicts[|verdicts| - 1];
      var table := IdTable(verdicts[..|verdicts| - 1]);
      if v.id == [] then table else table[v.id := v]
  }

  predicate IsAcceptance(v: Verdict) {
    v.messageType == "accept" && RefText(v.ref) != [] && v.signatureValid && v.chainValid
  }

  function Resolve(byId: map<Text, Verdict>, v: Verdict): Agreement {
    var target := RefText(v.ref);
    if target in byId
    then Agreement(v.senderId, target, Some(byId[target].senderId), byId[target].body)
    else Agreement(v.senderId, target, None, None)
  }

  function Agreements(byId: map<Text, Verdict>, verdicts: seq<Verdict>): (a: seq<Agreement>)
    ensures forall x <- a :: exists v <- verdicts :: IsAcceptance(v) && x == Resolve(byId, v)
    ensures forall v <- verdicts :: IsAcceptance(v) ==> Resolve(byId, v) in a
  {
    if verdicts == [] then []
    else
      assert forall v <- verdicts :: v == verdicts[0] || v in verdicts[1..];
      (if IsAcceptance(verdicts[0]) then [Resolve(byId, verdicts[0])] else []) + Agreements(byId, verdicts[1..])
  }

  // ---- The whole verdict ----

  function HeadText(head: Option<Bytes>): Text {
    if head.Some? then HexOf(head.value) else []
  }

  function LastSeq(ordered: seq<Entry>): int {
    if ordered == [] then 0 else ordered[|ordered| - 1].seqNo
  }

  predicate HeadMatches(b: Bundle, h: Head) {
    && var keys := KeyTable(b.members);
    && h.signer in keys
    && h.signature.HexField?
    && Verify(h.signature.bytes, Utf8(HeadCanonical(b.sessionId, h.lastSeq, h.headHash)), keys[h.signer])
    && h.headHash == HeadText(Fold(Signed(b.sessionId, Ordered(b))))
    && h.lastSeq == LastSeq(Ordered(b))
  }

  /** Every check passes: members, each message's signature, link and decryption, and the head if present. */
  predicate Valid(b: Bundle) {
    && MembersValid(b)
    && (forall v <- Verdicts(b) :: Sound(v))
    && (b.head.Some? ==> HeadMatches(b, b.head.value))
  }

  function Expected(b: Bundle): Verification {
    Verification(Valid(b), MembersValid(b), Verdicts(b), Agreements(IdTable(Verdicts(b)), Verdicts(b)),
                 if b.head.Some? then Some(HeadMatches(b, b.head.value)) else None)
  }

  method ReadMembers(members: seq<Member>) returns (keys: map<string, PublicKey>, membersValid: bool)
    ensures keys == KeyTable(members)
    ensures membersValid <==> members != [] && forall m <- members :: MemberValid(m)
  {
    keys := map[];
    membersValid := |members| > 0;
    for i := 0 to |members|
      invariant keys == KeyTable(members[..i])
      invariant membersValid <==> members != [] && forall m <- members[..i] :: MemberValid(m)
    {
      var m := members[i];
      assert members[..i + 1] == members[..i] + [m];
      assert m in members[..i + 1];
      if m.identityPub.Some? {
        keys := keys[m.fingerprint := m.identityPub.value];
        if Fingerprint(m.identityPub.value) != m.fingerprint || DidKey(m.identityPub.value) != m.did {
          membersValid := false;
        }
      } else {
        membersValid := false;
      }
    }
    assert members[..|members|] == members;
  }

  method ReadGroupKeys(groupKeys: seq<GroupKey>) returns (epochs: map<int, Bytes>)
    ensures epochs == EpochTable(groupKeys)
  {
    epochs := map[];
    for i := 0 to |groupKeys|
      invariant epochs == EpochTable(groupKeys[..i])
    {
      var g := groupKeys[i];
      assert groupKeys[..i + 1] == groupKeys[..i] + [g];
      if g.key.HexField? {
        epochs := epochs[g.epoch := g.key.bytes];
      }
    }
    assert groupKeys[..|groupKeys|] == groupKeys;
  }

  lemma SignedStep(sessionId: string, entries: seq<Entry>, i: nat)
    requires i < |entries|
    ensures
      var before, after := Signed(sessionId, entries[..i]), Signed(sessionId, entries[..i + 1]);
      match Decode(sessionId, entries[i])
      case None => after == before
      case Some(env) =>
        after == before + [SigningBytes(env)] && Fold(after) == Some(ChainHash(Fold(before), SigningBytes(env)))
  {
    assert entries[..i + 1][..i] == entries[..i];
    var before, after := Signed(sessionId, entries[..i]), Signed(sessionId, entries[..i + 1]);
    if |after| > |before| {
      assert after[..|after| - 1] == before;
    }
  }

  /** What the verifier's loop carries from one message to the next. */
  datatype Progress = Progress(messages: seq<Verdict>, byId: map<Text, Verdict>, head: Option<Bytes>, allSound: bool)

  function Advance(p: Progress, v: Verdict, head: Option<Bytes>): Progress {
    Progress(p.messages + [v], if v.id == [] then p.byId else p.byId[v.id := v], head, p.allSound && Sound(v))
  }

  ghost predicate UpTo(b: Bundle, i: nat, p: Progress)
    requires i <= |Ordered(b)|
  {
    && p.messages == Verdicts(b)[..i]
    && p.byId == IdTable(p.messages)
    && p.head == Fold(Signed(b.sessionId, Ordered(b)[..i]))
    && (p.allSound <==> forall k :: 0 <= k < i ==> Sound(Verdicts(b)[k]))
  }

  lemma StartOfLoop(b: Bundle)
    ensures UpTo(b, 0, Progress([], map[], None, true))
  {
    hide Judge, KeyTable, EpochTable, Decode, SigningBytes, Ordered;
  }

  lemma AdvanceStep(b: Bundle, i: nat, p: Progress, v: Verdict, head: Option<Bytes>)
    requires i < |Ordered(b)| && UpTo(b, i, p)
    requires v == Judge(KeyTable(b.members), EpochTable(b.groupKeys), b.sessionId, p.head, Ordered(b)[i])
    requires head == match Decode(b.sessionId, Ordered(b)[i])
                     case None => p.head
                     case Some(env) => Some(ChainHash(p.head, SigningBytes(env)))
    ensures UpTo(b, i + 1, Advance(p, v, head))
  {
    hide Judge, KeyTable, EpochTable, Decode, SigningBytes, ChainHash, Ordered, Signed, Fold, Sound;
    assert v == VerdictAt(b, i) == Verdicts(b)[i];
    SignedStep(b.sessionId, Ordered(b), i);
    PrefixStep(Verdicts(b), i);
  }

  /** The verifier's loop body: judge one entry and advance the chain. */
  method CheckEntry(keys: map<string, PublicKey>, epochs: map<int, Bytes>, sessionId: string, head: Option<Bytes>, m: Entry)
    returns (v: Verdict, next: Option<Bytes>)
    ensures v == Judge(keys, epochs, sessionId, head, m)
    ensures next == match Decode(sessionId, m)
                    case None => head
                    case Some(env) => Some(ChainHash(head, SigningBytes(env)))
    ensures v.id == [] <==> Decode(sessionId, m).None?
  {
    var decoded := Decode(sessionId, m);
    if decoded.None? {
      return Undecodable(m), head;
    }
    var env := decoded.value;
    var signingBytes := SigningBytes(env);
    var signatureValid := m.senderId in keys && m.signature.HexField?
                          && VerifyMessage(env, m.signature.bytes, keys[m.senderId]);
    var chainValid := env.prevHash == head;
    next := Some(ChainHash(head, signingBytes));
    var body: Option<string> := None;
    if signatureValid && m.epoch in epochs {
      body := Decrypt(epochs[m.epoch], env.nonce, AssociatedData(sessionId, m.epoch, m.senderId), env.ciphertext);
    }
    v := Verdict(m.seqNo, HexOf(signingBytes), m.senderId, m.messageType, m.ref, body, signatureValid, chainValid);
  }

  method CheckHead(b: Bundle, keys: map<string, PublicKey>, head: Option<Bytes>, ordered: seq<Entry>)
    returns (headValid: Option<bool>)
    requires keys == KeyTable(b.members) && ordered == Ordered(b)
    requires head == Fold(Signed(b.sessionId, ordered))
    ensures headValid == if b.head.Some? then Some(HeadMatches(b, b.head.value)) else None
  {
    hide Signed, Fold, KeyTable, Ordered, HeadCanonical;
    if b.head.None? {
      return None;
    }
    var h := b.head.value;
    var computedHead := if head.Some? then HexOf(head.value) else [];
    var lastSeq := if |ordered| > 0 then ordered[|ordered| - 1].seqNo else 0;
    var sigOk := h.signer in keys && h.signature.HexField?
                 && Verify(h.signature.bytes, Utf8(HeadCanonical(b.sessionId, h.lastSeq, h.headHash)), keys[h.signer]);
    headValid := Some(sigOk && h.headHash == computedHead && h.lastSeq == lastSeq);
  }

  /** The loop over the ordered messages, folding the chain and filling the id table as it goes. */
  method CheckEntries(b: Bundle, keys: map<string, PublicKey>, epochs: map<int, Bytes>, ordered: seq<Entry>)
    returns (p: Progress)
    requires keys == KeyTable(b.members) && epochs == EpochTable(b.groupKeys) && ordered == Ordered(b)
    ensures UpTo(b, |ordered|, p)
  {
    hide UpTo, Judge, KeyTable, EpochTable, Decode, SigningBytes, ChainHash, Ordered, Signed, Fold;
    p := Progress([], map[], None, true);
    StartOfLoop(b);
    for i := 0 to |ordered|
      invariant UpTo(b, i, p)
    {
      var v, next := CheckEntry(keys, epochs, b.sessionId, p.head, ordered[i]);
      AdvanceStep(b, i, p, v, next);
      var sound := v.signatureValid && v.chainValid && v.body.Some?;
      p := Progress(p.messages + [v], if v.id == [] then p.byId else p.byId[v.id := v], next, p.allSound && sound);
    }
  }

  /** One pass over the messages yields exactly the declarative verdict. */
  method VerifyTranscript(bundle: Bundle) returns (r: Verification)
    ensures r == Expected(bundle)
  {
    hide Judge, KeyTable, EpochTable, Ordered, Signed, Fold, HeadMatches, MemberValid, Sound, Agreements;
    var keys, membersValid := ReadMembers(bundle.members);
    var epochs := ReadGroupKeys(bundle.groupKeys);
    var ordered := Ordered(bundle);
    var p := CheckEntries(bundle, keys, epochs, ordered);
    assert ordered[..|ordered|] == ordered && p.messages == Verdicts(bundle);
    var headValid := CheckHead(bundle, keys, p.head, ordered);
    var valid := membersValid && p.allSound && headValid != Some(false);
    r := Verification(valid, membersValid, p.messages, Agreements(p.byId, p.messages), headValid);
  }
}
