/** Message envelopes: canonical signing bytes, content ids, the hash chain, encryption. */
module Message {
  import opened Prelude
  import opened Decimals
  import opened Sequences
  import opened Crypto

  datatype Envelope = Envelope(
    sessionId: string,
    epoch: int,
    senderId: string,
    messageType: string,
    prevHash: Option<Bytes>,
    ref: Option<Text>,
    nonce: Bytes,
    ciphertext: Bytes)

  /** A message as it travels: hex fields undecoded, `seqNo` assigned by the relay and not signed. */
  datatype Entry = Entry(
    seqNo: int,
    epoch: int,
    senderId: string,
    messageType: string,
    nonce: HexField,
    ciphertext: HexField,
    prevHash: Option<HexField>,
    ref: Option<Text>,
    signature: HexField)

  predicate BySeq(a: Entry, b: Entry) { a.seqNo <= b.seqNo }

  /** Sequence numbers run from 1 without gaps. */
  ghost predicate Numbered(log: seq<Entry>) {
    forall i :: 0 <= i < |log| ==> log[i].seqNo == i + 1
  }

  const PIPE := Ch('|')

  function AssociatedData(sessionId: string, epoch: int, senderId: string): Text {
    Lift("randevu/v1|" + sessionId + "|" + IntText(epoch) + "|" + senderId)
  }

  /** `env.ref ?? ""`. */
  function RefText(ref: Option<Text>): Text {
    if ref.Some? then ref.value else []
  }

  function PrevText(prevHash: Option<Bytes>): Text {
    if prevHash.Some? then HexOf(prevHash.value) else []
  }

  function Context(env: Envelope): seq<Text> {
    [Lift("randevu/msg/v1"), Lift(env.sessionId), Lift(IntText(env.epoch)), Lift(env.senderId),
     Lift(env.messageType), RefText(env.ref)]
  }

  function Fields(env: Envelope): seq<Text> {
    Context(env) + [PrevText(env.prevHash)] + [HexOf(env.nonce)] + [HexOf(env.ciphertext)]
  }

  function Canonical(env: Envelope): Text { Join(Fields(env), PIPE) }

  function SigningBytes(env: Envelope): Bytes { Sha256([Utf8(Canonical(env))]) }

  /** Content id: the hex of the signing bytes. */
  function MessageId(env: Envelope): Text { HexOf(SigningBytes(env)) }

  function SignMessage(env: Envelope, privateKey: PublicKey): Bytes { Sign(SigningBytes(env), privateKey) }

  predicate VerifyMessage(env: Envelope, signature: Bytes, publicKey: PublicKey) {
    Verify(signature, SigningBytes(env), publicKey)
  }

  function ChainHash(prev: Option<Bytes>, signingBytes: Bytes): Bytes {
    match prev
    case None => Sha256([signingBytes])
    case Some(head) => Sha256([head, signingBytes])
  }

  /** The running transcript head after the given messages. */
  function Fold(messages: seq<Bytes>): (head: Option<Bytes>) {
    if messages == [] then None
    else Some(ChainHash(Fold(messages[..|messages| - 1]), messages[|messages| - 1]))
  }

  /** A head commits to the whole sequence folded into it. */
  lemma {:induction false} FoldInjective(a: seq<Bytes>, b: seq<Bytes>)
    requires Fold(a) == Fold(b)
    ensures a == b
  {
    if a != [] && b != [] {
      var i, j := |a| - 1, |b| - 1;
      assert Fold(a).value.parts == Fold(b).value.parts;
      assert Fold(a).value.parts[|Fold(a).value.parts| - 1] == a[i];
      assert Fold(b).value.parts[|Fold(b).value.parts| - 1] == b[j];
      assert Fold(a[..i]) == Fold(b[..j]) by {
        if Fold(a[..i]).Some? {
          assert Fold(a).value.parts[0] == Fold(a[..i]).value;
        }
      }
      FoldInjective(a[..i], b[..j]);
      assert a == a[..i] + [a[i]] && b == b[..j] + [b[j]];
    }
  }

  /** An empty `prevHash` string is falsy, so a decoded previous hash is never empty. */
  predicate WellFormed(env: Envelope) {
    env.prevHash != Some(Raw([]))
  }

  /** `m.prevHash ? hexToBytes(m.prevHash) : null`; the outer `None` is a throw. */
  function DecodePrev(field: Option<HexField>): Option<Option<Bytes>> {
    match field
    case None => Some(None)
    case Some(NotHex) => None
    case Some(HexField(bytes)) => if bytes == Raw([]) then Some(None) else Some(Some(bytes))
  }

  /** The signed envelope an entry spells, or `None` when some field is not hex. */
  function Decode(sessionId: string, e: Entry): (env: Option<Envelope>)
    ensures env.Some? ==> WellFormed(env.value)
  {
    match (DecodePrev(e.prevHash), e.nonce, e.ciphertext)
    case (Some(prev), HexField(nonce), HexField(ciphertext)) =>
      Some(Envelope(sessionId, e.epoch, e.senderId, e.messageType, prev, e.ref, nonce, ciphertext))
    case _ => None
  }

  /** What no separator inside a name can blur: the three trailing fields are hex. */
  lemma SigningBytesBindChain(a: Envelope, b: Envelope)
    requires WellFormed(a) && WellFormed(b)
    requires SigningBytes(a) == SigningBytes(b)
    ensures a.prevHash == b.prevHash && a.nonce == b.nonce && a.ciphertext == b.ciphertext
    ensures Join(Context(a), PIPE) == Join(Context(b), PIPE)
  {
    assert Canonical(a) == Canonical(b) by {
      assert SigningBytes(a).parts[0] == SigningBytes(b).parts[0];
    }
    var a1, b1 := Context(a) + [PrevText(a.prevHash)], Context(b) + [PrevText(b.prevHash)];
    var a2, b2 := a1 + [HexOf(a.nonce)], b1 + [HexOf(b.nonce)];
    JoinLast(a2, HexOf(a.ciphertext), PIPE);
    JoinLast(b2, HexOf(b.ciphertext), PIPE);
    CutLast(Join(a2, PIPE), HexOf(a.ciphertext), Join(b2, PIPE), HexOf(b.ciphertext), PIPE);
    JoinLast(a1, HexOf(a.nonce), PIPE);
    JoinLast(b1, HexOf(b.nonce), PIPE);
    CutLast(Join(a1, PIPE), HexOf(a.nonce), Join(b1, PIPE), HexOf(b.nonce), PIPE);
    JoinLast(Context(a), PrevText(a.prevHash), PIPE);
    JoinLast(Context(b), PrevText(b.prevHash), PIPE);
    CutLast(Join(Context(a), PIPE), PrevText(a.prevHash), Join(Context(b), PIPE), PrevText(b.prevHash), PIPE);
    HexOfInjective(a.ciphertext, b.ciphertext);
    HexOfInjective(a.nonce, b.nonce);
    if a.prevHash.Some? && b.prevHash.Some? {
      HexOfInjective(a.prevHash.value, b.prevHash.value);
    }
  }

  lemma HexOfInjective(a: Bytes, b: Bytes)
    requires HexOf(a) == HexOf(b)
    ensures a == b
  {
    if a != Raw([]) {
      assert HexOf(b)[0] == Hex(a);
    }
  }

  /** The names and the reference contain no field separator. */
  predicate NoPipes(env: Envelope) {
    '|' !in env.sessionId && '|' !in env.senderId && '|' !in env.messageType && PIPE !in RefText(env.ref)
  }

  /** Without separators in its names, an envelope can be read back from its signing bytes. */
  lemma SigningBytesUniquelyReadable(a: Envelope, b: Envelope)
    requires WellFormed(a) && WellFormed(b) && NoPipes(a) && NoPipes(b)
    ensures SigningBytes(a) == SigningBytes(b) <==> a.(ref := None) == b.(ref := None) && RefText(a.ref) == RefText(b.ref)
  {
    if SigningBytes(a) == SigningBytes(b) {
      SigningBytesBindChain(a, b);
      NamesHaveNoPipe(a);
      NamesHaveNoPipe(b);
      SplitUndoesJoin(Context(a), PIPE);
      SplitUndoesJoin(Context(b), PIPE);
      assert Context(a)[1] == Context(b)[1] && Context(a)[2] == Context(b)[2] && Context(a)[3] == Context(b)[3];
      assert Context(a)[4] == Context(b)[4] && Context(a)[5] == Context(b)[5];
      LiftInjective(a.sessionId, b.sessionId);
      LiftInjective(IntText(a.epoch), IntText(b.epoch));
      LiftInjective(a.senderId, b.senderId);
      LiftInjective(a.messageType, b.messageType);
      IntTextInjective(a.epoch, b.epoch);
    }
    if a.(ref := None) == b.(ref := None) && RefText(a.ref) == RefText(b.ref) {
      assert Context(a) == Context(b);
    }
  }

  lemma NamesHaveNoPipe(env: Envelope)
    requires NoPipes(env)
    ensures forall p <- Context(env) :: PIPE !in p
  {
    NumeralHasNoPipe(env.epoch);
    assert forall i :: 0 <= i < 6 ==> PIPE !in Context(env)[i];
  }

  lemma NumeralHasNoPipe(n: int)
    ensures '|' !in IntText(n)
  {
  }

  /** The associated data of a ciphertext fixes its session, epoch and sender. */
  lemma AssociatedDataBinds(sid: string, epoch: int, sender: string, sid': string, epoch': int, sender': string)
    requires sid == sid' || ('|' !in sid && '|' !in sid')
    requires AssociatedData(sid, epoch, sender) == AssociatedData(sid', epoch', sender')
    ensures sid == sid' && epoch == epoch' && sender == sender'
  {
    hide IntText;
    var rest, rest' := IntText(epoch) + ['|'] + sender, IntText(epoch') + ['|'] + sender';
    var whole, whole' := sid + ['|'] + rest, sid' + ['|'] + rest';
    AssociatedText(sid, epoch, sender);
    AssociatedText(sid', epoch', sender');
    LiftInjective("randevu/v1|" + whole, "randevu/v1|" + whole');
    assert whole == ("randevu/v1|" + whole)[11..] && whole' == ("randevu/v1|" + whole')[11..];
    if sid == sid' {
      assert rest == whole[|sid| + 1..] && rest' == whole'[|sid'| + 1..];
    } else {
      CutFirst(sid, rest, sid', rest', '|');
    }
    NumeralHasNoPipe(epoch);
    NumeralHasNoPipe(epoch');
    CutFirst(IntText(epoch), sender, IntText(epoch'), sender', '|');
    IntTextInjective(epoch, epoch');
  }

  lemma AssociatedText(sid: string, epoch: int, sender: string)
    ensures AssociatedData(sid, epoch, sender) == Lift("randevu/v1|" + (sid + ['|'] + (IntText(epoch) + ['|'] + sender)))
  {
    hide IntText, Lift;
    assert "randevu/v1|" + sid + "|" + IntText(epoch) + "|" + sender ==
           "randevu/v1|" + (sid + ['|'] + (IntText(epoch) + ['|'] + sender));
  }

  /** With a separator in a name two different envelopes share their signing bytes. */
  lemma SigningBytesCollide(sessionId: string, nonce: Bytes, ciphertext: Bytes)
    ensures
      var a := Envelope(sessionId, 0, "a", "b|c", None, None, nonce, ciphertext);
      var b := Envelope(sessionId, 0, "a|b", "c", None, None, nonce, ciphertext);
      a != b && SigningBytes(a) == SigningBytes(b)
  {
    var a := Envelope(sessionId, 0, "a", "b|c", None, None, nonce, ciphertext);
    var b := Envelope(sessionId, 0, "a|b", "c", None, None, nonce, ciphertext);
    var head := [Lift("randevu/msg/v1"), Lift(sessionId), Lift(IntText(0))];
    var tail := [[], [], HexOf(nonce), HexOf(ciphertext)];
    assert Fields(a) == head + [Lift("a"), Lift("b|c")] + tail;
    assert Fields(b) == head + [Lift("a|b"), Lift("c")] + tail;
    JoinPair(head, Lift("a"), Lift("b|c"), tail);
    JoinPair(head, Lift("a|b"), Lift("c"), tail);
    assert Lift("a") + [PIPE] + Lift("b|c") == Lift("a|b|c") == Lift("a|b") + [PIPE] + Lift("c");
  }

  lemma {:induction false} JoinPair(head: seq<Text>, x: Text, y: Text, tail: seq<Text>)
    ensures Join(head + [x, y] + tail, PIPE) == Join(head + [x + [PIPE] + y] + tail, PIPE)
  {
    var parts, merged := head + [x, y] + tail, head + [x + [PIPE] + y] + tail;
    if head == [] {
      assert parts[1..] == [y] + tail && merged[1..] == tail;
      assert ([y] + tail)[1..] == tail;
      assert tail == [] ==> [y] + tail == [y];
    } else {
      assert parts[1..] == head[1..] + [x, y] + tail && merged[1..] == head[1..] + [x + [PIPE] + y] + tail;
      JoinPair(head[1..], x, y, tail);
    }
  }
}
