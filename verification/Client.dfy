/** The key-holding client as a value: how each relay answer changes it, and what it sends next. */
module Client {
  import opened Prelude
  import opened Decimals
  import opened Sorting
  import opened Crypto
  import opened Message
  import opened SessionSpec
  import T = Transcript

  datatype Role = NoRole | Creator | Joiner

  datatype LogEntry = LogEntry(
    seqNo: int,
    senderId: string,
    messageType: string,
    verified: bool,
    chainOk: bool,
    body: string,
    id: Text,
    wire: Entry)

  datatype Received = Received(
    seqNo: int,
    id: Text,
    senderId: string,
    messageType: string,
    body: string,
    ref: Option<Text>,
    verified: bool)

  datatype Client = Client(
    identity: PublicKey,
    agreement: PublicKey,
    sessionId: string,
    role: Role,
    creatorFingerprint: string,
    epoch: int,
    groupKey: Option<Bytes>,
    groupKeys: JsMap<int, Bytes>,
    establishedEpoch: int,
    head: Option<Bytes>,
    fetchedSeq: int,
    inboxSeq: int,
    log: seq<LogEntry>,
    membersById: JsMap<string, MemberInput>)
  {
    function MemberId(): string { Fingerprint(identity) }

    function Self(): MemberInput { MemberInput(MemberId(), identity, agreement) }
  }

  function NewClient(identity: PublicKey, agreement: PublicKey): Client {
    Client(identity, agreement, "", NoRole, "", 0, None, [], -1, None, 0, 0, [], [])
  }

  function CacheAll(table: JsMap<string, MemberInput>, members: seq<Member>): JsMap<string, MemberInput> {
    if members == [] then table
    else
      var m := members[|members| - 1].input;
      Set(CacheAll(table, members[..|members| - 1]), m.fingerprint, m)
  }

  // ---- Creating and joining ----

  function Created(c: Client, sessionId: string): Client {
    c.(sessionId := sessionId, role := Creator, creatorFingerprint := c.MemberId(),
       membersById := Set(c.membersById, c.MemberId(), c.Self()))
  }

  function FindMember(members: seq<Member>, fingerprint: string): Option<Member> {
    if members == [] then None
    else if members[0].input.fingerprint == fingerprint then Some(members[0])
    else FindMember(members[1..], fingerprint)
  }

  /** The invite pins the creator; a reply without a matching creator key is refused. `None` stands for an error. */
  function Joined(c: Client, sessionId: string, creator: string, reply: Option<(seq<Member>, int)>): Client {
    var pinned := c.(sessionId := sessionId, role := Joiner, creatorFingerprint := creator);
    match reply
    case None => pinned
    case Some((members, epoch)) =>
      var found := FindMember(members, creator);
      if found.Some? && Fingerprint(found.value.input.identityPub) == creator
      then pinned.(epoch := epoch, membersById := CacheAll(c.membersById, members))
      else pinned.(epoch := epoch)
  }

  // ---- Converging on the epoch key ----

  function Commitment(key: Bytes): Text { HexOf(Sha256([key])) }

  function KeyDistribution(sessionId: string, epoch: int, commitment: Text): Bytes {
    Sha256([Utf8(Lift("randevu/groupkey/v1|" + sessionId + "|" + IntText(epoch) + "|") + commitment)])
  }

  function SignGroupKey(sessionId: string, epoch: int, key: Bytes, privateKey: PublicKey): (Text, HexField) {
    (Commitment(key), HexField(Sign(KeyDistribution(sessionId, epoch, Commitment(key)), privateKey)))
  }

  predicate VerifyGroupKey(sessionId: string, epoch: int, key: Bytes, commitment: Text, signature: HexField, holder: PublicKey) {
    && Commitment(key) == commitment
    && signature.HexField?
    && Verify(signature.bytes, KeyDistribution(sessionId, epoch, commitment), holder)
  }

  function WrapFor(m: Member, key: Bytes): Wrap {
    Wrap(m.input.fingerprint, HexField(Seal(m.input.kxPub, key)))
  }

  function WrapAll(members: seq<Member>, key: Bytes): (wraps: seq<Wrap>)
    ensures |wraps| == |members|
    ensures forall i :: 0 <= i < |wraps| ==> wraps[i] == WrapFor(members[i], key)
  {
    seq(|members|, i requires 0 <= i < |members| => WrapFor(members[i], key))
  }

  /** What `ensureKeys` asks the relay for after seeing the status. */
  datatype KeyStep =
    | Settled
    | PostNewKey(epoch: int, key: Bytes, wraps: seq<Wrap>)
    | FetchKey(epoch: int, creatorId: string)

  /** `newKey` is the random key the creator would generate. */
  function OnStatus(c: Client, status: StatusReply, newKey: Bytes): (Client, KeyStep) {
    var cached := c.(membersById := CacheAll(c.membersById, status.members));
    if c.role == Creator then
      if c.groupKey.None? || status.meta.epoch != c.establishedEpoch
      then (cached.(epoch := status.meta.epoch), PostNewKey(status.meta.epoch, newKey, WrapAll(status.members, newKey)))
      else (cached, Settled)
    else if c.groupKey.None? || status.meta.epoch != c.epoch
    then (cached, FetchKey(status.meta.epoch, status.meta.creatorId))
    else (cached, Settled)
  }

  function OnKeysPosted(c: Client, epoch: int, key: Bytes): Client {
    c.(groupKey := Some(key), groupKeys := Set(c.groupKeys, epoch, key), establishedEpoch := epoch)
  }

  /** The key-holder must be the one pinned from the invite. */
  function ResolveHolder(c: Client, creatorId: string): Option<MemberInput> {
    if c.creatorFingerprint != "" && creatorId != c.creatorFingerprint then None else Get(c.membersById, creatorId)
  }

  /** An unwrapped key is taken only if the holder signed it for this epoch; a wrong one is an error. */
  function OnKey(c: Client, epoch: int, creatorId: string, reply: Result<WrappedKey, SessionError>): Result<Client, ()> {
    match reply
    case Err(e) => if e.status == 404 then Ok(c) else Err(())
    case Ok(entry) =>
      if entry.wrappedKey.NotHex? then Err(())
      else
        var unwrapped := Open(entry.wrappedKey.bytes, c.agreement);
        var holder := ResolveHolder(c, creatorId);
        if unwrapped.None? || holder.None? then Err(())
        else if !VerifyGroupKey(c.sessionId, epoch, unwrapped.value, entry.commitment, entry.signature, holder.value.identityPub)
        then Err(())
        else Ok(c.(groupKey := unwrapped, groupKeys := Set(c.groupKeys, epoch, unwrapped.value), epoch := epoch))
  }

  // ---- Folding the relay log ----

  /** Does folding this message throw on malformed hex? */
  predicate Foldable(c: Client, m: Entry) {
    Decode(c.sessionId, m).Some? && (Get(c.membersById, m.senderId).Some? ==> m.signature.HexField?)
  }

  function BodyOf(c: Client, m: Entry, env: Envelope, verified: bool): string {
    var key := Get(c.groupKeys, m.epoch);
    if verified && m.senderId != c.MemberId() && key.Some? then
      match Decrypt(key.value, env.nonce, AssociatedData(c.sessionId, m.epoch, m.senderId), env.ciphertext)
      case Some(body) => body
      case None => ""
    else ""
  }

  function Entered(c: Client, m: Entry): LogEntry
    requires Foldable(c, m)
  {
    var env := Decode(c.sessionId, m).value;
    var sender := Get(c.membersById, m.senderId);
    var chainOk := env.prevHash == c.head;
    var verified := sender.Some? && VerifyMessage(env, m.signature.bytes, sender.value.identityPub) && chainOk;
    LogEntry(m.seqNo, m.senderId, m.messageType, verified, chainOk, BodyOf(c, m, env, verified), MessageId(env), m)
  }

  function FoldOne(c: Client, m: Entry): Client
    requires Foldable(c, m)
  {
    c.(head := Some(ChainHash(c.head, SigningBytes(Decode(c.sessionId, m).value))),
       log := c.log + [Entered(c, m)],
       fetchedSeq := if c.fetchedSeq < m.seqNo then m.seqNo else c.fetchedSeq)
  }

  /** The client after `pull` folded the messages, and whether it got through all of them. */
  function Pull(c: Client, messages: seq<Entry>): (Client, bool) {
    if messages == [] then (c, true)
    else
      var (before, ok) := Pull(c, messages[..|messages| - 1]);
      var m := messages[|messages| - 1];
      if ok && Foldable(before, m) then (FoldOne(before, m), true) else (before, false)
  }

  // ---- Sending and delivering ----

  function Compose(c: Client, body: string, messageType: string, ref: Option<Text>, nonce: Bytes): Entry
    requires c.groupKey.Some?
  {
    var ciphertext := Encrypt(c.groupKey.value, nonce, AssociatedData(c.sessionId, c.epoch, c.MemberId()), body);
    var env := Envelope(c.sessionId, c.epoch, c.MemberId(), messageType, c.head, ref, nonce, ciphertext);
    Entry(0, c.epoch, c.MemberId(), messageType, HexField(nonce), HexField(ciphertext),
          if c.head.Some? then Some(HexField(c.head.value)) else None, ref, HexField(SignMessage(env, c.identity)))
  }

  function Delivered(e: LogEntry): Received {
    Received(e.seqNo, e.id, e.senderId, e.messageType, e.body, e.wire.ref, e.verified)
  }

  /** The deliveries of a stretch of log: everyone's messages but one's own. */
  function Inbox(log: seq<LogEntry>, me: string): seq<Received> {
    if log == [] then []
    else
      var e := log[|log| - 1];
      Inbox(log[..|log| - 1], me) + if e.senderId == me then [] else [Delivered(e)]
  }

  /** One pass of `receive` over the log: skip what is behind the cursor, advance it, skip one's own. */
  function Deliver(inboxSeq: int, log: seq<LogEntry>, me: string): (int, seq<Received>) {
    if log == [] then (inboxSeq, [])
    else
      var e := log[|log| - 1];
      var (cursor, out) := Deliver(inboxSeq, log[..|log| - 1], me);
      if e.seqNo <= cursor then (cursor, out)
      else (e.seqNo, out + if e.senderId == me then [] else [Delivered(e)])
  }

  // ---- Exporting ----

  function ExportMember(m: MemberInput): T.Member {
    T.Member(m.fingerprint, DidKey(m.identityPub), Some(m.identityPub))
  }

  function ExportMembers(table: JsMap<string, MemberInput>): (r: seq<T.Member>)
    ensures |r| == |table|
    ensures forall i :: 0 <= i < |r| ==> r[i] == ExportMember(table[i].1)
  {
    seq(|table|, i requires 0 <= i < |table| => ExportMember(table[i].1))
  }

  function ExportKeys(table: JsMap<int, Bytes>): (r: seq<T.GroupKey>)
    ensures |r| == |table|
    ensures forall i :: 0 <= i < |r| ==> r[i] == T.GroupKey(table[i].0, HexField(table[i].1))
  {
    seq(|table|, i requires 0 <= i < |table| => T.GroupKey(table[i].0, HexField(table[i].1)))
  }

  predicate ByLogSeq(a: LogEntry, b: LogEntry) { a.seqNo <= b.seqNo }

  function Wires(log: seq<LogEntry>): (r: seq<Entry>)
    ensures |r| == |log|
    ensures forall i :: 0 <= i < |r| ==> r[i] == log[i].wire
  {
    seq(|log|, i requires 0 <= i < |log| => log[i].wire)
  }

  function Export(c: Client): T.Bundle {
    var headHash := if c.head.Some? then HexOf(c.head.value) else [];
    T.Bundle(c.sessionId, ExportMembers(c.membersById), ExportKeys(c.groupKeys), Wires(Sort(ByLogSeq, c.log)),
             Some(T.SignHead(c.sessionId, c.fetchedSeq, headHash, c.MemberId(), c.identity)))
  }
}
