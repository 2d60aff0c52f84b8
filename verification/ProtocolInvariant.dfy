/** The invariant of every run: what the relay holds, what each client knows, and how the two agree. */
module ProtocolInvariant {
  import opened Prelude
  import opened Decimals
  import opened Sequences
  import opened Crypto
  import opened Message
  import opened Client
  import opened Protocol
  import T = Transcript
  import S = SessionSpec

  /** What all clients' facts are stated against; `vault` and `known` are the creator's keys and member cache. */
  datatype Shared = Shared(
    kx: PublicKey -> PublicKey,
    s: S.State,
    joined: seq<PublicKey>,
    sent: seq<Sent>,
    vault: JsMap<int, Bytes>,
    known: JsMap<string, S.MemberInput>)
  {
    function Sid(): string { s.meta.sessionId }

    function SelfOf(k: PublicKey): S.MemberInput { S.MemberInput(Fingerprint(k), k, kx(k)) }

    function Links(): seq<Bytes> { T.Signed(Sid(), s.log) }
  }

  ghost predicate RelayOk(sh: Shared) {
    && S.Inv(sh.s)
    && |sh.joined| == sh.s.meta.epoch + 1
    && (forall i, j :: 0 <= i < j < |sh.joined| ==> sh.joined[i] != sh.joined[j])
    && (forall k <- sh.joined :: Fingerprint(k) in sh.s.members && sh.s.members[Fingerprint(k)].input == sh.SelfOf(k))
    && (forall f <- sh.s.members :: exists k <- sh.joined :: Fingerprint(k) == f)
    && sh.s.meta.creatorId == Fingerprint(sh.joined[0])
    && |sh.sent| == |sh.s.log|
  }

  /** A message as its sender made it: chained to the first `base` links, signed, sealed under the epoch key, and as asked. */
  ghost predicate MessageOk(sh: Shared, m: Entry, x: Sent) {
    && x.sender in sh.joined
    && m.senderId == Fingerprint(x.sender)
    && x.base <= |sh.Links()|
    && Decode(sh.Sid(), m).Some?
    && var env := Decode(sh.Sid(), m).value;
    && env.prevHash == Fold(sh.Links()[..x.base])
    && m.signature == HexField(SignMessage(env, x.sender))
    && Get(sh.vault, m.epoch).Some?
    && env.ciphertext == Encrypt(Get(sh.vault, m.epoch).value, env.nonce,
                                 AssociatedData(sh.Sid(), m.epoch, m.senderId), x.draft.body)
    && m.messageType == env.messageType == x.draft.messageType && m.ref == env.ref == x.draft.ref
    && m.nonce == HexField(env.nonce) && env.nonce == x.draft.nonce
    && Get(sh.known, m.senderId).Some?
  }

  ghost predicate LogOk(sh: Shared) {
    && |sh.sent| == |sh.s.log|
    && forall i :: 0 <= i < |sh.s.log| ==> MessageOk(sh, sh.s.log[i], sh.sent[i]) && sh.sent[i].base <= i
  }

  function KeyFor(sh: Shared, epoch: int, key: Bytes, k: PublicKey): S.WrappedKey
    requires sh.joined != []
  {
    var (commitment, signature) := SignGroupKey(sh.Sid(), epoch, key, sh.joined[0]);
    S.WrappedKey(HexField(Seal(sh.kx(k), key)), commitment, signature)
  }

  /** `k` was a member by epoch `e`: it is among the first `e + 1` to join. */
  ghost predicate MemberBy(sh: Shared, k: PublicKey, e: int) {
    exists i :: 0 <= i < |sh.joined| && i <= e && sh.joined[i] == k
  }

  ghost predicate KeyOk(sh: Shared, e: int, f: string)
    requires sh.joined != [] && (e, f) in sh.s.keys
  {
    exists k <- sh.joined ::
      && Fingerprint(k) == f && MemberBy(sh, k, e)
      && Get(sh.vault, e).Some? && sh.s.keys[(e, f)] == KeyFor(sh, e, Get(sh.vault, e).value, k)
      && Get(sh.known, f).Some?
  }

  /** The relay's wraps for an epoch go to exactly its members, each sealing the creator's one key for it. */
  ghost predicate KeysOk(sh: Shared)
    requires sh.joined != []
  {
    && (forall e, f :: (e, f) in sh.s.keys ==> KeyOk(sh, e, f))
    && (forall e :: Get(sh.vault, e).Some? ==>
          0 <= e <= sh.s.meta.epoch && forall k :: MemberBy(sh, k, e) ==> (e, Fingerprint(k)) in sh.s.keys)
  }

  ghost predicate CacheOk(sh: Shared, table: JsMap<string, S.MemberInput>) {
    Distinct(table) && forall e <- table :: exists k <- sh.joined :: e == (Fingerprint(k), sh.SelfOf(k))
  }

  /** A folded entry records the wire message at its place, and passes the chain check iff nothing overtook it. */
  ghost predicate EntryOk(sh: Shared, e: LogEntry, i: nat)
    requires i < |sh.s.log| && |sh.sent| == |sh.s.log| <= |sh.Links()|
  {
    var m := sh.s.log[i];
    && e.wire == m && e.seqNo == m.seqNo && e.senderId == m.senderId && e.messageType == m.messageType
    && e.id == HexOf(sh.Links()[i])
    && (e.chainOk <==> sh.sent[i].base == i)
    && (e.verified ==> e.chainOk)
    && (e.body == "" || e.body == sh.sent[i].draft.body)
  }

  ghost predicate FoldedOk(sh: Shared, c: Client)
    requires |sh.sent| == |sh.s.log| <= |sh.Links()|
  {
    && c.fetchedSeq == |c.log| <= |sh.s.log|
    && c.head == Fold(sh.Links()[..|c.log|])
    && forall i :: 0 <= i < |c.log| ==> EntryOk(sh, c.log[i], i)
  }

  ghost predicate VaultOk(sh: Shared, k: PublicKey, c: Client, posting: bool) {
    && Distinct(c.groupKeys)
    && (forall e :: Get(c.groupKeys, e).Some? ==>
          && Get(sh.vault, e) == Get(c.groupKeys, e)
          && MemberBy(sh, k, e) && Get(sh.known, Fingerprint(k)).Some?)
    && (c.groupKey.None? ==> forall e :: Get(c.groupKeys, e).None?)
    && (c.groupKey.Some? && !posting ==> Get(c.groupKeys, c.epoch) == c.groupKey)
  }

  ghost predicate CreatorOk(sh: Shared, c: Client, posting: bool) {
    && sh.vault == c.groupKeys && sh.known == c.membersById
    && (c.groupKey.None? ==> c.establishedEpoch == -1)
    && (c.groupKey.Some? ==> Get(c.groupKeys, c.establishedEpoch) == c.groupKey)
    && (c.groupKey.Some? && !posting ==> c.epoch == c.establishedEpoch)
    && (forall e :: Get(c.groupKeys, e).Some? ==> e <= c.establishedEpoch)
    && c.establishedEpoch <= sh.s.meta.epoch
  }

  ghost predicate WrapOk(sh: Shared, e: int, key: Bytes, w: S.Wrap) {
    exists k <- sh.joined :: MemberBy(sh, k, e) && w == S.Wrap(Fingerprint(k), HexField(Seal(sh.kx(k), key)))
  }

  ghost predicate WrapsOk(sh: Shared, e: int, key: Bytes, wraps: seq<S.Wrap>) {
    && (forall w <- wraps :: WrapOk(sh, e, key, w))
    && (forall k :: MemberBy(sh, k, e) ==> exists w <- wraps :: w.recipientId == Fingerprint(k))
    && (forall k :: MemberBy(sh, k, e) ==> Get(sh.known, Fingerprint(k)).Some?)
  }

  ghost predicate PhaseOk(sh: Shared, k: PublicKey, p: Proc)
    requires sh.joined != []
  {
    match p.phase
    case Idle => true
    case PostingKeys(call, e, key, wraps) =>
      && k == sh.joined[0] && p.client.establishedEpoch < e <= sh.s.meta.epoch
      && p.client.epoch == e && WrapsOk(sh, e, key, wraps)
    case FetchingKey(call, e, creatorId) =>
      k != sh.joined[0] && creatorId == sh.s.meta.creatorId && e <= sh.s.meta.epoch
    case Pulling(call) => call.SendCall? ==> p.client.groupKey.Some?
    case Posting(message, draft, base) => MessageOk(sh, message, Sent(k, draft, base))
  }

  ghost predicate IdentityOk(sh: Shared, k: PublicKey, c: Client)
    requires sh.joined != []
  {
    && c.identity == k && c.agreement == sh.kx(k) && c.sessionId == sh.Sid()
    && c.creatorFingerprint == Fingerprint(sh.joined[0])
    && c.role == (if k == sh.joined[0] then Creator else Joiner)
  }

  /** The member cache holds joined members under their own keys, the client itself and the creator included. */
  ghost predicate TableOk(sh: Shared, k: PublicKey, table: JsMap<string, S.MemberInput>)
    requires sh.joined != []
  {
    CacheOk(sh, table) && Get(table, Fingerprint(k)).Some? && Get(table, Fingerprint(sh.joined[0])).Some?
  }

  ghost predicate InboxOk(k: PublicKey, p: Proc) {
    && 0 <= p.client.inboxSeq <= |p.client.log|
    && p.inbox == Inbox(p.client.log[..p.client.inboxSeq], Fingerprint(k))
  }

  ghost predicate ProcOk(sh: Shared, k: PublicKey, p: Proc)
    requires sh.joined != [] && |sh.sent| == |sh.s.log| <= |sh.Links()|
  {
    && IdentityOk(sh, k, p.client)
    && FoldedOk(sh, p.client)
    && TableOk(sh, k, p.client.membersById)
    && VaultOk(sh, k, p.client, p.phase.PostingKeys?)
    && (k == sh.joined[0] ==> CreatorOk(sh, p.client, p.phase.PostingKeys?))
    && PhaseOk(sh, k, p)
    && InboxOk(k, p)
  }

  /** A client outside the session: fresh, but for what a refused join leaves behind. */
  ghost predicate Outsider(w: World, k: PublicKey, p: Proc) {
    var c := p.client;
    && c == NewClient(k, w.kx(k)).(sessionId := c.sessionId, role := c.role, creatorFingerprint := c.creatorFingerprint)
    && c.role != Creator && p.phase.Idle? && p.inbox == []
  }

  ghost predicate Started(w: World) {
    w.relay.Some? && w.joined != [] && w.joined[0] in w.procs
  }

  ghost function SharedOf(w: World): Shared
    requires Started(w)
  {
    var creator := w.procs[w.joined[0]].client;
    Shared(w.kx, w.relay.value, w.joined, w.sent, creator.groupKeys, creator.membersById)
  }

  ghost predicate SharedOk(sh: Shared) {
    RelayOk(sh) && LogOk(sh) && sh.joined != [] && KeysOk(sh) && |sh.Links()| == |sh.s.log|
  }

  ghost predicate PartOk(w: World, k: PublicKey)
    requires Started(w) && SharedOk(SharedOf(w)) && k in w.procs
  {
    if k in w.joined then ProcOk(SharedOf(w), k, w.procs[k]) else Outsider(w, k, w.procs[k])
  }

  ghost predicate Inv(w: World) {
    if w.relay.None? then
      && w.joined == [] && w.sent == []
      && (forall k <- w.procs :: Outsider(w, k, w.procs[k]))
    else
      && Started(w)
      && SharedOk(SharedOf(w))
      && (forall k <- w.joined :: k in w.procs)
      && (forall k {:trigger PartOk(w, k)} :: k in w.procs ==> PartOk(w, k))
  }
}
