/** Pulling, delivering, composing and posting messages keep the invariant. */
module ProtocolTraffic {
  import opened Prelude
  import opened Decimals
  import opened Sequences
  import opened Crypto
  import opened Message
  import opened Client
  import opened ClientFacts
  import opened Protocol
  import opened ProtocolInvariant
  import opened ProtocolGrowth
  import opened ProtocolSteps
  import opened ProtocolStatus
  import opened ProtocolPull
  import opened ProtocolKeys
  import T = Transcript
  import S = SessionSpec

  // ---- Pulling ----

  lemma AgreementFromVault(sh: Shared, k: PublicKey, c: Client, posting: bool)
    requires VaultOk(sh, k, c, posting)
    ensures KeysAgree(sh, c)
  {
  }

  lemma PullReady(sh: Shared, k: PublicKey, p: Proc)
    requires SharedOk(sh) && ProcOk(sh, k, p)
    ensures LogOk(sh) && |sh.Links()| == |sh.s.log| == |sh.sent| && Numbered(sh.s.log)
    ensures FoldedOk(sh, p.client) && p.client.sessionId == sh.Sid() && KeysAgree(sh, p.client)
    ensures FoldedReady(sh, p.client)
  {
    hide LogOk, KeysOk, EntryOk, VaultOk, TableOk, PhaseOk, InboxOk, KeysAgree;
    AgreementFromVault(sh, k, p.client, p.phase.PostingKeys?);
  }

  /** After a pull the client has folded the whole log, and nothing else about it changed. */
  lemma PulledAll(sh: Shared, k: PublicKey, p: Proc) returns (c: Client)
    requires SharedOk(sh) && ProcOk(sh, k, p) && |sh.s.log| < Power10(S.LOG_WIDTH)
    ensures |sh.Links()| == |sh.s.log| == |sh.sent|
    ensures Pull(p.client, S.Fetch(sh.s.log, p.client.fetchedSeq, S.LOG_WIDTH)) == (c, true)
    ensures OnlyFolded(p.client, c) && FoldedOk(sh, c) && |c.log| == |sh.s.log|
  {
    hide *;
    PullReady(sh, k, p);
    FetchesTheRest(sh, p.client);
    FoldedBound(sh, p.client);
    c := PullFolds(sh, p.client, |sh.s.log|);
  }

  lemma FoldedBound(sh: Shared, c: Client)
    requires FoldedReady(sh, c)
    ensures |c.log| <= |sh.s.log|
  {
  }

  /** Facts that do not mention the folded log carry over a pull. */
  lemma PulledRest(sh: Shared, k: PublicKey, p: Proc, c: Client)
    requires SharedOk(sh) && ProcOk(sh, k, p) && !p.phase.PostingKeys? && OnlyFolded(p.client, c)
    ensures IdentityOk(sh, k, c) && TableOk(sh, k, c.membersById)
    ensures VaultOk(sh, k, c, false) && (k == sh.joined[0] ==> CreatorOk(sh, c, false))
  {
    hide SharedOk, FoldedOk, CacheOk, PhaseOk, InboxOk;
  }

  lemma PulledInbox(k: PublicKey, p: Proc, c: Client)
    requires InboxOk(k, p) && OnlyFolded(p.client, c)
    ensures InboxOk(k, p.(client := c, phase := Idle))
  {
    assert c.log[..c.inboxSeq] == p.client.log[..c.inboxSeq];
  }

  lemma FoldedInSequence(sh: Shared, c: Client)
    requires |sh.sent| == |sh.s.log| <= |sh.Links()| && Numbered(sh.s.log) && FoldedOk(sh, c)
    ensures InSequence(c.log)
  {
    forall i | 0 <= i < |c.log| ensures c.log[i].seqNo == i + 1 {
      assert EntryOk(sh, c.log[i], i);
    }
  }

  /** `receive` hands over exactly what its cursor had not covered yet. */
  lemma DeliveredInbox(k: PublicKey, p: Proc, c: Client)
    requires InboxOk(k, p.(client := c)) && InSequence(c.log) && c.identity == k
    ensures
      var (cursor, out) := Deliver(c.inboxSeq, c.log, c.MemberId());
      && InboxOk(k, Proc(c.(inboxSeq := cursor), Idle, p.inbox + out))
      && cursor == |c.log|
  {
    DeliverIsInbox(c.inboxSeq, c.log, c.MemberId());
    assert c.log == c.log[..c.inboxSeq] + c.log[c.inboxSeq..];
    InboxAppends(c.log[..c.inboxSeq], c.log[c.inboxSeq..], c.MemberId());
    assert c.log[..|c.log|] == c.log;
    if c.inboxSeq == |c.log| {
      assert c.log[c.inboxSeq..] == [];
    }
  }

  /** A composed message is chained to everything its sender has folded, signed, and sealed under a creator key. */
  lemma ComposedOk(sh: Shared, k: PublicKey, c: Client, draft: Draft)
    requires IdentityOk0(sh, k, c) && VaultOk(sh, k, c, false) && c.groupKey.Some?
    requires k in sh.joined && |c.log| == |sh.Links()| && c.head == Fold(sh.Links()[..|c.log|])
    ensures MessageOk(sh, ComposeDraft(c, draft), Sent(k, draft, |c.log|))
  {
    hide T.Signed, FoldedOk;
    assert Get(c.groupKeys, c.epoch) == c.groupKey;
    assert Get(sh.vault, c.epoch) == c.groupKey && Get(sh.known, Fingerprint(k)).Some?;
    HeadNotEmpty(sh.Links()[..|c.log|]);
    var m := ComposeDraft(c, draft);
    assert Decode(sh.Sid(), m) ==
           Some(Envelope(c.sessionId, c.epoch, c.MemberId(), draft.messageType, c.head, draft.ref, draft.nonce,
                         Encrypt(c.groupKey.value, draft.nonce, AssociatedData(c.sessionId, c.epoch, c.MemberId()), draft.body)));
  }

  lemma HeadNotEmpty(links: seq<Bytes>)
    ensures Fold(links) != Some(Raw([]))
  {
  }

  ghost predicate IdentityOk0(sh: Shared, k: PublicKey, c: Client) {
    c.identity == k && c.sessionId == sh.Sid()
  }

  /** What a client is when its pull has gone through, before the call goes on. */
  ghost predicate Pulled(sh: Shared, k: PublicKey, p: Proc, c: Client)
    requires sh.joined != [] && |sh.sent| == |sh.s.log| <= |sh.Links()|
  {
    && IdentityOk(sh, k, c) && FoldedOk(sh, c) && TableOk(sh, k, c.membersById)
    && VaultOk(sh, k, c, false) && (k == sh.joined[0] ==> CreatorOk(sh, c, false))
    && InboxOk(k, p.(client := c, phase := Idle))
  }

  lemma PulledIdle(sh: Shared, k: PublicKey, p: Proc, c: Client)
    requires sh.joined != [] && |sh.sent| == |sh.s.log| <= |sh.Links()| && Pulled(sh, k, p, c)
    ensures ProcOk(sh, k, p.(client := c, phase := Idle))
  {
    hide IdentityOk, FoldedOk, TableOk, VaultOk, CreatorOk, InboxOk;
  }

  lemma PulledReceive(sh: Shared, k: PublicKey, p: Proc, c: Client)
    requires sh.joined != [] && |sh.sent| == |sh.s.log| <= |sh.Links()| && Pulled(sh, k, p, c)
    requires Numbered(sh.s.log)
    ensures
      var (cursor, out) := Deliver(c.inboxSeq, c.log, c.MemberId());
      ProcOk(sh, k, Proc(c.(inboxSeq := cursor), Idle, p.inbox + out))
  {
    hide FoldedOk, TableOk, VaultOk, CreatorOk, InboxOk, Deliver;
    FoldedInSequence(sh, c);
    InboxPhase(k, p, c);
    DeliveredInbox(k, p, c);
    var (cursor, out) := Deliver(c.inboxSeq, c.log, c.MemberId());
    CursorMoved(sh, k, c, cursor);
  }

  lemma InboxPhase(k: PublicKey, p: Proc, c: Client)
    requires InboxOk(k, p.(client := c, phase := Idle))
    ensures InboxOk(k, p.(client := c))
  {
  }

  lemma CursorMoved(sh: Shared, k: PublicKey, c: Client, cursor: int)
    requires sh.joined != [] && |sh.sent| == |sh.s.log| <= |sh.Links()|
    ensures FoldedOk(sh, c) ==> FoldedOk(sh, c.(inboxSeq := cursor))
    ensures VaultOk(sh, k, c, false) ==> VaultOk(sh, k, c.(inboxSeq := cursor), false)
    ensures CreatorOk(sh, c, false) ==> CreatorOk(sh, c.(inboxSeq := cursor), false)
  {
    hide EntryOk;
  }

  lemma PulledSend(sh: Shared, k: PublicKey, p: Proc, c: Client, draft: Draft)
    requires sh.joined != [] && |sh.sent| == |sh.s.log| == |sh.Links()| && Pulled(sh, k, p, c)
    requires c.groupKey.Some? && k in sh.joined && |c.log| == |sh.s.log|
    ensures ProcOk(sh, k, p.(client := c, phase := Posting(ComposeDraft(c, draft), draft, |sh.s.log|)))
  {
    hide EntryOk, TableOk, CreatorOk;
    ComposedOk(sh, k, c, draft);
    hide FoldedOk, VaultOk, MessageOk, ComposeDraft;
  }

  lemma PulledProc(sh: Shared, k: PublicKey, p: Proc, call: Call) returns (c: Client)
    requires SharedOk(sh) && ProcOk(sh, k, p) && |sh.s.log| < Power10(S.LOG_WIDTH) && k in sh.joined
    requires !p.phase.PostingKeys?
    ensures |sh.Links()| == |sh.s.log| == |sh.sent| && sh.joined != []
    ensures Pull(p.client, S.Fetch(sh.s.log, p.client.fetchedSeq, S.LOG_WIDTH)) == (c, true)
    ensures Pulled(sh, k, p, c) && Numbered(sh.s.log) && |c.log| == |sh.s.log|
    ensures c.groupKeys == p.client.groupKeys && c.membersById == p.client.membersById
  {
    assert sh.joined != [];
    PullReady(sh, k, p);
    c := PulledAll(sh, k, p);
    PulledRest(sh, k, p, c);
    assert InboxOk(k, p);
    hide SharedOk, ProcOk, FoldedOk, TableOk, VaultOk, CreatorOk, IdentityOk, InboxOk, S.Fetch, Pull;
    PulledInbox(k, p, c);
  }

  lemma AfterPullOk(sh: Shared, k: PublicKey, p: Proc, c: Client, call: Call)
    requires sh.joined != [] && |sh.sent| == |sh.s.log| == |sh.Links()| && Pulled(sh, k, p, c) && Numbered(sh.s.log)
    requires k in sh.joined && |c.log| == |sh.s.log|
    ensures ProcOk(sh, k, AfterPull(p, c, call, |sh.s.log|))
  {
    hide Pulled, ProcOk, Numbered, Deliver, ComposeDraft;
    PulledIdle(sh, k, p, c);
    match call
    case SettleCall =>
    case ReceiveCall => PulledReceive(sh, k, p, c);
    case SendCall(draft) =>
      if c.groupKey.Some? {
        PulledSend(sh, k, p, c, draft);
      }
  }

  lemma PullMoved(w: World, who: PublicKey, call: Call, c: Client)
    requires Started(w) && who in w.procs && who in w.joined
    requires Pull(w.procs[who].client, S.Fetch(w.relay.value.log, w.procs[who].client.fetchedSeq, S.LOG_WIDTH)) == (c, true)
    requires c.groupKeys == w.procs[who].client.groupKeys && c.membersById == w.procs[who].client.membersById
    ensures
      var v := StepPull(w, w.procs[who], who, call);
      && v.procs[who] == AfterPull(w.procs[who], c, call, |w.relay.value.log|)
      && Moved(w, v, who, SharedOf(w))
  {
    hide Pull, S.Fetch, Deliver, ComposeDraft;
  }

  lemma PullOk(w: World, who: PublicKey, call: Call)
    requires Inv(w) && IsMember(w, who) && !w.procs[who].phase.PostingKeys?
    requires |w.relay.value.log| < Power10(S.LOG_WIDTH)
    ensures Inv(StepPull(w, w.procs[who], who, call))
  {
    var a, p := SharedOf(w), w.procs[who];
    MemberIsJoined(a, who);
    assert PartOk(w, who);
    var c := PulledProc(a, who, p, call);
    PullMoved(w, who, call, c);
    AfterPullOk(a, who, p, c, call);
    GrowsSame(a);
    hide *;
    Finish(w, StepPull(w, p, who, call), who, a);
  }
}
