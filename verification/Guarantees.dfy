/** What clients can rely on after any run over the honest relay. */
module Guarantees {
  import opened Prelude
  import opened Decimals
  import opened Sequences
  import opened Crypto
  import opened Message
  import opened Client
  import opened ClientFacts
  import opened Protocol
  import opened ProtocolInvariant
  import opened ProtocolGrowth
  import opened ProtocolStatus
  import opened ProtocolPull
  import opened ProtocolKeys
  import opened ProtocolRuns
  import T = Transcript
  import S = SessionSpec

  /** The people with their key pairs, and everything that happens, in order. */
  datatype Scenario = Scenario(people: set<PublicKey>, kx: PublicKey -> PublicKey, events: seq<Event>)

  ghost function Final(sc: Scenario): World { Run(Start(sc.people, sc.kx), sc.events) }

  lemma FinalOk(sc: Scenario, k: PublicKey)
    requires Fits(Final(sc)) && k in Final(sc).joined
    ensures Inv(Final(sc)) && Started(Final(sc)) && k in Final(sc).procs
    ensures SharedOk(SharedOf(Final(sc))) && ProcOk(SharedOf(Final(sc)), k, Final(sc).procs[k])
  {
    EveryRunKeepsInv(sc.people, sc.kx, sc.events);
    assert PartOk(Final(sc), k);
  }

  // ---- The transcript chain ----

  /** Every client's head is the fold of exactly the relay messages it has fetched, and its log records them. */
  lemma HeadIsFoldOfLog(sc: Scenario, k: PublicKey)
    requires Fits(Final(sc)) && k in Final(sc).joined
    ensures
      var w := Final(sc);
      && w.relay.Some? && k in w.procs
      && var c, log, sid := w.procs[k].client, w.relay.value.log, w.relay.value.meta.sessionId;
      && 0 <= c.fetchedSeq <= |log|
      && c.head == Fold(T.Signed(sid, log[..c.fetchedSeq]))
      && Wires(c.log) == log[..c.fetchedSeq]
  {
    FinalOk(sc, k);
    var w := Final(sc);
    FoldedRecords(SharedOf(w), k, w.procs[k]);
  }

  lemma FoldedRecords(sh: Shared, k: PublicKey, p: Proc)
    requires SharedOk(sh) && ProcOk(sh, k, p)
    ensures 0 <= p.client.fetchedSeq == |p.client.log| <= |sh.s.log|
    ensures T.Signed(sh.Sid(), sh.s.log[..p.client.fetchedSeq]) == sh.Links()[..p.client.fetchedSeq]
    ensures p.client.head == Fold(sh.Links()[..p.client.fetchedSeq])
    ensures Wires(p.client.log) == sh.s.log[..p.client.fetchedSeq]
  {
    var c := p.client;
    assert FoldedOk(sh, c) && LogOk(sh);
    hide SharedOk, ProcOk;
    LinksOfPart(sh, |c.log|);
    hide LogOk, T.Signed;
    forall i | 0 <= i < |c.log| ensures Wires(c.log)[i] == sh.s.log[i] {
      assert EntryOk(sh, c.log[i], i);
    }
  }

  lemma LinksOfPart(sh: Shared, n: nat)
    requires LogOk(sh) && |sh.Links()| == |sh.s.log| && n <= |sh.s.log|
    ensures T.Signed(sh.Sid(), sh.s.log[..n]) == sh.Links()[..n]
  {
    SignedPart(sh.Sid(), sh.s.log, n);
    ProtocolSteps.LinkedUpTo(sh, n);
  }

  /**
   * The relay log position k passes the chain check at any client that has folded it exactly when the relay held
   * just the k earlier messages when its sender pulled; so all clients agree on every message.
   */
  lemma ChainOkMeansNotOvertaken(sc: Scenario, k: PublicKey, i: nat)
    requires Fits(Final(sc)) && k in Final(sc).joined && k in Final(sc).procs
    requires i < |Final(sc).procs[k].client.log|
    ensures i < |Final(sc).sent| && Final(sc).sent[i].base <= i
    ensures Final(sc).procs[k].client.log[i].chainOk <==> Final(sc).sent[i].base == i
  {
    FinalOk(sc, k);
    var w := Final(sc);
    EntryFacts(SharedOf(w), k, w.procs[k], i);
  }

  lemma EntryFacts(sh: Shared, k: PublicKey, p: Proc, i: nat)
    requires SharedOk(sh) && ProcOk(sh, k, p) && i < |p.client.log|
    ensures i < |sh.sent| == |sh.s.log| <= |sh.Links()|
    ensures EntryOk(sh, p.client.log[i], i) && sh.sent[i].base <= i
  {
    hide RelayOk, KeysOk, EntryOk, TableOk, VaultOk, PhaseOk;
    assert FoldedOk(sh, p.client);
  }

  // ---- Keys ----

  /** The members at epoch `e`: the first `e + 1` to join. */
  ghost predicate MemberAt(w: World, e: int, f: string) {
    exists i :: 0 <= i < |w.joined| && i <= e && Fingerprint(w.joined[i]) == f
  }

  /** Once the creator has a key for an epoch, the relay's wraps for it go to exactly the members at that epoch. */
  lemma WrapsGoToMembers(sc: Scenario, e: int, f: string)
    requires Fits(Final(sc)) && Final(sc).joined != [] && Final(sc).joined[0] in Final(sc).procs
    ensures
      var w := Final(sc);
      && w.relay.Some?
      && var held := Get(w.procs[w.joined[0]].client.groupKeys, e);
      && ((e, f) in w.relay.value.keys <==> held.Some? && MemberAt(w, e, f))
      && (held.Some? ==> 0 <= e <= w.relay.value.meta.epoch)
  {
    hide *;
    var w := Final(sc);
    FinalOk(sc, w.joined[0]);
    StartedFacts(w);
    SharedParts(SharedOf(w));
    KeysReach(SharedOf(w), e, f);
    MembersAt(w, e, f);
  }

  lemma StartedFacts(w: World)
    requires Started(w)
    ensures
      var sh := SharedOf(w);
      && w.relay.Some? && w.joined != [] && w.joined[0] in w.procs
      && sh.s == w.relay.value && sh.joined == w.joined && sh.sent == w.sent && sh.kx == w.kx
      && sh.vault == w.procs[w.joined[0]].client.groupKeys && sh.known == w.procs[w.joined[0]].client.membersById
  {
  }

  lemma SharedParts(sh: Shared)
    requires SharedOk(sh)
    ensures RelayOk(sh) && LogOk(sh) && sh.joined != [] && KeysOk(sh) && |sh.Links()| == |sh.s.log| == |sh.sent|
  {
    hide RelayOk, KeysOk, MessageOk, T.Signed;
  }

  lemma SidIs(sh: Shared)
    ensures sh.Sid() == sh.s.meta.sessionId
  {
  }

  ghost predicate ByThen(sh: Shared, e: int, f: string) {
    exists k <- sh.joined :: Fingerprint(k) == f && MemberBy(sh, k, e)
  }

  lemma KeysReach(sh: Shared, e: int, f: string)
    requires sh.joined != [] && KeysOk(sh)
    ensures (e, f) in sh.s.keys <==> Get(sh.vault, e).Some? && ByThen(sh, e, f)
    ensures Get(sh.vault, e).Some? ==> 0 <= e <= sh.s.meta.epoch
  {
    hide MemberBy, KeyFor;
    if (e, f) in sh.s.keys {
      assert KeyOk(sh, e, f);
    }
  }

  lemma MembersAt(w: World, e: int, f: string)
    requires Started(w)
    ensures ByThen(SharedOf(w), e, f) <==> MemberAt(w, e, f)
  {
    var sh := SharedOf(w);
    if ByThen(sh, e, f) {
      var k :| k in sh.joined && Fingerprint(k) == f && MemberBy(sh, k, e);
      var i :| 0 <= i < |sh.joined| && i <= e && sh.joined[i] == k;
      assert Fingerprint(w.joined[i]) == f;
    }
    if MemberAt(w, e, f) {
      var i :| 0 <= i < |w.joined| && i <= e && Fingerprint(w.joined[i]) == f;
      assert w.joined[i] in sh.joined && MemberBy(sh, w.joined[i], e);
    }
  }

  /**
   * A client's keys are shared by all holders and none is older than its own join. The current key is the one kept
   * for the client's epoch exactly while it is not posting a new key: the creator advances its epoch before the post,
   * and until the relay answers its current key is still that of the epoch established last.
   */
  lemma KeysAreConsistent(sc: Scenario, j: nat, other: PublicKey, e: int)
    requires Fits(Final(sc)) && j < |Final(sc).joined| && other in Final(sc).joined
    requires Final(sc).joined[j] in Final(sc).procs && other in Final(sc).procs
    ensures
      var w := Final(sc);
      var c, d, phase := w.procs[w.joined[j]].client, w.procs[other].client, w.procs[w.joined[j]].phase;
      && (Get(c.groupKeys, e).Some? && Get(d.groupKeys, e).Some? ==> Get(c.groupKeys, e) == Get(d.groupKeys, e))
      && (Get(c.groupKeys, e).Some? ==> j <= e)
      && (c.groupKey.Some? ==> (Get(c.groupKeys, c.epoch) == c.groupKey <==> !phase.PostingKeys?))
      && (c.groupKey.Some? && phase.PostingKeys? ==>
            j == 0 && c.establishedEpoch < c.epoch && Get(c.groupKeys, c.establishedEpoch) == c.groupKey)
  {
    hide *;
    var w := Final(sc);
    var k := w.joined[j];
    FinalOk(sc, k);
    FinalOk(sc, other);
    StartedFacts(w);
    SharedParts(SharedOf(w));
    CurrentKey(SharedOf(w), k, w.procs[k]);
    CurrentKey(SharedOf(w), other, w.procs[other]);
    KeyIsShared(SharedOf(w), k, w.procs[k], e);
    KeyIsShared(SharedOf(w), other, w.procs[other], e);
    JoinedOnce(SharedOf(w), j, e);
  }

  lemma CurrentKey(sh: Shared, k: PublicKey, p: Proc)
    requires SharedOk(sh) && ProcOk(sh, k, p)
    ensures p.client.groupKey.Some? ==> (Get(p.client.groupKeys, p.client.epoch) == p.client.groupKey <==> !p.phase.PostingKeys?)
    ensures p.client.groupKey.Some? && p.phase.PostingKeys? ==>
              && k == sh.joined[0] && p.client.establishedEpoch < p.client.epoch
              && Get(p.client.groupKeys, p.client.establishedEpoch) == p.client.groupKey
  {
    hide RelayOk, KeysOk, LogOk, FoldedOk, CacheOk, WrapsOk, MessageOk, InboxOk, MemberBy;
  }

  lemma KeyIsShared(sh: Shared, k: PublicKey, p: Proc, e: int)
    requires SharedOk(sh) && ProcOk(sh, k, p)
    ensures Get(p.client.groupKeys, e).Some? ==> Get(p.client.groupKeys, e) == Get(sh.vault, e) && MemberBy(sh, k, e)
  {
    hide RelayOk, KeysOk, LogOk, FoldedOk, CacheOk, CreatorOk, PhaseOk, InboxOk, MemberBy;
  }

  lemma JoinedOnce(sh: Shared, j: nat, e: int)
    requires RelayOk(sh) && j < |sh.joined|
    ensures MemberBy(sh, sh.joined[j], e) ==> j <= e
    ensures sh.joined[j] == sh.joined[0] ==> j == 0
  {
    hide S.Inv, Fingerprint;
    if MemberBy(sh, sh.joined[j], e) {
      var i :| 0 <= i < |sh.joined| && i <= e && sh.joined[i] == sh.joined[j];
      assert i == j;
    }
  }

  lemma BystanderUntouched(w: World, e: Event, k: PublicKey)
    requires k in w.procs && e.who != k
    ensures k in Step(w, e).procs && Step(w, e).procs[k] == w.procs[k]
  {
    hide AfterStatus, AfterKeys, AfterPull, Pull, OnKey, Joined, S.Fetch, S.Roster, S.WithWraps;
  }

  lemma PullKeepsKeys(c: Client, messages: seq<Entry>)
    ensures Pull(c, messages).0.groupKeys == c.groupKeys
  {
  }

  lemma AfterPullKeepsKeys(p: Proc, c: Client, call: Call, logged: nat)
    ensures AfterPull(p, c, call, logged).client.groupKeys == c.groupKeys
  {
    hide Deliver, ComposeDraft;
  }

  lemma StepPullKeepsKeys(w: World, k: PublicKey, call: Call)
    requires w.relay.Some? && k in w.procs
    ensures StepPull(w, w.procs[k], k, call).procs[k].client.groupKeys == w.procs[k].client.groupKeys
  {
    hide Pull, AfterPull, S.Fetch;
    var p := w.procs[k];
    var messages := S.Fetch(w.relay.value.log, p.client.fetchedSeq, S.LOG_WIDTH);
    PullKeepsKeys(p.client, messages);
    AfterPullKeepsKeys(p, Pull(p.client, messages).0, call, |w.relay.value.log|);
  }

  lemma StepBeginKeepsKeys(w: World, k: PublicKey, call: Call, newKey: Bytes)
    requires w.relay.Some? && k in w.procs
    ensures StepBegin(w, w.procs[k], k, call, newKey).procs[k].client.groupKeys == w.procs[k].client.groupKeys
  {
    AfterStatusKeeps(w.procs[k], S.Status(w.relay).value, call, newKey);
    hide AfterStatus, S.Status;
  }

  /** Steps outside the key exchange leave a member's keys alone. */
  lemma OtherStepKeepsKeys(w: World, e: Event, k: PublicKey)
    requires IsMember(w, k) && e.who == k && !e.PostKeys? && !e.FetchKey?
    ensures k in Step(w, e).procs && Step(w, e).procs[k].client.groupKeys == w.procs[k].client.groupKeys
  {
    hide StepBegin, StepPull, StepCreate, StepJoin;
    match e
    case Begin(_, call, newKey) => StepBeginKeepsKeys(w, k, call, newKey); StepKeepsProcs(w, e);
    case PullMessages(_) => if w.procs[k].phase.Pulling? { StepPullKeepsKeys(w, k, w.procs[k].phase.call); } StepKeepsProcs(w, e);
    case BeginExport(_) => StepPullKeepsKeys(w, k, SettleCall); StepKeepsProcs(w, e);
    case _ =>
  }

  lemma StepKeepsProcs(w: World, e: Event)
    ensures w.procs.Keys <= Step(w, e).procs.Keys
  {
    hide AfterStatus, AfterKeys, AfterPull, Pull, OnKey, Joined, S.Fetch, S.Roster, S.WithWraps;
  }

  lemma PostKeepsKeys(w: World, k: PublicKey, epoch: int)
    requires Started(w) && SharedOk(SharedOf(w)) && k in w.joined && k in w.procs
    requires ProcOk(SharedOf(w), k, w.procs[k]) && w.procs[k].phase.PostingKeys?
    requires Get(w.procs[k].client.groupKeys, epoch).Some?
    ensures Get(StepPostKeys(w, w.procs[k], k).procs[k].client.groupKeys, epoch) == Get(w.procs[k].client.groupKeys, epoch)
  {
    hide *;
    PostingIsNew(SharedOf(w), k, w.procs[k]);
    NewKeyIsNew(SharedOf(w), k, w.procs[k]);
    StartedFacts(w);
    PostAddsKey(w, k, epoch);
  }

  lemma NewKeyIsNew(sh: Shared, k: PublicKey, p: Proc)
    requires SharedOk(sh) && ProcOk(sh, k, p) && p.phase.PostingKeys?
    requires NewKey(sh, p.phase.epoch, p.phase.key, p.phase.wraps)
    ensures Get(p.client.groupKeys, p.phase.epoch).None?
  {
    hide RelayOk, KeysOk, LogOk, FoldedOk, CacheOk, WrapsOk, InboxOk, MemberBy, CreatorOk;
  }

  lemma PostAddsKey(w: World, k: PublicKey, epoch: int)
    requires w.relay.Some? && k in w.procs && w.procs[k].phase.PostingKeys?
    requires Get(w.procs[k].client.groupKeys, w.procs[k].phase.epoch).None? && Get(w.procs[k].client.groupKeys, epoch).Some?
    ensures k in StepPostKeys(w, w.procs[k], k).procs
    ensures Get(StepPostKeys(w, w.procs[k], k).procs[k].client.groupKeys, epoch) == Get(w.procs[k].client.groupKeys, epoch)
  {
    hide S.PostKeys, SignGroupKey, OnKeysPosted;
    var p := w.procs[k];
    PostedKeysAt(p.client, p.phase.epoch, p.phase.key, epoch);
    AfterKeysClient(p, OnKeysPosted(p.client, p.phase.epoch, p.phase.key), p.phase.call);
  }

  lemma PostedKeysAt(c: Client, e: int, key: Bytes, epoch: int)
    ensures Get(OnKeysPosted(c, e, key).groupKeys, epoch) == if epoch == e then Some(key) else Get(c.groupKeys, epoch)
  {
  }

  lemma FetchKeepsKeys(w: World, k: PublicKey, epoch: int)
    requires Started(w) && SharedOk(SharedOf(w)) && k in w.joined && k in w.procs
    requires ProcOk(SharedOf(w), k, w.procs[k]) && w.procs[k].phase.FetchingKey?
    requires Get(w.procs[k].client.groupKeys, epoch).Some?
    ensures Get(StepFetchKey(w, w.procs[k], k).procs[k].client.groupKeys, epoch) == Get(w.procs[k].client.groupKeys, epoch)
  {
    var sh, p := SharedOf(w), w.procs[k];
    FetchingFacts(sh, k, p);
    var c := FetchProc(sh, k, p);
    hide SharedOk, ProcOk, OnKey, AfterKeys, VaultOk, OnlyKeysDiffer;
    FetchMoved(w, k, c);
    hide *;
    OnKeyKeeps(p.client, p.phase.epoch, p.phase.creatorId, S.GetKey(w.relay, p.phase.epoch, Fingerprint(k)), epoch);
    FetchedKeysAgree(sh, k, p.client, c, epoch);
    AfterKeysClient(p, c, p.phase.call);
  }

  lemma OnKeyKeeps(c: Client, e: int, creatorId: string, reply: Result<S.WrappedKey, S.SessionError>, epoch: int)
    requires OnKey(c, e, creatorId, reply).Ok? && Get(c.groupKeys, epoch).Some?
    ensures Get(OnKey(c, e, creatorId, reply).value.groupKeys, epoch).Some?
  {
  }

  lemma AfterKeysClient(p: Proc, c: Client, call: Call)
    ensures AfterKeys(p, c, call).client == c
  {
  }

  /** The steps of the key exchange: what was held agrees with the creator's keys, and so does what is held after. */
  lemma FetchedKeysAgree(sh: Shared, k: PublicKey, before: Client, after: Client, epoch: int)
    requires VaultOk(sh, k, before, false) && VaultOk(sh, k, after, false)
    requires Get(before.groupKeys, epoch).Some? && Get(after.groupKeys, epoch).Some?
    ensures Get(after.groupKeys, epoch) == Get(before.groupKeys, epoch)
  {
  }

  /** No step replaces or drops a key any member holds. */
  lemma StepKeepsKeys(w: World, e: Event, k: PublicKey, epoch: int)
    requires Inv(w) && k in w.joined && k in w.procs
    requires Get(w.procs[k].client.groupKeys, epoch).Some?
    ensures k in Step(w, e).procs
    ensures Get(Step(w, e).procs[k].client.groupKeys, epoch) == Get(w.procs[k].client.groupKeys, epoch)
  {
    StepKeepsProcs(w, e);
    assert PartOk(w, k);
    assert IsMember(w, k) by { assert RelayOk(SharedOf(w)); }
    hide Inv, SharedOk, ProcOk, StepPostKeys, StepFetchKey, StepBegin, StepPull, StepCreate, StepJoin, StepPost;
    if e.who != k {
      BystanderUntouched(w, e, k);
    } else if e.PostKeys? && w.procs[k].phase.PostingKeys? {
      PostKeepsKeys(w, k, epoch);
    } else if e.FetchKey? && w.procs[k].phase.FetchingKey? {
      FetchKeepsKeys(w, k, epoch);
    } else if !e.PostKeys? && !e.FetchKey? {
      OtherStepKeepsKeys(w, e, k);
    }
  }

  /** A key, once held, is held unchanged for the rest of the run; in particular the creator never re-keys an epoch. */
  lemma {:induction false} KeysAreNeverReplaced(sc: Scenario, n: nat, k: PublicKey, epoch: int)
    requires Fits(Final(sc)) && n <= |sc.events|
    requires
      var w := Final(sc.(events := sc.events[..n]));
      k in w.joined && k in w.procs && Get(w.procs[k].client.groupKeys, epoch).Some?
    ensures
      var w := Final(sc.(events := sc.events[..n]));
      && k in Final(sc).procs && k in Final(sc).joined
      && Get(Final(sc).procs[k].client.groupKeys, epoch) == Get(w.procs[k].client.groupKeys, epoch)
    decreases |sc.events|
  {
    hide *;
    if n < |sc.events| {
      var m := |sc.events| - 1;
      var earlier := sc.(events := sc.events[..m]);
      assert sc.events[..m][..n] == sc.events[..n];
      LastStep(sc);
      KeysAreNeverReplaced(earlier, n, k, epoch);
      StepKeepsKeys(Final(earlier), sc.events[m], k, epoch);
      StepKeepsJoined(Final(earlier), sc.events[m]);
    } else {
      assert sc.events[..n] == sc.events;
    }
  }

  lemma OneMore(sc: Scenario, e: Event)
    ensures Final(sc.(events := sc.events + [e])) == Step(Final(sc), e)
  {
    hide Step;
    assert (sc.events + [e])[..|sc.events|] == sc.events;
  }

  /** A run ends with its last event, taken in a state that fits and satisfies the invariant. */
  lemma LastStep(sc: Scenario)
    requires sc.events != [] && Fits(Final(sc))
    ensures
      var w := Final(sc.(events := sc.events[..|sc.events| - 1]));
      Fits(w) && Inv(w) && Inv(Final(sc)) && Final(sc) == Step(w, sc.events[|sc.events| - 1])
  {
    hide Inv, Step;
    var m := |sc.events| - 1;
    StepLogGrows(Final(sc.(events := sc.events[..m])), sc.events[m]);
    EveryRunKeepsInv(sc.people, sc.kx, sc.events);
    EveryRunKeepsInv(sc.people, sc.kx, sc.events[..m]);
  }

  lemma StepKeepsJoined(w: World, e: Event)
    requires Inv(w)
    ensures w.joined <= Step(w, e).joined
  {
    hide *;
    NobodyBefore(w);
    StepExtendsJoined(w, e);
  }

  lemma NobodyBefore(w: World)
    requires Inv(w)
    ensures w.relay.None? ==> w.joined == []
  {
    hide SharedOk, PartOk, Outsider;
  }

  lemma StepExtendsJoined(w: World, e: Event)
    requires w.relay.None? ==> w.joined == []
    ensures w.joined <= Step(w, e).joined
  {
    hide AfterStatus, AfterKeys, AfterPull, Pull, OnKey, Joined, Created, OnKeysPosted, SignGroupKey, Fingerprint,
         S.Fetch, S.Roster, S.Status, S.GetKey, S.Init, S.Join, S.PostKeys, S.PostMessage;
  }

  // ---- Delivery ----

  /** What a delivery says about a logged message, apart from its body. */
  datatype Notice = Notice(seqNo: int, id: Text, senderId: string, messageType: string, ref: Option<Text>)

  function NoticeOf(r: Received): Notice { Notice(r.seqNo, r.id, r.senderId, r.messageType, r.ref) }

  function Notices(inbox: seq<Received>): (r: seq<Notice>)
    ensures |r| == |inbox| && forall i :: 0 <= i < |r| ==> r[i] == NoticeOf(inbox[i])
  {
    seq(|inbox|, i requires 0 <= i < |inbox| => NoticeOf(inbox[i]))
  }

  /** The messages of a stretch of relay log that `me` did not send, in order. */
  function FromOthers(sessionId: string, log: seq<Entry>, me: string): seq<Notice> {
    if log == [] then []
    else
      var m := log[|log| - 1];
      var id := match Decode(sessionId, m) case Some(env) => MessageId(env) case None => [];
      FromOthers(sessionId, log[..|log| - 1], me)
      + if m.senderId == me then [] else [Notice(m.seqNo, id, m.senderId, m.messageType, m.ref)]
  }

  /**
   * Exactly-once delivery: all `receive` results of a client, concatenated, are the relay log up to its inbox
   * cursor without its own messages, in order, whichever pull folded them; each delivery is the client's log entry.
   */
  lemma DeliveredExactlyOnce(sc: Scenario, k: PublicKey)
    requires Fits(Final(sc)) && k in Final(sc).joined
    ensures
      var w := Final(sc);
      && w.relay.Some? && k in w.procs
      && var p, s := w.procs[k], w.relay.value;
      && 0 <= p.client.inboxSeq <= p.client.fetchedSeq <= |s.log|
      && p.client.inboxSeq <= |p.client.log| && p.inbox == Inbox(p.client.log[..p.client.inboxSeq], Fingerprint(k))
      && Notices(p.inbox) == FromOthers(s.meta.sessionId, s.log[..p.client.inboxSeq], Fingerprint(k))
  {
    FinalOk(sc, k);
    var w := Final(sc);
    var sh, p := SharedOf(w), w.procs[k];
    FoldedRecords(sh, k, p);
    assert InboxOk(k, p);
    InboxNotices(sh, k, p, p.client.inboxSeq);
  }

  lemma LoggedNotice(sh: Shared, k: PublicKey, p: Proc, i: nat)
    requires SharedOk(sh) && ProcOk(sh, k, p) && i < |p.client.log| <= |sh.s.log|
    ensures Decode(sh.Sid(), sh.s.log[i]).Some?
    ensures
      var e, m := p.client.log[i], sh.s.log[i];
      && e.senderId == m.senderId
      && NoticeOf(Delivered(e)) ==
         Notice(m.seqNo, MessageId(Decode(sh.Sid(), m).value), m.senderId, m.messageType, m.ref)
  {
    EntryFacts(sh, k, p, i);
    assert LogOk(sh);
    hide SharedOk, ProcOk;
    LinkIs(sh, i);
    hide LogOk, T.Signed;
  }

  lemma NoticesAppend(a: seq<Received>, b: seq<Received>)
    ensures Notices(a + b) == Notices(a) + Notices(b)
  {
  }

  /** One more entry is noticed exactly when someone else sent it. */
  lemma NextNotice(log: seq<LogEntry>, e: LogEntry, me: string)
    ensures Notices(Inbox(log + [e], me)) ==
            Notices(Inbox(log, me)) + if e.senderId == me then [] else [NoticeOf(Delivered(e))]
  {
    assert (log + [e])[..|log|] == log;
    NoticesAppend(Inbox(log, me), if e.senderId == me then [] else [Delivered(e)]);
  }

  lemma NextFromOthers(sid: string, log: seq<Entry>, m: Entry, me: string)
    requires Decode(sid, m).Some?
    ensures FromOthers(sid, log + [m], me) ==
            FromOthers(sid, log, me) + if m.senderId == me then []
                                       else [Notice(m.seqNo, MessageId(Decode(sid, m).value), m.senderId, m.messageType, m.ref)]
  {
    hide Decode;
    assert (log + [m])[..|log|] == log;
  }

  lemma {:induction false} InboxNotices(sh: Shared, k: PublicKey, p: Proc, n: nat)
    requires SharedOk(sh) && ProcOk(sh, k, p) && n <= |p.client.log| <= |sh.s.log|
    ensures Notices(Inbox(p.client.log[..n], Fingerprint(k))) == FromOthers(sh.Sid(), sh.s.log[..n], Fingerprint(k))
  {
    hide *;
    var log, me := p.client.log, Fingerprint(k);
    if n > 0 {
      InboxNotices(sh, k, p, n - 1);
      LoggedNotice(sh, k, p, n - 1);
      PrefixStep(log, n - 1);
      PrefixStep(sh.s.log, n - 1);
      NextNotice(log[..n - 1], log[n - 1], me);
      NextFromOthers(sh.Sid(), sh.s.log[..n - 1], sh.s.log[n - 1], me);
    } else {
      assert log[..0] == [] && sh.s.log[..0] == [];
      NothingNoticed(sh.Sid(), me);
    }
  }

  lemma NothingNoticed(sid: string, me: string)
    ensures Notices(Inbox([], me)) == FromOthers(sid, [], me)
  {
  }
}
