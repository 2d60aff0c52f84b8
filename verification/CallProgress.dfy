/** What each call of a client achieves, step by step, in every reachable state: keys are made, fetched, messages sent. */
module CallProgress {
  import opened Prelude
  import opened Decimals
  import opened Sequences
  import opened Crypto
  import opened Message
  import opened Client
  import opened ClientFacts
  import opened Protocol
  import opened ProtocolInvariant
  import opened ProtocolGrowth
  import opened ProtocolStatus
  import opened ProtocolPull
  import opened ProtocolKeys
  import opened ProtocolTraffic
  import opened ProtocolRuns
  import opened Guarantees
  import opened Reading
  import T = Transcript
  import S = SessionSpec

  /** A member between calls in a reachable state. */
  ghost predicate Ready(sc: Scenario, k: PublicKey) {
    && Fits(Final(sc)) && k in Final(sc).joined && k in Final(sc).procs && Final(sc).procs[k].phase.Idle?
  }

  /** How a call goes on once the key question is settled. */
  function GoesOn(call: Call, hasKey: bool): Phase {
    match call
    case SettleCall => Idle
    case ReceiveCall => Pulling(call)
    case SendCall(_) => if hasKey then Pulling(call) else Idle
  }

  lemma AfterKeysGoesOn(p: Proc, c: Client, call: Call)
    ensures AfterKeys(p, c, call) == p.(client := c, phase := GoesOn(call, c.groupKey.Some?))
  {
  }

  lemma BeginIs(w: World, k: PublicKey, call: Call, newKey: Bytes)
    requires IsMember(w, k) && w.procs[k].phase.Idle?
    ensures k in Step(w, Begin(k, call, newKey)).procs && w.relay.Some? && S.Status(w.relay).Ok?
    ensures Step(w, Begin(k, call, newKey)).procs[k] == AfterStatus(w.procs[k], S.Status(w.relay).value, call, newKey)
    ensures Step(w, Begin(k, call, newKey)).relay == w.relay
  {
    hide AfterStatus, S.Roster, Fingerprint;
  }

  // ---- The creator's keys ----

  /** The wraps hold the key, sealed to everyone in the session. */
  ghost predicate WrapsEveryone(s: S.State, key: Bytes, wraps: seq<S.Wrap>) {
    forall f <- s.members :: S.Wrap(f, HexField(Seal(s.members[f].input.kxPub, key))) in wraps
  }

  lemma RosterWraps(s: S.State, key: Bytes)
    requires S.Inv(s)
    ensures WrapsEveryone(s, key, WrapAll(S.Roster(s.members), key))
  {
    hide S.Roster;
    S.RosterListsMembers(s.members);
    var roster := S.Roster(s.members);
    forall f | f in s.members ensures S.Wrap(f, HexField(Seal(s.members[f].input.kxPub, key))) in WrapAll(roster, key) {
      assert s.members[f] in roster;
      var i :| 0 <= i < |roster| && roster[i] == s.members[f];
      assert WrapAll(roster, key)[i] in WrapAll(roster, key);
    }
  }

  lemma CreatorHolds(sh: Shared, p: Proc)
    requires SharedOk(sh) && ProcOk(sh, sh.joined[0], p) && p.phase.Idle?
    ensures Get(p.client.groupKeys, sh.s.meta.epoch).Some? <==> p.client.groupKey.Some? && p.client.establishedEpoch == sh.s.meta.epoch
    ensures p.client.role == Creator
  {
    hide RelayOk, LogOk, KeysOk, FoldedOk, CacheOk, InboxOk, MemberBy;
  }

  lemma CreatorStatus(p: Proc, status: S.StatusReply, call: Call, newKey: Bytes)
    requires p.client.role == Creator && p.phase.Idle?
    ensures
      var after := AfterStatus(p, status, call, newKey);
      if p.client.groupKey.Some? && p.client.establishedEpoch == status.meta.epoch
      then after.phase == GoesOn(call, true) && after.client.groupKeys == p.client.groupKeys
      else after.phase == PostingKeys(call, status.meta.epoch, newKey, WrapAll(status.members, newKey))
  {
    hide CacheAll;
  }

  /**
   * A creator that begins a call without a key for the relay's epoch is about to post the fresh one for exactly that
   * epoch, sealed to every member; a creator that has one sends no key request and goes on with the call.
   */
  lemma CreatorConverges(sc: Scenario, call: Call, newKey: Bytes)
    requires Final(sc).joined != [] && Ready(sc, Final(sc).joined[0])
    ensures
      var w := Final(sc);
      var k := w.joined[0];
      var v := Step(w, Begin(k, call, newKey));
      && w.relay.Some? && k in v.procs
      && var e, held, phase := w.relay.value.meta.epoch, Get(w.procs[k].client.groupKeys, w.relay.value.meta.epoch), v.procs[k].phase;
      && (held.None? ==> phase.PostingKeys? && phase.call == call && phase.epoch == e && phase.key == newKey
                         && WrapsEveryone(w.relay.value, newKey, phase.wraps))
      && (held.Some? ==> phase == GoesOn(call, true))
  {
    hide *;
    var w := Final(sc);
    var k := w.joined[0];
    ReadyFacts(sc, k);
    BeginIs(w, k, call, newKey);
    CreatorHolds(SharedOf(w), w.procs[k]);
    CreatorStatus(w.procs[k], S.Status(w.relay).value, call, newKey);
    StatusIs(w);
    InvOfShared(SharedOf(w));
    RosterWraps(w.relay.value, newKey);
  }

  lemma ReadyFacts(sc: Scenario, k: PublicKey)
    requires Ready(sc, k)
    ensures
      var w := Final(sc);
      && Inv(w) && Fits(w) && Started(w) && k in w.procs && k in w.joined && w.procs[k].phase.Idle? && IsMember(w, k)
      && SharedOk(SharedOf(w)) && ProcOk(SharedOf(w), k, w.procs[k])
      && var sh := SharedOf(w);
      && w.relay == Some(sh.s) && sh.joined == w.joined && sh.sent == w.sent && sh.joined != []
  {
    hide Inv, SharedOk, ProcOk, IsMember, Fits, Run;
    FinalOk(sc, k);
    StartedFacts(Final(sc));
    MembersReach(Final(sc), k);
  }

  lemma MembersReach(w: World, k: PublicKey)
    requires Inv(w) && k in w.joined && k in w.procs
    ensures IsMember(w, k)
  {
    hide *;
    JoinedRelay(w, k);
    InvShared(w);
    StartedFacts(w);
    SharedParts(SharedOf(w));
    JoinedIsMember(SharedOf(w), k);
    MemberIntro(w, k);
  }

  lemma JoinedRelay(w: World, k: PublicKey)
    requires Inv(w) && k in w.joined
    ensures w.relay.Some?
  {
    hide SharedOk, PartOk, Outsider;
  }

  lemma JoinedIsMember(sh: Shared, k: PublicKey)
    requires RelayOk(sh) && k in sh.joined
    ensures Fingerprint(k) in sh.s.members
  {
    hide S.Inv, Fingerprint;
  }

  lemma MemberIntro(w: World, k: PublicKey)
    requires k in w.procs && w.relay.Some? && Fingerprint(k) in w.relay.value.members
    ensures IsMember(w, k)
  {
  }

  lemma StatusIs(w: World)
    requires w.relay.Some?
    ensures S.Status(w.relay) == Ok(S.StatusReply(w.relay.value.meta, S.Roster(w.relay.value.members), |w.relay.value.log|))
  {
    hide S.Roster;
  }

  lemma InvOfShared(sh: Shared)
    requires SharedOk(sh)
    ensures S.Inv(sh.s)
  {
    hide S.Inv, LogOk, KeysOk, Fingerprint;
  }

  // ---- The key post ----

  /**
   * Once the relay has answered a key post, the creator holds that key for the epoch as its current one, and the relay
   * holds a wrap of it for everyone who was a member then, whatever happened in between.
   */
  lemma PostedKeyIsHeld(sc: Scenario)
    requires Fits(Final(sc)) && Final(sc).joined != [] && Final(sc).joined[0] in Final(sc).procs
    requires Final(sc).procs[Final(sc).joined[0]].phase.PostingKeys?
    ensures
      var w := Final(sc);
      var k := w.joined[0];
      var phase, v := w.procs[k].phase, Step(w, PostKeys(k));
      && k in v.procs && v.relay.Some?
      && Get(v.procs[k].client.groupKeys, phase.epoch) == Some(phase.key) == v.procs[k].client.groupKey
      && v.procs[k].client.epoch == phase.epoch
      && v.procs[k].phase == GoesOn(phase.call, true)
      && forall f :: MemberAt(w, phase.epoch, f) ==> (phase.epoch, f) in v.relay.value.keys
  {
    hide *;
    var w := Final(sc);
    var k := w.joined[0];
    FinalOk(sc, k);
    StartedFacts(w);
    MembersReach(w, k);
    PostingIsNew(SharedOf(w), k, w.procs[k]);
    PostingEpoch(SharedOf(w), w.procs[k]);
    PostedProc(SharedOf(w), k, w.procs[k]);
    SidIs(SharedOf(w));
    PostKeysMoved(w, k);
    PostIs(w, k);
    var p := w.procs[k];
    AfterKeysGoesOn(p, OnKeysPosted(p.client, p.phase.epoch, p.phase.key), p.phase.call);
    PostedClient(p.client, p.phase.epoch, p.phase.key);
    var v := Step(w, PostKeys(k));
    forall f | MemberAt(w, p.phase.epoch, f) ensures v.relay.Some? && (p.phase.epoch, f) in v.relay.value.keys {
      PostedFor(w, v, k, f);
    }
    MovedRelay(w, v, k, Posted(SharedOf(w), p.phase.epoch, p.phase.key, p.phase.wraps));
  }

  lemma BeginKeeps(w: World, k: PublicKey, call: Call, newKey: Bytes)
    ensures var v := Step(w, Begin(k, call, newKey)); v.relay == w.relay && v.joined == w.joined && (Fits(w) ==> Fits(v))
  {
    hide AfterStatus, S.Roster, Fingerprint;
  }

  lemma EveryoneByNow(sh: Shared, w: World, f: string)
    requires RelayOk(sh) && w.relay == Some(sh.s) && w.joined == sh.joined && f in sh.s.members
    ensures MemberAt(w, sh.s.meta.epoch, f)
  {
    hide Fingerprint, S.Inv;
    var j :| j in sh.joined && Fingerprint(j) == f;
    var i :| 0 <= i < |sh.joined| && sh.joined[i] == j;
    assert Fingerprint(w.joined[i]) == f;
  }

  /**
   * Whenever the creator begins a call and has no key for the relay's epoch, then once its key post is answered it holds
   * the fresh key for that epoch, and the relay holds a wrap of it for every current member.
   */
  lemma CreatorRekeys(sc: Scenario, call: Call, newKey: Bytes)
    requires Final(sc).joined != [] && Ready(sc, Final(sc).joined[0]) && Final(sc).relay.Some?
    requires Get(Final(sc).procs[Final(sc).joined[0]].client.groupKeys, Final(sc).relay.value.meta.epoch).None?
    ensures
      var w := Final(sc);
      var k, e := w.joined[0], w.relay.value.meta.epoch;
      var v := Step(Step(w, Begin(k, call, newKey)), PostKeys(k));
      && k in v.procs && v.relay.Some?
      && Get(v.procs[k].client.groupKeys, e) == Some(newKey) == v.procs[k].client.groupKey && v.procs[k].client.epoch == e
      && v.procs[k].phase == GoesOn(call, true)
      && forall f <- w.relay.value.members :: (e, f) in v.relay.value.keys
  {
    hide *;
    var w := Final(sc);
    var k, e := w.joined[0], w.relay.value.meta.epoch;
    ReadyFacts(sc, k);
    CreatorConverges(sc, call, newKey);
    BeginKeeps(w, k, call, newKey);
    OneMore(sc, Begin(k, call, newKey));
    ReadyFits(sc, k);
    PostedKeyIsHeld(sc.(events := sc.events + [Begin(k, call, newKey)]));
    SharedParts(SharedOf(w));
    var v := Step(Step(w, Begin(k, call, newKey)), PostKeys(k));
    forall f | f in w.relay.value.members ensures (e, f) in v.relay.value.keys {
      EveryoneByNow(SharedOf(w), w, f);
      SameMembers(w, Step(w, Begin(k, call, newKey)), e, f);
    }
  }

  lemma ReadyFits(sc: Scenario, k: PublicKey)
    requires Ready(sc, k)
    ensures Fits(Final(sc))
  {
    hide Fits;
  }

  lemma SameMembers(w: World, v: World, e: int, f: string)
    requires v.joined == w.joined && MemberAt(w, e, f)
    ensures MemberAt(v, e, f)
  {
    hide Fingerprint;
  }

  lemma PostingEpoch(sh: Shared, p: Proc)
    requires SharedOk(sh) && ProcOk(sh, sh.joined[0], p) && p.phase.PostingKeys?
    ensures p.client.epoch == p.phase.epoch
  {
    hide RelayOk, LogOk, KeysOk, FoldedOk, CacheOk, VaultOk, CreatorOk, InboxOk, WrapsOk;
  }

  lemma PostIs(w: World, k: PublicKey)
    requires IsMember(w, k) && w.procs[k].phase.PostingKeys?
    ensures w.relay.Some? && Step(w, PostKeys(k)) == StepPostKeys(w, w.procs[k], k)
  {
    hide StepPostKeys, Fingerprint;
  }

  lemma PostedClient(c: Client, e: int, key: Bytes)
    ensures
      var d := OnKeysPosted(c, e, key);
      Get(d.groupKeys, e) == Some(key) == d.groupKey && d.epoch == c.epoch
  {
  }

  lemma MovedRelay(w: World, v: World, k: PublicKey, b: Shared)
    requires Moved(w, v, k, b)
    ensures v.relay == Some(b.s) && k in v.procs
  {
  }

  lemma PostedFor(w: World, v: World, k: PublicKey, f: string)
    requires Started(w) && k == w.joined[0] && k in w.procs && w.procs[k].phase.PostingKeys?
    requires NewKey(SharedOf(w), w.procs[k].phase.epoch, w.procs[k].phase.key, w.procs[k].phase.wraps)
    requires var phase := w.procs[k].phase; Moved(w, v, k, Posted(SharedOf(w), phase.epoch, phase.key, phase.wraps))
    requires MemberAt(w, w.procs[k].phase.epoch, f)
    ensures v.relay.Some? && (w.procs[k].phase.epoch, f) in v.relay.value.keys
  {
    hide *;
    var phase := w.procs[k].phase;
    StartedFacts(w);
    MovedRelay(w, v, k, Posted(SharedOf(w), phase.epoch, phase.key, phase.wraps));
    var j := JoinedAt(w, phase.epoch, f);
    RecipientPosted(SharedOf(w), phase.epoch, phase.key, phase.wraps, j);
  }

  lemma JoinedAt(w: World, e: int, f: string) returns (j: PublicKey)
    requires Started(w) && MemberAt(w, e, f)
    ensures MemberBy(SharedOf(w), j, e) && Fingerprint(j) == f
  {
    var i :| 0 <= i < |w.joined| && i <= e && Fingerprint(w.joined[i]) == f;
    j := w.joined[i];
    assert SharedOf(w).joined[i] == j;
  }

  // ---- A member's keys ----

  lemma JoinerFacts(sh: Shared, k: PublicKey, p: Proc)
    requires SharedOk(sh) && ProcOk(sh, k, p) && p.phase.Idle? && k != sh.joined[0]
    ensures p.client.role != Creator
    ensures p.client.groupKey.Some? && p.client.epoch == sh.s.meta.epoch ==> Get(p.client.groupKeys, sh.s.meta.epoch) == p.client.groupKey
    ensures Get(p.client.groupKeys, sh.s.meta.epoch).None? ==> !(p.client.groupKey.Some? && p.client.epoch == sh.s.meta.epoch)
  {
    hide RelayOk, LogOk, KeysOk, FoldedOk, CacheOk, CreatorOk, InboxOk, MemberBy;
  }

  lemma JoinerStatus(p: Proc, status: S.StatusReply, call: Call, newKey: Bytes)
    requires p.client.role != Creator && p.phase.Idle?
    ensures
      var after := AfterStatus(p, status, call, newKey);
      if p.client.groupKey.Some? && p.client.epoch == status.meta.epoch
      then after.phase == GoesOn(call, true)
      else after.phase == FetchingKey(call, status.meta.epoch, status.meta.creatorId)
  {
    hide CacheAll;
  }

  /**
   * A joiner that begins a call asks for the key of exactly the relay's epoch, unless its current key is that one; in
   * particular it asks whenever it does not hold that key.
   */
  lemma JoinerConverges(sc: Scenario, k: PublicKey, call: Call, newKey: Bytes)
    requires Ready(sc, k) && k != Final(sc).joined[0]
    ensures
      var w := Final(sc);
      var v := Step(w, Begin(k, call, newKey));
      && w.relay.Some? && k in v.procs
      && var c, meta, phase := w.procs[k].client, w.relay.value.meta, v.procs[k].phase;
      && (phase == if c.groupKey.Some? && c.epoch == meta.epoch then GoesOn(call, true)
                   else FetchingKey(call, meta.epoch, meta.creatorId))
      && (c.groupKey.Some? && c.epoch == meta.epoch ==> Get(c.groupKeys, meta.epoch) == c.groupKey)
      && (Get(c.groupKeys, meta.epoch).None? ==> phase == FetchingKey(call, meta.epoch, meta.creatorId))
  {
    hide *;
    var w := Final(sc);
    ReadyFacts(sc, k);
    BeginIs(w, k, call, newKey);
    JoinerFacts(SharedOf(w), k, w.procs[k]);
    JoinerStatus(w.procs[k], S.Status(w.relay).value, call, newKey);
    StatusIs(w);
  }

  /**
   * After the relay's answer to a key request the call goes on: with the creator's key for that epoch as the current one
   * if the relay had a wrap for the member, and otherwise with the keys the member had.
   */
  lemma FetchGoesOn(sc: Scenario, k: PublicKey)
    requires Fits(Final(sc)) && k in Final(sc).joined && k in Final(sc).procs && Final(sc).procs[k].phase.FetchingKey?
    ensures
      var w := Final(sc);
      var p, v := w.procs[k], Step(w, Event.FetchKey(k));
      && w.relay.Some? && k in v.procs
      && var c := v.procs[k].client;
      && v.procs[k].phase == GoesOn(p.phase.call, c.groupKey.Some?)
      && ((p.phase.epoch, Fingerprint(k)) !in w.relay.value.keys ==> c == p.client)
      && ((p.phase.epoch, Fingerprint(k)) in w.relay.value.keys ==>
            c.epoch == p.phase.epoch && c.groupKey.Some? && Get(c.groupKeys, p.phase.epoch) == c.groupKey)
  {
    hide *;
    var w := Final(sc);
    var p := w.procs[k];
    FinalOk(sc, k);
    StartedFacts(w);
    MembersReach(w, k);
    var c := FetchProc(SharedOf(w), k, p);
    FetchingName(SharedOf(w), k, p);
    FetchIs(w, k, c);
    FetchAnswer(w.relay.value, p.client, p.phase.epoch, p.phase.creatorId, Fingerprint(k), c);
    AfterKeysGoesOn(p, c, p.phase.call);
  }

  lemma FetchingName(sh: Shared, k: PublicKey, p: Proc)
    requires SharedOk(sh) && ProcOk(sh, k, p)
    ensures p.client.MemberId() == Fingerprint(k)
  {
    hide RelayOk, LogOk, KeysOk, FoldedOk, TableOk, VaultOk, CreatorOk, InboxOk, PhaseOk, Fingerprint;
  }

  lemma FetchIs(w: World, k: PublicKey, c: Client)
    requires IsMember(w, k) && w.procs[k].phase.FetchingKey?
    requires OnKey(w.procs[k].client, w.procs[k].phase.epoch, w.procs[k].phase.creatorId,
                   S.GetKey(w.relay, w.procs[k].phase.epoch, w.procs[k].client.MemberId())) == Ok(c)
    ensures w.relay.Some? && k in Step(w, Event.FetchKey(k)).procs
    ensures Step(w, Event.FetchKey(k)).procs[k] == AfterKeys(w.procs[k], c, w.procs[k].phase.call)
  {
    hide OnKey, S.GetKey, AfterKeys, Fingerprint;
  }

  lemma FetchAnswer(s: S.State, c: Client, e: int, creatorId: string, f: string, d: Client)
    requires OnKey(c, e, creatorId, S.GetKey(Some(s), e, f)) == Ok(d)
    ensures (e, f) !in s.keys ==> d == c
    ensures (e, f) in s.keys ==> d.epoch == e && d.groupKey.Some? && Get(d.groupKeys, e) == d.groupKey
  {
    hide VerifyGroupKey, ResolveHolder, Open;
  }

  // ---- Sending and receiving ----

  /**
   * A pull of the whole log goes through in every reachable state. A `receive` then has delivered everything and is done;
   * a `send` is about to post the message its caller asked for, composed on top of every message there is.
   */
  lemma PullGoesOn(sc: Scenario, k: PublicKey)
    requires Fits(Final(sc)) && k in Final(sc).joined && k in Final(sc).procs && Final(sc).procs[k].phase.Pulling?
    ensures
      var w := Final(sc);
      var call, v := w.procs[k].phase.call, Step(w, PullMessages(k));
      && w.relay.Some? && k in v.procs && v.relay == w.relay
      && var p := v.procs[k];
      && p.client.fetchedSeq == |p.client.log| == |w.relay.value.log|
      && (call.ReceiveCall? ==> p.phase == Idle && p.client.inboxSeq == |w.relay.value.log|)
      && (call.SendCall? ==> p.phase.Posting? && p.phase.draft == call.draft && p.phase.base == |w.relay.value.log|)
      && (call.SettleCall? ==> p.phase == Idle)
  {
    hide *;
    var w := Final(sc);
    var p := w.procs[k];
    FinalOk(sc, k);
    StartedFacts(w);
    MembersReach(w, k);
    NotPosting(p);
    FitsMeans(w);
    var c := PulledProc(SharedOf(w), k, p, p.phase.call);
    PulledKey(SharedOf(w), k, p, c);
    PullIs(w, k, c);
    PulledFacts(SharedOf(w), k, p, c);
    AfterPullIs(p, c, p.phase.call, |w.relay.value.log|);
  }

  lemma NotPosting(p: Proc)
    requires p.phase.Pulling?
    ensures !p.phase.PostingKeys?
  {
  }

  lemma FitsMeans(w: World)
    requires Fits(w) && w.relay.Some?
    ensures |w.relay.value.log| < Power10(S.LOG_WIDTH)
  {
    hide Power10;
  }

  lemma PullIs(w: World, k: PublicKey, c: Client)
    requires IsMember(w, k) && w.procs[k].phase.Pulling? && w.relay.Some?
    requires Pull(w.procs[k].client, S.Fetch(w.relay.value.log, w.procs[k].client.fetchedSeq, S.LOG_WIDTH)) == (c, true)
    ensures
      var v := Step(w, PullMessages(k));
      k in v.procs && v.relay == w.relay
      && v.procs[k] == AfterPull(w.procs[k], c, w.procs[k].phase.call, |w.relay.value.log|)
  {
    hide Pull, AfterPull, S.Fetch, Fingerprint;
  }

  lemma PulledKey(sh: Shared, k: PublicKey, p: Proc, c: Client)
    requires SharedOk(sh) && ProcOk(sh, k, p) && p.phase.Pulling?
    requires |sh.Links()| == |sh.s.log| == |sh.sent| && sh.joined != [] && Pulled(sh, k, p, c)
    requires c.groupKeys == p.client.groupKeys
    ensures p.phase.call.SendCall? ==> c.groupKey.Some?
  {
    hide RelayOk, LogOk, KeysOk, FoldedOk, TableOk, CreatorOk, InboxOk, MemberBy;
  }

  lemma PulledFacts(sh: Shared, k: PublicKey, p: Proc, c: Client)
    requires sh.joined != [] && |sh.sent| == |sh.s.log| <= |sh.Links()| && Pulled(sh, k, p, c) && Numbered(sh.s.log)
    ensures c.fetchedSeq == |c.log| && InSequence(c.log) && 0 <= c.inboxSeq <= |c.log|
  {
    hide TableOk, VaultOk, CreatorOk, EntryOk;
    FoldedInSequence(sh, c);
  }

  lemma AfterPullIs(p: Proc, c: Client, call: Call, logged: nat)
    requires InSequence(c.log) && 0 <= c.inboxSeq <= |c.log| && (call.SendCall? ==> c.groupKey.Some?)
    ensures
      var q := AfterPull(p, c, call, logged);
      && q.client.log == c.log && q.client.fetchedSeq == c.fetchedSeq
      && (call.ReceiveCall? ==> q.phase == Idle && q.client.inboxSeq == |c.log|)
      && (call.SendCall? ==> q.phase == Posting(ComposeDraft(c, call.draft), call.draft, logged))
      && (call.SettleCall? ==> q.phase == Idle)
  {
    hide ComposeDraft, Deliver;
    if call.ReceiveCall? {
      DeliverIsInbox(c.inboxSeq, c.log, c.MemberId());
    }
  }

  /** The message at the end of the log is what the caller asked to send, as every other client will read it. */
  ghost predicate AsAsked(w: World, k: PublicKey, draft: Draft, base: nat)
  {
    && w.relay.Some? && w.relay.value.log != [] && |w.sent| == |w.relay.value.log|
    && var n := |w.sent| - 1;
    && w.sent[n] == Sent(k, draft, base)
    && w.relay.value.log[n].seqNo == n + 1 && w.relay.value.log[n].senderId == Fingerprint(k)
    && w.relay.value.log[n].messageType == draft.messageType && w.relay.value.log[n].ref == draft.ref
  }

  /** A post goes through in every reachable state: the message is the next in the log, and the call is done. */
  lemma PostGoesThrough(sc: Scenario, k: PublicKey)
    requires Fits(Final(sc)) && k in Final(sc).joined && k in Final(sc).procs && Final(sc).procs[k].phase.Posting?
    ensures
      var w := Final(sc);
      var p, v := w.procs[k], Step(w, PostMessage(k));
      && k in v.procs && v.procs[k].phase == Idle && w.relay.Some? && v.relay.Some?
      && v.relay.value.log == w.relay.value.log + [p.phase.message.(seqNo := |w.relay.value.log| + 1)]
      && AsAsked(v, k, p.phase.draft, p.phase.base)
  {
    hide *;
    var w := Final(sc);
    FinalOk(sc, k);
    StartedFacts(w);
    MembersReach(w, k);
    SharedParts(SharedOf(w));
    var p := w.procs[k];
    IdleAfterPost(SharedOf(w), k, p);
    SenderIsMember(SharedOf(w), p.phase.message, Sent(k, p.phase.draft, p.phase.base));
    PostStep(w, k);
    MessageAsked(SharedOf(w), p.phase.message, Sent(k, p.phase.draft, p.phase.base));
    AskedIntro(w, k);
  }

  lemma PostStep(w: World, k: PublicKey)
    requires IsMember(w, k) && w.procs[k].phase.Posting? && w.relay.Some?
    requires w.procs[k].phase.message.senderId in w.relay.value.members
    ensures
      var p, v := w.procs[k], Step(w, PostMessage(k));
      && k in v.procs && v.procs[k].phase == Idle && v.relay.Some?
      && v.relay.value.log == w.relay.value.log + [p.phase.message.(seqNo := |w.relay.value.log| + 1)]
      && v.sent == w.sent + [Sent(k, p.phase.draft, p.phase.base)]
  {
    hide Fingerprint;
  }

  lemma MessageAsked(sh: Shared, m: Entry, x: Sent)
    requires MessageOk(sh, m, x)
    ensures m.senderId == Fingerprint(x.sender) && m.messageType == x.draft.messageType && m.ref == x.draft.ref
  {
    hide Decode, T.Signed, Fold, Fingerprint;
  }

  lemma AskedIntro(w: World, k: PublicKey)
    requires w.relay.Some? && k in w.procs && w.procs[k].phase.Posting? && |w.sent| == |w.relay.value.log|
    requires var p, v := w.procs[k], Step(w, PostMessage(k));
             && v.relay.Some? && v.relay.value.log == w.relay.value.log + [p.phase.message.(seqNo := |w.relay.value.log| + 1)]
             && v.sent == w.sent + [Sent(k, p.phase.draft, p.phase.base)]
    requires w.procs[k].phase.message.senderId == Fingerprint(k)
    requires w.procs[k].phase.message.messageType == w.procs[k].phase.draft.messageType
    requires w.procs[k].phase.message.ref == w.procs[k].phase.draft.ref
    ensures AsAsked(Step(w, PostMessage(k)), k, w.procs[k].phase.draft, w.procs[k].phase.base)
  {
    hide Step, Fingerprint;
  }
}
