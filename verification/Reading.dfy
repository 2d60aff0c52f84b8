/** What a client makes of the messages it folds: exactly which are verified, and exactly which bodies it reads. */
module Reading {
  import opened Prelude
  import opened Decimals
  import opened Sequences
  import opened Crypto
  import opened Message
  import opened Client
  import opened Protocol
  import opened ProtocolInvariant
  import opened ProtocolPull
  import opened ProtocolStatus
  import opened ProtocolTraffic
  import opened ProtocolRuns
  import opened Guarantees
  import T = Transcript
  import S = SessionSpec

  /**
   * The entry `e` for the message `m` at log position `i`, sent as `x`, as folded by `c`: verified exactly if the
   * sender was cached and nothing overtook the message, and read exactly if it is verified, someone else's, and the
   * key of its epoch was held.
   */
  ghost predicate ReadExactly(c: Client, m: Entry, x: Sent, e: LogEntry, i: nat) {
    && (e.verified <==> Get(c.membersById, m.senderId).Some? && x.base == i)
    && e.body == if e.verified && m.senderId != c.MemberId() && Get(c.groupKeys, m.epoch).Some? then x.draft.body else ""
  }

  ghost predicate Reader(sh: Shared, c: Client) {
    && LogOk(sh) && |sh.Links()| == |sh.s.log| && Numbered(sh.s.log)
    && c.sessionId == sh.Sid() && KeysAgree(sh, c) && CacheOk(sh, c.membersById) && FoldedOk(sh, c)
  }

  lemma SignatureReads(sh: Shared, table: JsMap<string, S.MemberInput>, i: nat)
    requires LogOk(sh) && i < |sh.s.log| && CacheOk(sh, table) && Get(table, sh.s.log[i].senderId).Some?
    ensures Decode(sh.Sid(), sh.s.log[i]).Some? && sh.s.log[i].signature.HexField?
    ensures VerifyMessage(Decode(sh.Sid(), sh.s.log[i]).value, sh.s.log[i].signature.bytes,
                          Get(table, sh.s.log[i].senderId).value.identityPub)
  {
    assert MessageOk(sh, sh.s.log[i], sh.sent[i]);
    hide LogOk, CacheOk;
    ProtocolKeys.CachedIsSelf(sh, table, sh.sent[i].sender);
  }

  lemma EnteredExactly(sh: Shared, c: Client, i: nat)
    requires Reader(sh, c) && |c.log| == i < |sh.s.log|
    ensures |sh.sent| == |sh.s.log| && Foldable(c, sh.s.log[i]) && ReadExactly(c, sh.s.log[i], sh.sent[i], Entered(c, sh.s.log[i]), i)
  {
    var m := sh.s.log[i];
    FoldedHead(sh, c);
    ChainCheckMeansNotOvertaken(sh, i);
    if Get(c.membersById, m.senderId).Some? {
      SignatureReads(sh, c.membersById, i);
    }
    assert Foldable(c, m) by { NextEntryOk(sh, c, i); }
    BodyIsSent(sh, c, i, Entered(c, m).verified);
    assert |sh.sent| == |sh.s.log|;
    hide LogOk, FoldedOk, CacheOk, KeysAgree, BodyOf, T.Signed, Fold, Numbered, VerifyMessage;
  }

  lemma NextReader(sh: Shared, c: Client)
    requires Reader(sh, c) && |c.log| < |sh.s.log|
    ensures Foldable(c, sh.s.log[|c.log|]) && Reader(sh, FoldOne(c, sh.s.log[|c.log|]))
    ensures OnlyFolded(c, FoldOne(c, sh.s.log[|c.log|]))
    ensures FoldOne(c, sh.s.log[|c.log|]).log == c.log + [Entered(c, sh.s.log[|c.log|])]
  {
    hide LogOk, FoldedOk, CacheOk, KeysAgree, T.Signed, Fold, Foldable, Entered;
    FoldStep(sh, c, |c.log|);
  }

  lemma ReadSame(before: Client, after: Client, m: Entry, x: Sent, e: LogEntry, i: nat)
    requires OnlyFolded(before, after) && ReadExactly(after, m, x, e, i)
    ensures ReadExactly(before, m, x, e, i)
  {
  }

  lemma ReaderBounds(sh: Shared, c: Client)
    requires Reader(sh, c)
    ensures |c.log| <= |sh.s.log| == |sh.sent| && c.fetchedSeq == |c.log|
  {
    hide EntryOk, T.Signed;
  }

  /** The entries a pull adds, judged by what the client knew when it pulled. */
  ghost predicate AddedExactly(sh: Shared, c: Client, after: Client)
    requires |c.log| <= |after.log| <= |sh.s.log| == |sh.sent|
  {
    c.log <= after.log && forall i :: |c.log| <= i < |after.log| ==> ReadExactly(c, sh.s.log[i], sh.sent[i], after.log[i], i)
  }

  lemma {:induction false} PullReads(sh: Shared, c: Client, n: nat) returns (after: Client)
    requires Reader(sh, c) && |c.log| <= n <= |sh.s.log| == |sh.sent|
    ensures Pull(c, sh.s.log[|c.log|..n]) == (after, true)
    ensures Reader(sh, after) && OnlyFolded(c, after) && |after.log| == n && AddedExactly(sh, c, after)
  {
    hide *;
    if n == |c.log| {
      assert sh.s.log[|c.log|..n] == [];
      PullNothing(c);
      after := c;
      NothingAdded(sh, c);
    } else {
      var mid := PullReads(sh, c, n - 1);
      var m := sh.s.log[n - 1];
      Extend(sh.s.log, |c.log|, n);
      NextReader(sh, mid);
      EnteredExactly(sh, mid, n - 1);
      ReadSame(c, mid, m, sh.sent[n - 1], Entered(mid, m), n - 1);
      PullOneMore(c, sh.s.log[|c.log|..n - 1], m);
      after := FoldOne(mid, m);
      OnlyFoldedTwice(c, mid, after);
      AddedOne(sh, c, mid, after, Entered(mid, m));
    }
  }

  lemma NothingAdded(sh: Shared, c: Client)
    requires |c.log| <= |sh.s.log| == |sh.sent|
    ensures AddedExactly(sh, c, c)
  {
  }

  lemma AddedOne(sh: Shared, c: Client, mid: Client, after: Client, e: LogEntry)
    requires |c.log| <= |mid.log| < |sh.s.log| == |sh.sent| && AddedExactly(sh, c, mid)
    requires after.log == mid.log + [e] && ReadExactly(c, sh.s.log[|mid.log|], sh.sent[|mid.log|], e, |mid.log|)
    ensures AddedExactly(sh, c, after)
  {
    hide ReadExactly;
  }

  lemma MemberReads(sh: Shared, k: PublicKey, p: Proc)
    requires SharedOk(sh) && ProcOk(sh, k, p)
    ensures Reader(sh, p.client) && |sh.sent| == |sh.s.log|
  {
    PullReady(sh, k, p);
    assert CacheOk(sh, p.client.membersById);
    hide SharedOk, ProcOk, LogOk, FoldedOk, CacheOk, KeysAgree, Numbered;
  }

  /** The client's log after it handled the answer to its pull. */
  lemma PulledLog(w: World, k: PublicKey, call: Call, c: Client)
    requires w.relay.Some? && k in w.procs
    requires Pull(w.procs[k].client, S.Fetch(w.relay.value.log, w.procs[k].client.fetchedSeq, S.LOG_WIDTH)) == (c, true)
    ensures k in StepPull(w, w.procs[k], k, call).procs && StepPull(w, w.procs[k], k, call).procs[k].client.log == c.log
  {
    hide Pull, S.Fetch, Deliver, ComposeDraft;
  }

  lemma PulledReads(sh: Shared, k: PublicKey, p: Proc) returns (c: Client)
    requires SharedOk(sh) && ProcOk(sh, k, p) && |sh.s.log| < Power10(S.LOG_WIDTH)
    ensures Pull(p.client, S.Fetch(sh.s.log, p.client.fetchedSeq, S.LOG_WIDTH)) == (c, true)
    ensures |p.client.log| <= |c.log| == |sh.s.log| == |sh.sent| && AddedExactly(sh, p.client, c)
  {
    hide *;
    MemberReads(sh, k, p);
    ReaderBounds(sh, p.client);
    assert FoldedReady(sh, p.client) by { BoundsReady(sh, p.client); }
    FetchesTheRest(sh, p.client);
    c := PullReads(sh, p.client, |sh.s.log|);
  }

  lemma BoundsReady(sh: Shared, c: Client)
    requires c.fetchedSeq == |c.log| <= |sh.s.log|
    ensures FoldedReady(sh, c)
  {
  }

  lemma PullStepReads(w: World, k: PublicKey, call: Call)
    requires Inv(w) && Fits(w) && IsMember(w, k) && k in w.joined
    ensures
      var v, c := StepPull(w, w.procs[k], k, call), w.procs[k].client;
      && k in v.procs && |v.procs[k].client.log| == |w.relay.value.log| == |w.sent|
      && Started(w) && c.log <= v.procs[k].client.log
      && forall i :: |c.log| <= i < |w.relay.value.log| ==>
           ReadExactly(c, w.relay.value.log[i], w.sent[i], v.procs[k].client.log[i], i)
  {
    hide *;
    MemberListed(w, k);
    MemberPart(w, k);
    StartedFacts(w);
    var c := PulledReads(SharedOf(w), k, w.procs[k]);
    PulledLog(w, k, call, c);
    AddedAll(SharedOf(w), w.procs[k].client, c);
  }

  lemma MemberPart(w: World, k: PublicKey)
    requires Inv(w) && k in w.joined && w.relay.Some?
    ensures Started(w) && k in w.procs && SharedOk(SharedOf(w)) && ProcOk(SharedOf(w), k, w.procs[k])
    ensures Fits(w) ==> |SharedOf(w).s.log| < Power10(S.LOG_WIDTH)
  {
    hide SharedOk, ProcOk, Outsider, Power10;
    assert PartOk(w, k);
  }

  lemma AddedAll(sh: Shared, c: Client, after: Client)
    requires |c.log| <= |after.log| <= |sh.s.log| == |sh.sent| && AddedExactly(sh, c, after)
    ensures c.log <= after.log
    ensures forall i :: |c.log| <= i < |after.log| ==> ReadExactly(c, sh.s.log[i], sh.sent[i], after.log[i], i)
  {
    hide ReadExactly;
  }

  /** The event is a pull by member `k` that is enabled: that of `send` or `receive`, or the one an export starts with. */
  ghost predicate Pulls(w: World, e: Event, k: PublicKey) {
    && IsMember(w, k)
    && ((e == PullMessages(k) && w.procs[k].phase.Pulling?) || (e == BeginExport(k) && w.procs[k].phase.Idle?))
  }

  /**
   * In every reachable state, when a client pulls: it ends up with the whole relay log, and each new entry is verified
   * exactly if the client knew the sender and nothing overtook the message, and carries the sender's plaintext exactly
   * if it is verified, someone else's, and the client held the key of its epoch.
   */
  lemma PulledMessagesRead(sc: Scenario, e: Event, k: PublicKey)
    requires Fits(Final(sc)) && k in Final(sc).joined && k in Final(sc).procs && Pulls(Final(sc), e, k)
    ensures
      var w, v := Final(sc), Step(Final(sc), e);
      && w.relay.Some? && k in v.procs
      && var before, after := w.procs[k].client, v.procs[k].client;
      && before.log <= after.log && |after.log| == |w.relay.value.log| == |w.sent|
      && forall i :: |before.log| <= i < |after.log| ==>
           ReadExactly(before, w.relay.value.log[i], w.sent[i], after.log[i], i)
  {
    hide *;
    EveryRunKeepsInv(sc.people, sc.kx, sc.events) by { FinalIsRun(sc); }
    FinalIsRun(sc);
    EnabledPullReads(Final(sc), e, k);
  }

  lemma FinalIsRun(sc: Scenario)
    ensures Final(sc) == Run(Start(sc.people, sc.kx), sc.events)
  {
  }

  lemma EnabledPullReads(w: World, e: Event, k: PublicKey)
    requires Inv(w) && Fits(w) && k in w.joined && Pulls(w, e, k)
    ensures
      var v := Step(w, e);
      && w.relay.Some? && k in w.procs && k in v.procs
      && var before, after := w.procs[k].client, v.procs[k].client;
      && before.log <= after.log && |after.log| == |w.relay.value.log| == |w.sent|
      && forall i :: |before.log| <= i < |after.log| ==>
           ReadExactly(before, w.relay.value.log[i], w.sent[i], after.log[i], i)
  {
    hide *;
    var call := StepIsPull(w, e, k);
    PullStepReads(w, k, call);
  }

  lemma StepIsPull(w: World, e: Event, k: PublicKey) returns (call: Call)
    requires Pulls(w, e, k)
    ensures IsMember(w, k) && k in w.procs && w.relay.Some? && Step(w, e) == StepPull(w, w.procs[k], k, call)
  {
    hide StepPull, Fingerprint;
    call := if e.BeginExport? then SettleCall else w.procs[k].phase.call;
  }

  lemma SenderBacked(sh: Shared, i: nat)
    requires LogOk(sh) && i < |sh.s.log|
    ensures Get(sh.vault, sh.s.log[i].epoch).Some? && Get(sh.known, sh.s.log[i].senderId).Some?
  {
    assert MessageOk(sh, sh.s.log[i], sh.sent[i]);
    hide LogOk, T.Signed, Decode;
  }

  /** A member that asks for a key the relay has for it gets it: the creator's key for that epoch becomes current. */
  lemma FetchedKeyIsHeld(sc: Scenario, k: PublicKey)
    requires Fits(Final(sc)) && k in Final(sc).joined && k in Final(sc).procs && Final(sc).procs[k].phase.FetchingKey?
    requires Started(Final(sc)) && (Final(sc).procs[k].phase.epoch, Fingerprint(k)) in Final(sc).relay.value.keys
    ensures
      var w, e := Final(sc), Final(sc).procs[k].phase.epoch;
      var v := Step(w, Event.FetchKey(k));
      && k in v.procs
      && Get(SharedOf(w).vault, e).Some?
      && v.procs[k].client.groupKey == Get(SharedOf(w).vault, e) == Get(v.procs[k].client.groupKeys, e)
      && v.procs[k].client.epoch == e
  {
    hide SharedOk, ProcOk, Inv, Final, VaultOk, KeyFor, OnKey;
    var w := Final(sc);
    FinalOk(sc, k);
    var sh, p := SharedOf(w), w.procs[k];
    assert IsMember(w, k) by { assert RelayOk(sh); }
    ProtocolKeys.FetchingFacts(sh, k, p);
    ProtocolKeys.FetchedIsMine(sh, k, p.phase.epoch);
    assert sh.joined != [];
    var key := Get(sh.vault, p.phase.epoch).value;
    ProtocolKeys.UnwrapsOwnKey(sh, k, p.client, p.phase.epoch, key);
    FetchedStep(w, k, p.client.(groupKey := Some(key), groupKeys := Set(p.client.groupKeys, p.phase.epoch, key), epoch := p.phase.epoch));
  }

  lemma FetchedStep(w: World, k: PublicKey, c: Client)
    requires IsMember(w, k) && w.procs[k].phase.FetchingKey?
    requires OnKey(w.procs[k].client, w.procs[k].phase.epoch, w.procs[k].phase.creatorId,
                   S.GetKey(w.relay, w.procs[k].phase.epoch, w.procs[k].client.MemberId())) == Ok(c)
    ensures k in Step(w, Event.FetchKey(k)).procs && Step(w, Event.FetchKey(k)).procs[k].client == c
  {
    hide OnKey, S.GetKey;
  }

  // ---- Entries are final ----

  lemma {:induction false} PullGrowsLog(c: Client, messages: seq<Entry>)
    ensures c.log <= Pull(c, messages).0.log
  {
    hide Foldable, Entered;
    if messages != [] {
      PullGrowsLog(c, messages[..|messages| - 1]);
    }
  }

  lemma AfterPullLog(p: Proc, c: Client, call: Call, logged: nat)
    ensures AfterPull(p, c, call, logged).client.log == c.log
  {
    hide Deliver, ComposeDraft;
  }

  lemma StepPullGrowsLog(w: World, k: PublicKey, call: Call)
    requires w.relay.Some? && k in w.procs
    ensures k in StepPull(w, w.procs[k], k, call).procs
    ensures w.procs[k].client.log <= StepPull(w, w.procs[k], k, call).procs[k].client.log
  {
    hide Pull, AfterPull, S.Fetch;
    var p := w.procs[k];
    var messages := S.Fetch(w.relay.value.log, p.client.fetchedSeq, S.LOG_WIDTH);
    PullGrowsLog(p.client, messages);
    AfterPullLog(p, Pull(p.client, messages).0, call, |w.relay.value.log|);
  }

  lemma StatusKeepsLog(p: Proc, status: S.StatusReply, call: Call, newKey: Bytes)
    ensures AfterStatus(p, status, call, newKey).client.log == p.client.log
  {
    hide CacheAll, WrapAll;
  }

  lemma StepBeginKeepsLog(w: World, k: PublicKey, call: Call, newKey: Bytes)
    requires w.relay.Some? && k in w.procs
    ensures StepBegin(w, w.procs[k], k, call, newKey).procs[k].client.log == w.procs[k].client.log
  {
    StatusKeepsLog(w.procs[k], S.Status(w.relay).value, call, newKey);
    hide AfterStatus, S.Status;
  }

  lemma StepFetchKeepsLog(w: World, k: PublicKey)
    requires k in w.procs && w.procs[k].phase.FetchingKey?
    ensures StepFetchKey(w, w.procs[k], k).procs[k].client.log == w.procs[k].client.log
  {
    hide Get, Set, VerifyGroupKey, S.GetKey;
  }

  lemma StepPostKeysKeepsLog(w: World, k: PublicKey)
    requires w.relay.Some? && k in w.procs && w.procs[k].phase.PostingKeys?
    ensures StepPostKeys(w, w.procs[k], k).procs[k].client.log == w.procs[k].client.log
  {
    hide S.PostKeys, SignGroupKey;
  }

  /** Only a client's own pulls touch its log. */
  lemma OnlyPullsLog(w: World, e: Event, k: PublicKey)
    requires k in w.procs && !Pulls(w, e, k)
    ensures k in Step(w, e).procs && Step(w, e).procs[k].client.log == w.procs[k].client.log
  {
    hide StepPull, StepBegin, StepPostKeys, StepFetchKey, StepJoin, S.Init, S.PostMessage, Fingerprint;
    StepKeepsProcs(w, e);
    if e.who != k {
      BystanderUntouched(w, e, k);
    } else {
      if w.relay.Some? {
        if e.Begin? { StepBeginKeepsLog(w, k, e.call, e.newKey); }
        if e.PostKeys? && w.procs[k].phase.PostingKeys? { StepPostKeysKeepsLog(w, k); }
        if e.JoinSession? { StepJoinKeepsLog(w, k, e.token); }
      }
      if e.FetchKey? && w.procs[k].phase.FetchingKey? { StepFetchKeepsLog(w, k); }
    }
  }

  lemma StepGrowsLog(w: World, e: Event, k: PublicKey)
    requires k in w.procs
    ensures k in Step(w, e).procs && w.procs[k].client.log <= Step(w, e).procs[k].client.log
  {
    hide *;
    if Pulls(w, e, k) {
      var call := StepIsPull(w, e, k);
      StepPullGrowsLog(w, k, call);
    } else {
      OnlyPullsLog(w, e, k);
    }
  }

  lemma StepJoinKeepsLog(w: World, k: PublicKey, token: string)
    requires w.relay.Some? && k in w.procs
    ensures StepJoin(w, w.procs[k], k, token).procs[k].client.log == w.procs[k].client.log
  {
    hide S.Join, S.Roster, FindMember, CacheAll;
  }

  /** What a client once recorded about a message it never changes: its log only grows. */
  lemma {:induction false} RecordsAreFinal(sc: Scenario, n: nat, k: PublicKey)
    requires n <= |sc.events| && k in sc.people
    ensures
      var earlier := Final(sc.(events := sc.events[..n]));
      k in earlier.procs && k in Final(sc).procs && earlier.procs[k].client.log <= Final(sc).procs[k].client.log
    decreases |sc.events|
  {
    hide Step, Run;
    if n < |sc.events| {
      var m := |sc.events| - 1;
      assert sc.events[..m][..n] == sc.events[..n];
      RecordsAreFinal(sc.(events := sc.events[..m]), n, k);
      StepGrowsLog(Final(sc.(events := sc.events[..m])), sc.events[m], k);
      FinalStep(sc);
    } else {
      assert sc.events[..n] == sc.events;
      PeopleStay(sc, k);
    }
  }

  lemma FinalStep(sc: Scenario)
    requires sc.events != []
    ensures Final(sc) == Step(Final(sc.(events := sc.events[..|sc.events| - 1])), sc.events[|sc.events| - 1])
  {
    hide Step;
  }

  lemma {:induction false} PeopleStay(sc: Scenario, k: PublicKey)
    requires k in sc.people
    ensures k in Final(sc).procs
    decreases |sc.events|
  {
    if sc.events != [] {
      var m := |sc.events| - 1;
      PeopleStay(sc.(events := sc.events[..m]), k);
      hide Step;
      StepKeepsProcs(Final(sc.(events := sc.events[..m])), sc.events[m]);
    }
  }

  // ---- Every entry of every log ----

  function Before(sc: Scenario, n: nat): Scenario
    requires n <= |sc.events|
  {
    sc.(events := sc.events[..n])
  }

  /** Event `n` is the pull in which `k` folded the message at log position `i`, as it stands in its log at the end. */
  ghost predicate ReadAt(sc: Scenario, n: nat, k: PublicKey, i: nat) {
    var v := Final(sc);
    && v.relay.Some? && i < |v.relay.value.log| == |v.sent| && k in v.procs && i < |v.procs[k].client.log|
    && n < |sc.events|
    && var w := Final(Before(sc, n));
    && k in w.joined && Pulls(w, sc.events[n], k) && |w.procs[k].client.log| <= i < |w.relay.value.log|
    && ReadExactly(w.procs[k].client, v.relay.value.log[i], v.sent[i], v.procs[k].client.log[i], i)
  }

  lemma StepGrowsHistory(w: World, e: Event)
    requires w.relay.Some?
    ensures
      var v := Step(w, e);
      v.relay.Some? && w.relay.value.log <= v.relay.value.log && w.sent <= v.sent && w.joined <= v.joined
  {
    hide AfterStatus, AfterKeys, AfterPull, Pull, OnKey, Joined, Created, OnKeysPosted, SignGroupKey, Fingerprint,
         S.Fetch, S.Roster, S.Status, S.GetKey, S.WithWraps, S.TokenHash;
  }

  /** The relay's log and its history are only added to. */
  lemma {:induction false} HistoryGrows(sc: Scenario, n: nat)
    requires n <= |sc.events| && Final(Before(sc, n)).relay.Some?
    ensures
      var w, v := Final(Before(sc, n)), Final(sc);
      v.relay.Some? && w.relay.value.log <= v.relay.value.log && w.sent <= v.sent && w.joined <= v.joined
    decreases |sc.events|
  {
    hide Step;
    if n < |sc.events| {
      var m := |sc.events| - 1;
      assert sc.events[..m][..n] == sc.events[..n];
      HistoryGrows(Before(sc, m), n);
      StepGrowsHistory(Final(Before(sc, m)), sc.events[m]);
    } else {
      assert sc.events[..n] == sc.events;
    }
  }

  lemma MemberJoined(w: World, k: PublicKey)
    requires Inv(w) && IsMember(w, k)
    ensures k in w.joined
  {
    hide *;
    MemberListed(w, k);
    InvShared(w);
    StartedFacts(w);
    SharedParts(SharedOf(w));
    MemberIsJoined(SharedOf(w), k);
  }

  lemma InvShared(w: World)
    requires Inv(w) && w.relay.Some?
    ensures Started(w) && SharedOk(SharedOf(w)) && |w.relay.value.log| == |w.sent|
  {
    hide RelayOk, KeysOk, MessageOk, PartOk, T.Signed;
  }

  lemma MemberListed(w: World, k: PublicKey)
    requires IsMember(w, k)
    ensures k in w.procs && w.relay.Some? && Fingerprint(k) in w.relay.value.members
  {
  }

  /** What the pull at the end of a run reads is what its log says then. */
  lemma ReadLast(sc: Scenario, k: PublicKey, i: nat)
    requires sc.events != [] && Fits(Final(sc))
    requires var w := Final(Before(sc, |sc.events| - 1)); Pulls(w, sc.events[|sc.events| - 1], k) && |w.procs[k].client.log| <= i
    requires k in Final(sc).procs && i < |Final(sc).procs[k].client.log|
    ensures ReadAt(sc, |sc.events| - 1, k, i)
  {
    hide Inv, Fits, Step, Pulls, ReadExactly, Run, IsMember, Power10;
    var m := |sc.events| - 1;
    var w := Final(Before(sc, m));
    LastStep(sc);
    var call := StepIsPull(w, sc.events[m], k);
    MemberJoined(w, k);
    EnabledPullReads(w, sc.events[m], k);
    PullKeepsHistory(w, k, call);
  }

  lemma PullKeepsHistory(w: World, k: PublicKey, call: Call)
    requires w.relay.Some? && k in w.procs
    ensures StepPull(w, w.procs[k], k, call).relay == w.relay && StepPull(w, w.procs[k], k, call).sent == w.sent
  {
    hide Pull, AfterPull, S.Fetch;
  }

  /** What was read before the last step still stands after it. */
  lemma ReadStill(sc: Scenario, n: nat, k: PublicKey, i: nat)
    requires sc.events != [] && Fits(Final(sc)) && n < |sc.events| - 1
    requires ReadAt(Before(sc, |sc.events| - 1), n, k, i)
    ensures ReadAt(sc, n, k, i)
  {
    hide Inv, Step, Pulls, ReadExactly, Run, IsMember, Fits, Power10;
    var m := |sc.events| - 1;
    assert sc.events[..m][..n] == sc.events[..n];
    LastStep(sc);
    StepGrowsLog(Final(Before(sc, m)), sc.events[m], k);
    StepGrowsHistory(Final(Before(sc, m)), sc.events[m]);
    StepKeepsInvHistory(sc);
  }

  lemma StepKeepsInvHistory(sc: Scenario)
    requires Inv(Final(sc)) && Final(sc).relay.Some?
    ensures |Final(sc).relay.value.log| == |Final(sc).sent|
  {
    hide *;
    InvShared(Final(sc));
  }

  /**
   * For every entry of every client's log, in every reachable state: one of the client's pulls folded it, and what it
   * says is settled by what the client knew just then. So a body is the sender's plaintext or empty, and it is empty
   * exactly for the client's own messages, unverified ones, and those under a key the client did not hold at that pull.
   */
  lemma {:induction false} DeliveredBodies(sc: Scenario, k: PublicKey, i: nat)
    requires Fits(Final(sc)) && k in Final(sc).procs && i < |Final(sc).procs[k].client.log|
    ensures exists n: nat :: ReadAt(sc, n, k, i)
    decreases |sc.events|
  {
    hide Final, Step, Inv, Fits, Pulls, ReadAt;
    if sc.events == [] {
      NothingAtStart(sc, k);
    } else {
      var m := |sc.events| - 1;
      var w := Final(Before(sc, m));
      LastStep(sc);
      StepFromProcs(w, sc.events[m], k);
      if i < |w.procs[k].client.log| {
        DeliveredBodies(Before(sc, m), k, i);
        var n: nat :| ReadAt(Before(sc, m), n, k, i);
        ReadInRun(Before(sc, m), n, k, i);
        ReadStill(sc, n, k, i);
      } else if Pulls(w, sc.events[m], k) {
        ReadLast(sc, k, i);
      } else {
        OnlyPullsLog(w, sc.events[m], k);
      }
    }
  }

  lemma ReadInRun(sc: Scenario, n: nat, k: PublicKey, i: nat)
    requires ReadAt(sc, n, k, i)
    ensures n < |sc.events|
  {
    hide Final, Pulls, ReadExactly;
  }

  lemma NothingAtStart(sc: Scenario, k: PublicKey)
    requires sc.events == [] && k in Final(sc).procs
    ensures Final(sc).procs[k].client.log == []
  {
  }

  /** No step adds a client. */
  lemma StepFromProcs(w: World, e: Event, k: PublicKey)
    requires k in Step(w, e).procs
    ensures k in w.procs
  {
    hide AfterStatus, AfterKeys, AfterPull, Pull, OnKey, Joined, Created, OnKeysPosted, SignGroupKey, Fingerprint,
         S.Fetch, S.Roster, S.Status, S.GetKey, S.Init, S.Join, S.PostKeys, S.PostMessage;
  }

  /**
   * The creator knows every sender and holds every epoch key: in every reachable state an entry of its log is verified
   * exactly if nothing overtook its message, and then carries the sender's plaintext unless the message is its own.
   */
  lemma CreatorReadsAll(sc: Scenario, i: nat)
    requires Fits(Final(sc)) && Final(sc).joined != [] && Final(sc).joined[0] in Final(sc).procs
    requires i < |Final(sc).procs[Final(sc).joined[0]].client.log|
    ensures
      var v := Final(sc);
      && v.relay.Some? && i < |v.relay.value.log| == |v.sent|
      && var e, m := v.procs[v.joined[0]].client.log[i], v.relay.value.log[i];
      && (e.verified <==> v.sent[i].base == i)
      && e.body == if v.sent[i].base == i && m.senderId != Fingerprint(v.joined[0]) then v.sent[i].draft.body else ""
  {
    hide *;
    var k := Final(sc).joined[0];
    DeliveredBodies(sc, k, i);
    var n: nat :| ReadAt(sc, n, k, i);
    CreatorRead(sc, n, i);
  }

  lemma CreatorRead(sc: Scenario, n: nat, i: nat)
    requires Fits(Final(sc)) && Final(sc).joined != [] && ReadAt(sc, n, Final(sc).joined[0], i)
    ensures
      var v := Final(sc);
      && v.relay.Some? && i < |v.relay.value.log| == |v.sent| && v.joined[0] in v.procs && i < |v.procs[v.joined[0]].client.log|
      && var e, m := v.procs[v.joined[0]].client.log[i], v.relay.value.log[i];
      && (e.verified <==> v.sent[i].base == i)
      && e.body == if v.sent[i].base == i && m.senderId != Fingerprint(v.joined[0]) then v.sent[i].draft.body else ""
  {
    hide Inv, Fits, Run, Pulls, Power10, Fingerprint, Started, SharedOf;
    var k, w := Final(sc).joined[0], Final(Before(sc, n));
    ReachedBefore(sc, n);
    HistoryGrows(sc, n) by { PullsNeedRelay(w, sc.events[n], k); }
    PullsNeedRelay(w, sc.events[n], k);
    MemberJoined(w, k);
    CreatorKnows(w, i);
  }

  lemma PullsNeedRelay(w: World, e: Event, k: PublicKey)
    requires Pulls(w, e, k)
    ensures IsMember(w, k) && k in w.procs && w.relay.Some?
  {
    hide Fingerprint;
  }

  /** Every earlier state of a run that fits is itself reachable and fits. */
  lemma {:induction false} ReachedBefore(sc: Scenario, n: nat)
    requires Fits(Final(sc)) && n <= |sc.events|
    ensures Fits(Final(Before(sc, n))) && Inv(Final(Before(sc, n)))
    decreases |sc.events|
  {
    hide Inv, Fits, Step;
    if n < |sc.events| {
      var m := |sc.events| - 1;
      assert sc.events[..m][..n] == sc.events[..n];
      LastStep(sc);
      ReachedBefore(Before(sc, m), n);
    } else {
      assert sc.events[..n] == sc.events;
      EveryRunKeepsInv(sc.people, sc.kx, sc.events);
    }
  }

  lemma CreatorKnows(w: World, i: nat)
    requires Inv(w) && w.relay.Some? && i < |w.relay.value.log|
    ensures
      && w.joined != [] && w.joined[0] in w.procs
      && var c := w.procs[w.joined[0]].client;
      && c.MemberId() == Fingerprint(w.joined[0])
      && Get(c.groupKeys, w.relay.value.log[i].epoch).Some? && Get(c.membersById, w.relay.value.log[i].senderId).Some?
  {
    hide *;
    InvShared(w);
    StartedFacts(w);
    SharedParts(SharedOf(w));
    SenderBacked(SharedOf(w), i);
    CreatorName(w);
  }

  lemma CreatorName(w: World)
    requires Inv(w) && w.relay.Some?
    ensures w.joined != [] && w.joined[0] in w.procs
    ensures w.procs[w.joined[0]].client.MemberId() == Fingerprint(w.joined[0])
  {
    hide SharedOk, FoldedOk, TableOk, VaultOk, CreatorOk, PhaseOk, InboxOk, Outsider, Fingerprint;
    assert PartOk(w, w.joined[0]);
  }
}
