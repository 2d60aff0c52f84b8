/** The first half of `ensureKeys`: a status reply keeps the invariant. */
module ProtocolStatus {
  import opened Prelude
  import opened Decimals
  import opened Crypto
  import opened Message
  import opened Client
  import opened ClientFacts
  import opened Protocol
  import opened ProtocolInvariant
  import opened ProtocolGrowth
  import opened ProtocolSteps
  import S = SessionSpec
  import T = Transcript

  lemma MemberIsJoined(sh: Shared, k: PublicKey)
    requires RelayOk(sh) && Fingerprint(k) in sh.s.members
    ensures k in sh.joined
  {
    var j :| j in sh.joined && Fingerprint(j) == Fingerprint(k);
    FingerprintInjective(j, k);
  }

  /** Shared state after client `k` replaced its member cache. */
  function Recached(a: Shared, k: PublicKey, cached: JsMap<string, S.MemberInput>): Shared
    requires a.joined != []
  {
    if k == a.joined[0] then a.(known := cached) else a
  }

  lemma RecachedGrows(a: Shared, k: PublicKey, cached: JsMap<string, S.MemberInput>)
    requires SharedOk(a)
    requires k == a.joined[0] ==> forall f :: Get(a.known, f).Some? ==> Get(cached, f).Some?
    ensures Grows(a, Recached(a, k, cached))
  {
    hide SharedOk;
  }

  lemma RelaySame(a: Shared, b: Shared)
    requires RelayOk(a) && b.s == a.s && b.joined == a.joined && b.sent == a.sent && b.kx == a.kx
    ensures RelayOk(b) && b.Links() == a.Links()
  {
    hide S.Inv, T.Signed, Fingerprint;
  }

  lemma RecachedShared(a: Shared, k: PublicKey, cached: JsMap<string, S.MemberInput>)
    requires SharedOk(a)
    requires k == a.joined[0] ==> forall f :: Get(a.known, f).Some? ==> Get(cached, f).Some?
    ensures Grows(a, Recached(a, k, cached)) && SharedOk(Recached(a, k, cached))
  {
    hide RelayOk, LogOk, KeysOk, Grows, T.Signed;
    RecachedGrows(a, k, cached);
    var b := Recached(a, k, cached);
    RelaySame(a, b);
    LogGrows(a, b);
    SharedGrows(a, b);
  }

  lemma RecachedProc(a: Shared, k: PublicKey, p: Proc, cached: JsMap<string, S.MemberInput>)
    requires SharedOk(a) && SharedOk(Recached(a, k, cached)) && Grows(a, Recached(a, k, cached))
    requires ProcOk(a, k, p) && p.phase.Idle?
    requires CacheOk(a, cached)
    requires forall f :: Get(p.client.membersById, f).Some? ==> Get(cached, f).Some?
    ensures ProcOk(Recached(a, k, cached), k, p.(client := p.client.(membersById := cached)))
  {
    hide RelayOk, KeysOk, CacheOk, EntryOk, WrapsOk, MessageOk, T.Signed, Fold;
    var b := Recached(a, k, cached);
    FoldedGrows(a, b, p.client);
    CacheGrows(a, b, cached);
    VaultGrows(a, b, k, p.client, false);
    var c := p.client.(membersById := cached);
    assert FoldedOk(b, c) by {
      assert FoldedOk(b, p.client);
    }
    assert VaultOk(b, k, c, false);
  }

  lemma AfterKeysOk(sh: Shared, k: PublicKey, p: Proc, c: Client, call: Call)
    requires sh.joined != [] && |sh.sent| == |sh.s.log| <= |sh.Links()|
    requires ProcOk(sh, k, p.(client := c, phase := Idle))
    ensures ProcOk(sh, k, AfterKeys(p, c, call))
  {
  }

  lemma EveryoneBy(sh: Shared, k: PublicKey)
    requires RelayOk(sh)
    ensures k in sh.joined <==> MemberBy(sh, k, sh.s.meta.epoch)
  {
    if k in sh.joined {
      var i :| 0 <= i < |sh.joined| && sh.joined[i] == k;
    }
  }

  lemma NewWrapOk(sh: Shared, key: Bytes, i: nat)
    requires RelayOk(sh) && i < |S.Roster(sh.s.members)|
    ensures WrapOk(sh, sh.s.meta.epoch, key, WrapFor(S.Roster(sh.s.members)[i], key))
  {
    var m := S.Roster(sh.s.members)[i];
    RosterIsJoined(sh);
    assert m in S.Roster(sh.s.members);
    var k :| k in sh.joined && m.input == sh.SelfOf(k);
    EveryoneBy(sh, k);
  }

  lemma NewWrapFor(sh: Shared, key: Bytes, k: PublicKey)
    requires RelayOk(sh) && k in sh.joined
    ensures exists w <- WrapAll(S.Roster(sh.s.members), key) :: w.recipientId == Fingerprint(k)
  {
    hide RelayOk, S.Roster;
    RosterIsJoined(sh);
    WrapExists(S.Roster(sh.s.members), key, sh.SelfOf(k));
  }

  lemma WrapExists(members: seq<S.Member>, key: Bytes, self: S.MemberInput)
    requires exists m <- members :: m.input == self
    ensures exists w <- WrapAll(members, key) :: w.recipientId == self.fingerprint
  {
    var m :| m in members && m.input == self;
    var i :| 0 <= i < |members| && members[i] == m;
    assert WrapAll(members, key)[i] in WrapAll(members, key);
  }

  lemma NewWrapsOk(sh: Shared, key: Bytes)
    requires RelayOk(sh) && forall k <- sh.joined :: Get(sh.known, Fingerprint(k)).Some?
    ensures WrapsOk(sh, sh.s.meta.epoch, key, WrapAll(S.Roster(sh.s.members), key))
  {
    hide RelayOk, WrapOk, MemberBy, S.Roster;
    var e := sh.s.meta.epoch;
    var wraps := WrapAll(S.Roster(sh.s.members), key);
    forall w | w in wraps ensures WrapOk(sh, e, key, w) {
      var i :| 0 <= i < |wraps| && wraps[i] == w;
      NewWrapOk(sh, key, i);
    }
    forall k | MemberBy(sh, k, e)
      ensures Get(sh.known, Fingerprint(k)).Some? && exists w <- wraps :: w.recipientId == Fingerprint(k)
    {
      EveryoneBy(sh, k);
      NewWrapFor(sh, key, k);
    }
  }

  lemma StartPosting(sh: Shared, k: PublicKey, p: Proc, call: Call, key: Bytes)
    requires SharedOk(sh) && ProcOk(sh, k, p) && p.phase.Idle? && k == sh.joined[0]
    requires forall j <- sh.joined :: Get(sh.known, Fingerprint(j)).Some?
    requires p.client.groupKey.None? || sh.s.meta.epoch != p.client.establishedEpoch
    ensures
      var e := sh.s.meta.epoch;
      ProcOk(sh, k, p.(client := p.client.(epoch := e),
                       phase := PostingKeys(call, e, key, WrapAll(S.Roster(sh.s.members), key))))
  {
    NewWrapsOk(sh, key);
    var c := p.client.(epoch := sh.s.meta.epoch);
    assert FoldedOk(sh, c) by {
      assert FoldedOk(sh, p.client);
    }
    assert VaultOk(sh, k, c, true) && CreatorOk(sh, c, true) by {
      assert VaultOk(sh, k, p.client, false) && CreatorOk(sh, p.client, false);
    }
  }

  lemma StartFetching(sh: Shared, k: PublicKey, p: Proc, call: Call)
    requires SharedOk(sh) && ProcOk(sh, k, p) && p.phase.Idle? && k != sh.joined[0]
    ensures ProcOk(sh, k, p.(phase := FetchingKey(call, sh.s.meta.epoch, sh.s.meta.creatorId)))
  {
  }

  lemma BeginOk(w: World, who: PublicKey, call: Call, newKey: Bytes)
    requires Inv(w) && IsMember(w, who) && w.procs[who].phase.Idle?
    ensures Inv(StepBegin(w, w.procs[who], who, call, newKey))
  {
    var a, p := SharedOf(w), w.procs[who];
    MemberIsJoined(a, who);
    assert PartOk(w, who);
    var cached := CacheAll(p.client.membersById, S.Roster(a.s.members));
    var b := Recached(a, who, cached);
    BeginGrows(a, who, p);
    BeginSeen(a, who, p);
    BeginMoved(w, who, call, newKey);
    BeginProcOk(b, who, p, cached, S.Status(w.relay).value, call, newKey);
    hide *;
    BeginFinish(w, who, call, newKey, b);
  }

  lemma BeginFinish(w: World, who: PublicKey, call: Call, newKey: Bytes, b: Shared)
    requires Inv(w) && Started(w) && who in w.procs
    requires Moved(w, StepBegin(w, w.procs[who], who, call, newKey), who, b)
    requires Grows(SharedOf(w), b) && SharedOk(b)
    requires ProcOk(b, who, AfterStatus(w.procs[who], S.Status(w.relay).value, call, newKey))
    ensures Inv(StepBegin(w, w.procs[who], who, call, newKey))
  {
    hide Inv, SharedOk, ProcOk, Grows, AfterStatus;
    Finish(w, StepBegin(w, w.procs[who], who, call, newKey), who, b);
  }

  lemma BeginMoved(w: World, who: PublicKey, call: Call, newKey: Bytes)
    requires w.relay.Some? && Started(w) && who in w.procs && who in w.joined
    ensures
      var a, p := SharedOf(w), w.procs[who];
      var cached := CacheAll(p.client.membersById, S.Roster(a.s.members));
      Moved(w, StepBegin(w, p, who, call, newKey), who, Recached(a, who, cached))
  {
    hide AfterStatus, CacheAll;
    var a, p := SharedOf(w), w.procs[who];
    AfterStatusKeeps(p, S.StatusReply(a.s.meta, S.Roster(a.s.members), |a.s.log|), call, newKey);
  }

  lemma BeginCached(a: Shared, who: PublicKey, p: Proc)
    requires SharedOk(a) && ProcOk(a, who, p)
    ensures
      var cached := CacheAll(p.client.membersById, S.Roster(a.s.members));
      && CacheOk(a, cached)
      && (forall f :: Get(p.client.membersById, f).Some? ==> Get(cached, f).Some?)
      && (forall k <- a.joined :: Get(cached, Fingerprint(k)).Some?)
      && (who == a.joined[0] ==> forall f :: Get(a.known, f).Some? ==> Get(cached, f).Some?)
  {
    CacheOfProc(a, who, p);
    CacheRoster(a, p.client.membersById);
    hide *;
  }

  lemma BeginGrows(a: Shared, who: PublicKey, p: Proc)
    requires SharedOk(a) && ProcOk(a, who, p)
    ensures
      var b := Recached(a, who, CacheAll(p.client.membersById, S.Roster(a.s.members)));
      Grows(a, b) && SharedOk(b)
  {
    assert a.joined != [];
    BeginCached(a, who, p);
    hide *;
    RecachedShared(a, who, CacheAll(p.client.membersById, S.Roster(a.s.members)));
  }

  lemma BeginRecached(a: Shared, who: PublicKey, p: Proc)
    requires SharedOk(a) && ProcOk(a, who, p) && p.phase.Idle?
    ensures
      var cached := CacheAll(p.client.membersById, S.Roster(a.s.members));
      var b := Recached(a, who, cached);
      SharedOk(b) && ProcOk(b, who, p.(client := p.client.(membersById := cached)))
  {
    assert a.joined != [];
    BeginCached(a, who, p);
    BeginGrows(a, who, p);
    hide *;
    RecachedProc(a, who, p, CacheAll(p.client.membersById, S.Roster(a.s.members)));
  }

  lemma BeginSeen(a: Shared, who: PublicKey, p: Proc)
    requires SharedOk(a) && ProcOk(a, who, p) && p.phase.Idle?
    ensures
      var cached := CacheAll(p.client.membersById, S.Roster(a.s.members));
      StatusSeen(Recached(a, who, cached), who, p, cached, S.StatusReply(a.s.meta, S.Roster(a.s.members), |a.s.log|))
  {
    hide RelayOk, LogOk, KeysOk, ProcOk, Grows, CacheAll, CacheOk, S.Roster, T.Signed;
    assert a.joined != [];
    BeginRecached(a, who, p);
    BeginCached(a, who, p);
  }

  lemma CacheOfProc(sh: Shared, k: PublicKey, p: Proc)
    requires SharedOk(sh) && ProcOk(sh, k, p)
    ensures CacheOk(sh, p.client.membersById)
    ensures k == sh.joined[0] ==> sh.known == p.client.membersById
  {
    hide SharedOk, FoldedOk, CacheOk, VaultOk, PhaseOk;
  }

  lemma AfterStatusKeeps(p: Proc, status: S.StatusReply, call: Call, newKey: Bytes)
    ensures
      var after := AfterStatus(p, status, call, newKey).client;
      after.membersById == CacheAll(p.client.membersById, status.members) && after.groupKeys == p.client.groupKeys
  {
  }

  /** `before` has the status reply in hand; caching its members keeps the client's facts. */
  ghost predicate StatusSeen(sh: Shared, who: PublicKey, before: Proc, cached: JsMap<string, S.MemberInput>, status: S.StatusReply) {
    && SharedOk(sh) && before.phase.Idle?
    && status == S.StatusReply(sh.s.meta, S.Roster(sh.s.members), |sh.s.log|)
    && cached == CacheAll(before.client.membersById, status.members)
    && ProcOk(sh, who, before.(client := before.client.(membersById := cached)))
    && (forall k <- sh.joined :: Get(cached, Fingerprint(k)).Some?)
    && (who == sh.joined[0] ==> sh.known == cached)
  }

  lemma RoleTells(sh: Shared, k: PublicKey, p: Proc)
    requires SharedOk(sh) && ProcOk(sh, k, p)
    ensures p.client.role == Creator <==> k == sh.joined[0]
  {
    hide SharedOk, FoldedOk, CacheOk, VaultOk, CreatorOk, PhaseOk;
  }

  lemma SettledOk(sh: Shared, who: PublicKey, before: Proc, cached: JsMap<string, S.MemberInput>,
                  status: S.StatusReply, call: Call, newKey: Bytes)
    requires StatusSeen(sh, who, before, cached, status) && OnStatus(before.client, status, newKey).1.Settled?
    ensures ProcOk(sh, who, AfterStatus(before, status, call, newKey))
  {
    hide *;
    SeenFacts(sh, who, before, cached, status);
    SettledProc(before, status, call, newKey);
    AfterKeysOk(sh, who, before, OnStatus(before.client, status, newKey).0, call);
  }

  lemma SettledProc(before: Proc, status: S.StatusReply, call: Call, newKey: Bytes)
    requires before.phase.Idle? && OnStatus(before.client, status, newKey).1.Settled?
    ensures
      var c := OnStatus(before.client, status, newKey).0;
      && c == before.client.(membersById := CacheAll(before.client.membersById, status.members))
      && before.(client := c, phase := Idle) == before.(client := c)
      && AfterStatus(before, status, call, newKey) == AfterKeys(before, c, call)
  {
    hide CacheAll, WrapAll, AfterKeys;
  }

  lemma PostNewKeyOk(sh: Shared, who: PublicKey, before: Proc, cached: JsMap<string, S.MemberInput>,
                     status: S.StatusReply, call: Call, newKey: Bytes)
    requires StatusSeen(sh, who, before, cached, status) && OnStatus(before.client, status, newKey).1.PostNewKey?
    ensures ProcOk(sh, who, AfterStatus(before, status, call, newKey))
  {
    hide *;
    var p := before.(client := before.client.(membersById := cached));
    SeenFacts(sh, who, before, cached, status);
    RoleTells(sh, who, p);
    PostKeyProc(before, status, call, newKey);
    StartPosting(sh, who, p, call, newKey);
  }

  lemma SeenFacts(sh: Shared, who: PublicKey, before: Proc, cached: JsMap<string, S.MemberInput>, status: S.StatusReply)
    requires StatusSeen(sh, who, before, cached, status)
    ensures SharedOk(sh) && before.phase.Idle? && sh.joined != [] && |sh.sent| == |sh.s.log| <= |sh.Links()|
    ensures status == S.StatusReply(sh.s.meta, S.Roster(sh.s.members), |sh.s.log|)
    ensures cached == CacheAll(before.client.membersById, status.members)
    ensures ProcOk(sh, who, before.(client := before.client.(membersById := cached)))
    ensures who == sh.joined[0] ==> forall k <- sh.joined :: Get(sh.known, Fingerprint(k)).Some?
  {
    hide RelayOk, MessageOk, KeysOk, ProcOk, S.Roster, CacheAll, T.Signed;
  }

  lemma PostKeyProc(before: Proc, status: S.StatusReply, call: Call, newKey: Bytes)
    requires OnStatus(before.client, status, newKey).1.PostNewKey?
    ensures before.client.role == Creator
    ensures before.client.groupKey.None? || status.meta.epoch != before.client.establishedEpoch
    ensures
      var e, cached := status.meta.epoch, CacheAll(before.client.membersById, status.members);
      AfterStatus(before, status, call, newKey) ==
      before.(client := before.client.(membersById := cached, epoch := e),
              phase := PostingKeys(call, e, newKey, WrapAll(status.members, newKey)))
  {
    hide CacheAll, WrapAll;
  }

  lemma AskForKeyProc(before: Proc, status: S.StatusReply, call: Call, newKey: Bytes)
    requires OnStatus(before.client, status, newKey).1.FetchKey?
    ensures before.client.role != Creator
    ensures AfterStatus(before, status, call, newKey) ==
            before.(client := before.client.(membersById := CacheAll(before.client.membersById, status.members)))
                  .(phase := FetchingKey(call, status.meta.epoch, status.meta.creatorId))
  {
  }

  lemma AskForKeyOk(sh: Shared, who: PublicKey, before: Proc, cached: JsMap<string, S.MemberInput>,
                   status: S.StatusReply, call: Call, newKey: Bytes)
    requires StatusSeen(sh, who, before, cached, status) && OnStatus(before.client, status, newKey).1.FetchKey?
    ensures ProcOk(sh, who, AfterStatus(before, status, call, newKey))
  {
    hide *;
    var p := before.(client := before.client.(membersById := cached));
    SeenFacts(sh, who, before, cached, status);
    AskForKeyProc(before, status, call, newKey);
    RoleTells(sh, who, p);
    StartFetching(sh, who, p, call);
  }

  lemma BeginProcOk(sh: Shared, who: PublicKey, before: Proc, cached: JsMap<string, S.MemberInput>,
                    status: S.StatusReply, call: Call, newKey: Bytes)
    requires StatusSeen(sh, who, before, cached, status)
    ensures sh.joined != [] && |sh.sent| == |sh.s.log| <= |sh.Links()|
    ensures ProcOk(sh, who, AfterStatus(before, status, call, newKey))
  {
    hide *;
    SeenFacts(sh, who, before, cached, status);
    match OnStatus(before.client, status, newKey).1
    case Settled => SettledOk(sh, who, before, cached, status, call, newKey);
    case PostNewKey(_, _, _) => PostNewKeyOk(sh, who, before, cached, status, call, newKey);
    case FetchKey(_, _) => AskForKeyOk(sh, who, before, cached, status, call, newKey);
  }
}
