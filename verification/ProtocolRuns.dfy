/** Posting, joining, creating; and with them every step of every run keeps the invariant. */
module ProtocolRuns {
  import opened Prelude
  import opened Decimals
  import opened Sequences
  import opened Crypto
  import opened Message
  import opened Client
  import opened ClientFacts
  import opened Protocol
  import opened ProtocolInvariant
  import opened ProtocolGrowth
  import opened ProtocolSteps
  import opened ProtocolStatus
  import opened ProtocolPull
  import opened ProtocolKeys
  import opened ProtocolTraffic
  import T = Transcript
  import S = SessionSpec

  // ---- Posting a message ----

  function Logged(a: Shared, message: Entry, x: Sent): Shared {
    a.(s := a.s.(log := a.s.log + [message.(seqNo := |a.s.log| + 1)]), sent := a.sent + [x])
  }

  lemma LoggedGrows(a: Shared, message: Entry, x: Sent)
    ensures Grows(a, Logged(a, message, x))
  {
  }

  lemma LoggedRelay(a: Shared, message: Entry, x: Sent)
    requires RelayOk(a) && message.senderId in a.s.members
    ensures RelayOk(Logged(a, message, x))
  {
  }

  lemma RenumberedOk(sh: Shared, message: Entry, x: Sent, n: int)
    requires MessageOk(sh, message, x)
    ensures MessageOk(sh, message.(seqNo := n), x)
  {
    hide T.Signed;
  }

  lemma LoggedLog(a: Shared, message: Entry, x: Sent)
    requires LogOk(a) && |a.Links()| == |a.s.log| && MessageOk(a, message, x)
    ensures LogOk(Logged(a, message, x))
  {
    var b, n := Logged(a, message, x), |a.s.log|;
    LoggedGrows(a, message, x);
    assert x.base <= n;
    forall i | 0 <= i <= n ensures MessageOk(b, b.s.log[i], b.sent[i]) && b.sent[i].base <= i {
      if i < n {
        assert MessageOk(a, a.s.log[i], a.sent[i]) && a.sent[i].base <= i;
        hide LogOk, MessageOk, Grows;
        MessageGrows(a, b, a.s.log[i], a.sent[i]);
      } else {
        hide LogOk, MessageOk, Grows;
        MessageGrows(a, b, message, x);
        RenumberedOk(b, message, x, n + 1);
      }
    }
  }

  lemma LoggedShared(a: Shared, message: Entry, x: Sent)
    requires SharedOk(a) && MessageOk(a, message, x)
    ensures SharedOk(Logged(a, message, x)) && Grows(a, Logged(a, message, x))
  {
    var b := Logged(a, message, x);
    assert message.senderId in a.s.members by { assert x.sender in a.joined; }
    LoggedGrows(a, message, x);
    LoggedRelay(a, message, x);
    hide RelayOk, KeysOk, MessageOk, Grows;
    LoggedLog(a, message, x);
    hide LogOk;
    AllLinked(b);
    SharedGrows(a, b);
  }

  lemma IdleAfterPost(sh: Shared, k: PublicKey, p: Proc)
    requires SharedOk(sh) && ProcOk(sh, k, p) && p.phase.Posting?
    ensures ProcOk(sh, k, p.(phase := Idle))
    ensures MessageOk(sh, p.phase.message, Sent(k, p.phase.draft, p.phase.base))
  {
    hide SharedOk, FoldedOk, TableOk, VaultOk, CreatorOk, IdentityOk, MessageOk;
  }

  lemma PostMoved(w: World, who: PublicKey)
    requires Started(w) && who in w.procs && who in w.joined && w.procs[who].phase.Posting?
    requires w.procs[who].phase.message.senderId in w.relay.value.members
    ensures
      var p := w.procs[who];
      var v := StepPost(w, p, who);
      && v.procs[who] == p.(phase := Idle)
      && Moved(w, v, who, Logged(SharedOf(w), p.phase.message, Sent(who, p.phase.draft, p.phase.base)))
  {
  }

  lemma SenderIsMember(sh: Shared, m: Entry, x: Sent)
    requires RelayOk(sh) && MessageOk(sh, m, x)
    ensures m.senderId in sh.s.members
  {
  }

  lemma PostMessageOk(w: World, who: PublicKey)
    requires Inv(w) && IsMember(w, who) && w.procs[who].phase.Posting?
    ensures Inv(StepPost(w, w.procs[who], who))
  {
    var a, p := SharedOf(w), w.procs[who];
    MemberIsJoined(a, who);
    assert PartOk(w, who);
    assert RelayOk(a);
    PostFinish(w, who);
  }

  lemma PostFinish(w: World, who: PublicKey)
    requires Inv(w) && Started(w) && who in w.procs && who in w.joined && w.procs[who].phase.Posting?
    requires SharedOk(SharedOf(w)) && RelayOk(SharedOf(w)) && ProcOk(SharedOf(w), who, w.procs[who])
    ensures Inv(StepPost(w, w.procs[who], who))
  {
    hide Inv, SharedOk, RelayOk, ProcOk, MessageOk, Grows, Logged, StepPost;
    var a, p := SharedOf(w), w.procs[who];
    IdleAfterPost(a, who, p);
    var x := Sent(who, p.phase.draft, p.phase.base);
    SenderIsMember(a, p.phase.message, x);
    LoggedShared(a, p.phase.message, x);
    PostMoved(w, who);
    var b := Logged(a, p.phase.message, x);
    assert a.vault == b.vault && a.known == b.known;
    ProcGrows(a, b, who, p.(phase := Idle));
    Finish(w, StepPost(w, p, who), who, b);
  }

  // ---- Joining ----

  function Enlarged(a: Shared, s: S.State, who: PublicKey): Shared {
    a.(s := s, joined := a.joined + [who])
  }

  /** `s` is the session after `who` joined it. */
  ghost predicate JoinedBy(a: Shared, s: S.State, who: PublicKey) {
    exists token :: S.Join(Some(a.s), token, a.SelfOf(who)) == Ok(s)
  }

  lemma EnlargedGrows(a: Shared, s: S.State, who: PublicKey)
    requires JoinedBy(a, s, who)
    ensures Grows(a, Enlarged(a, s, who)) && s.log == a.s.log && s.keys == a.s.keys
  {
  }

  lemma EnlargedRelay(a: Shared, s: S.State, who: PublicKey)
    requires RelayOk(a) && a.joined != [] && JoinedBy(a, s, who)
    ensures RelayOk(Enlarged(a, s, who))
  {
    hide *;
    RelayInv(a);
    JoinedMembers(a, s, who);
    EnlargedCounts(a, s, who);
    EnlargedListed(a, s, who);
    EnlargedJoined(a, s, who);
    RelayIntro(Enlarged(a, s, who));
  }

  lemma RelayInv(sh: Shared)
    requires RelayOk(sh)
    ensures S.Inv(sh.s)
  {
    hide S.Inv, Fingerprint;
  }

  lemma RelayIntro(sh: Shared)
    requires S.Inv(sh.s) && |sh.joined| == sh.s.meta.epoch + 1 && |sh.sent| == |sh.s.log|
    requires forall i, j :: 0 <= i < j < |sh.joined| ==> sh.joined[i] != sh.joined[j]
    requires forall k <- sh.joined :: Fingerprint(k) in sh.s.members && sh.s.members[Fingerprint(k)].input == sh.SelfOf(k)
    requires forall f <- sh.s.members :: exists k <- sh.joined :: Fingerprint(k) == f
    requires sh.joined != [] && sh.s.meta.creatorId == Fingerprint(sh.joined[0])
    ensures RelayOk(sh)
  {
    hide S.Inv, Fingerprint;
  }

  lemma EnlargedCounts(a: Shared, s: S.State, who: PublicKey)
    requires RelayOk(a) && a.joined != [] && Fingerprint(who) !in a.s.members
    requires s.meta.epoch == a.s.meta.epoch + 1 && s.meta.creatorId == a.s.meta.creatorId && s.log == a.s.log
    ensures
      var b := Enlarged(a, s, who);
      && b.s == s && |b.joined| == s.meta.epoch + 1 && |b.sent| == |s.log| && b.joined != []
      && s.meta.creatorId == Fingerprint(b.joined[0])
      && forall i, j :: 0 <= i < j < |b.joined| ==> b.joined[i] != b.joined[j]
  {
    hide S.Inv, Fingerprint;
    var b := Enlarged(a, s, who);
    assert b.joined[0] == a.joined[0];
    forall i, j | 0 <= i < j < |b.joined| ensures b.joined[i] != b.joined[j] {
      assert b.joined[i] == a.joined[i] && a.joined[i] in a.joined;
      assert j < |a.joined| ==> b.joined[j] == a.joined[j];
    }
  }

  lemma EnlargedListed(a: Shared, s: S.State, who: PublicKey)
    requires RelayOk(a) && Fingerprint(who) in s.members && s.members[Fingerprint(who)].input == a.SelfOf(who)
    requires forall f <- a.s.members :: f in s.members && s.members[f] == a.s.members[f]
    ensures forall k <- Enlarged(a, s, who).joined ::
              Fingerprint(k) in s.members && s.members[Fingerprint(k)].input == Enlarged(a, s, who).SelfOf(k)
  {
    hide S.Inv, Fingerprint;
    forall k | k in Enlarged(a, s, who).joined
      ensures Fingerprint(k) in s.members && s.members[Fingerprint(k)].input == Enlarged(a, s, who).SelfOf(k)
    {
      assert k == who || k in a.joined;
    }
  }

  lemma EnlargedJoined(a: Shared, s: S.State, who: PublicKey)
    requires RelayOk(a) && s.members.Keys == a.s.members.Keys + {Fingerprint(who)}
    ensures forall f <- s.members :: exists k <- Enlarged(a, s, who).joined :: Fingerprint(k) == f
  {
    hide S.Inv, Fingerprint;
    var b := Enlarged(a, s, who);
    assert b.joined[|a.joined|] == who;
    forall f | f in s.members ensures exists k <- b.joined :: Fingerprint(k) == f {
      if f in a.s.members {
        var k :| k in a.joined && Fingerprint(k) == f;
        assert k in b.joined;
      } else {
        assert who in b.joined;
      }
    }
  }

  /** A join adds exactly the new member, at the next epoch. */
  lemma JoinedMembers(a: Shared, s: S.State, who: PublicKey)
    requires S.Inv(a.s) && JoinedBy(a, s, who)
    ensures S.Inv(s) && Fingerprint(who) !in a.s.members
    ensures s.members.Keys == a.s.members.Keys + {Fingerprint(who)} && s.members[Fingerprint(who)].input == a.SelfOf(who)
    ensures forall f <- a.s.members :: f in s.members && s.members[f] == a.s.members[f]
    ensures s.meta.epoch == a.s.meta.epoch + 1 && s.meta.creatorId == a.s.meta.creatorId && s.log == a.s.log
  {
    hide S.Inv, S.Extends, S.Roster, S.TokenHash, Fingerprint;
    var token :| S.Join(Some(a.s), token, a.SelfOf(who)) == Ok(s);
    S.RequestKeepsInv(Some(a.s), S.JoinRequest(token, a.SelfOf(who)));
  }

  lemma EnlargedShared(a: Shared, s: S.State, who: PublicKey)
    requires SharedOk(a) && JoinedBy(a, s, who)
    ensures SharedOk(Enlarged(a, s, who)) && Grows(a, Enlarged(a, s, who))
  {
    hide RelayOk, LogOk, KeysOk, Grows, JoinedBy;
    assert a.joined != [];
    EnlargedGrows(a, s, who);
    EnlargedRelay(a, s, who);
    var b := Enlarged(a, s, who);
    assert b.Links() == a.Links();
    LogGrows(a, b);
    SharedGrows(a, b);
  }

  lemma CreatorIsFound(sh: Shared)
    requires RelayOk(sh) && sh.joined != []
    ensures
      var found := FindMember(S.Roster(sh.s.members), sh.s.meta.creatorId);
      found.Some? && found.value.input == sh.SelfOf(sh.joined[0])
  {
    var roster := S.Roster(sh.s.members);
    RosterIsJoined(sh);
    FindMemberFinds(roster, sh.s.meta.creatorId);
    var m :| m in roster && m.input == sh.SelfOf(sh.joined[0]);
    var found := FindMember(roster, sh.s.meta.creatorId);
    var k :| k in sh.joined && found.value.input == sh.SelfOf(k);
    FingerprintInjective(k, sh.joined[0]);
  }

  ghost predicate FreshClient(sh: Shared, k: PublicKey, c: Client) {
    c == NewClient(k, sh.kx(k)).(sessionId := c.sessionId, role := c.role, creatorFingerprint := c.creatorFingerprint)
  }

  lemma JoinerClient(sh: Shared, k: PublicKey, c: Client)
    requires SharedOk(sh) && FreshClient(sh, k, c) && k in sh.joined
    ensures
      var d := Joined(c, sh.Sid(), sh.s.meta.creatorId, Some((S.Roster(sh.s.members), sh.s.meta.epoch)));
      && d == NewClient(k, sh.kx(k)).(sessionId := sh.Sid(), role := Joiner, creatorFingerprint := Fingerprint(sh.joined[0]),
                                      epoch := sh.s.meta.epoch, membersById := d.membersById)
      && TableOk(sh, k, d.membersById)
  {
    CreatorIsFound(sh);
    hide LogOk, KeysOk;
    CacheRoster(sh, []);
    hide CacheOk, CacheAll;
  }

  /** A joiner starts with an empty log and no keys. */
  lemma JoinerProc(sh: Shared, k: PublicKey, p: Proc, d: Client)
    requires SharedOk(sh) && k in sh.joined && k != sh.joined[0] && p.phase.Idle? && p.inbox == []
    requires d == NewClient(k, sh.kx(k)).(sessionId := sh.Sid(), role := Joiner, creatorFingerprint := Fingerprint(sh.joined[0]),
                                          epoch := d.epoch, membersById := d.membersById)
    requires TableOk(sh, k, d.membersById)
    ensures ProcOk(sh, k, p.(client := d))
  {
    hide RelayOk, LogOk, KeysOk, TableOk;
    assert sh.Links()[..0] == [];
  }

  lemma JoinedProc(sh: Shared, k: PublicKey, p: Proc)
    requires SharedOk(sh) && k in sh.joined && k != sh.joined[0] && p.phase.Idle? && p.inbox == []
    requires FreshClient(sh, k, p.client)
    ensures ProcOk(sh, k, p.(client := Joined(p.client, sh.Sid(), sh.s.meta.creatorId,
                                              Some((S.Roster(sh.s.members), sh.s.meta.epoch)))))
  {
    JoinerClient(sh, k, p.client);
    assert sh.joined != [] && |sh.sent| == |sh.s.log| <= |sh.Links()|;
    hide SharedOk, ProcOk, TableOk, Joined;
    JoinerProc(sh, k, p, Joined(p.client, sh.Sid(), sh.s.meta.creatorId, Some((S.Roster(sh.s.members), sh.s.meta.epoch))));
  }

  /** The session a successful join leaves: the same id and creator, and only new members may join it. */
  lemma JoinFacts(w: World, who: PublicKey, token: string, s: S.State)
    requires Started(w) && S.Join(w.relay, token, SharedOf(w).SelfOf(who)) == Ok(s)
    requires RelayOk(SharedOf(w))
    ensures JoinedBy(SharedOf(w), s, who) && s.meta.sessionId == w.relay.value.meta.sessionId
    ensures s.meta.creatorId == w.relay.value.meta.creatorId && who !in w.joined
  {
  }

  lemma JoinMoved(w: World, who: PublicKey, token: string, s: S.State)
    requires Started(w) && who in w.procs && who !in w.joined
    requires S.Join(w.relay, token, w.procs[who].client.Self()) == Ok(s)
    requires s.meta.sessionId == w.relay.value.meta.sessionId && s.meta.creatorId == w.relay.value.meta.creatorId
    ensures
      var p := w.procs[who];
      var v := StepJoin(w, p, who, token);
      && Moved(w, v, who, Enlarged(SharedOf(w), s, who))
      && v.procs[who] == p.(client := Joined(p.client, s.meta.sessionId, s.meta.creatorId,
                                             Some((S.Roster(s.members), s.meta.epoch))))
  {
    hide Joined;
  }

  lemma JoinAccepted(w: World, who: PublicKey, token: string, s: S.State)
    requires Inv(w) && Started(w) && who in w.procs && who !in w.joined
    requires SharedOk(SharedOf(w)) && RelayOk(SharedOf(w)) && Outsider(w, who, w.procs[who])
    requires S.Join(w.relay, token, w.procs[who].client.Self()) == Ok(s)
    ensures Inv(StepJoin(w, w.procs[who], who, token))
  {
    var a, p := SharedOf(w), w.procs[who];
    assert FreshClient(a, who, p.client) && p.phase.Idle? && p.inbox == [];
    assert p.client.Self() == a.SelfOf(who);
    hide Inv, SharedOk, RelayOk, Outsider, S.Join;
    JoinFacts(w, who, token, s);
    JoinMoved(w, who, token, s);
    EnlargedShared(a, s, who);
    var b := Enlarged(a, s, who);
    assert b.joined[0] == a.joined[0] == w.joined[0];
    hide JoinedBy, StepJoin, FreshClient, Grows;
    JoinedProc(b, who, p);
    Finish(w, StepJoin(w, p, who, token), who, b);
  }

  lemma JoinRefused(w: World, who: PublicKey, token: string)
    requires Inv(w) && Started(w) && who in w.procs && who !in w.joined
    requires SharedOk(SharedOf(w)) && Outsider(w, who, w.procs[who])
    requires S.Join(w.relay, token, w.procs[who].client.Self()).Err?
    ensures Inv(StepJoin(w, w.procs[who], who, token))
  {
    hide *;
    StartedRelay(w);
    RefusedMoved(w, who, token);
    GrowsSame(SharedOf(w));
    RefusedPart(w, StepJoin(w, w.procs[who], who, token), who);
    Assemble(w, StepJoin(w, w.procs[who], who, token), who);
  }

  lemma StartedRelay(w: World)
    requires Started(w)
    ensures w.relay.Some?
  {
  }

  lemma RefusedMoved(w: World, who: PublicKey, token: string)
    requires Started(w) && w.relay.Some? && who in w.procs && who !in w.joined && Outsider(w, who, w.procs[who])
    requires S.Join(w.relay, token, w.procs[who].client.Self()).Err?
    ensures
      var v := StepJoin(w, w.procs[who], who, token);
      && Started(v) && SharedOf(v) == SharedOf(w) && v.joined == w.joined && v.procs.Keys == w.procs.Keys
      && (forall k <- w.procs :: k != who ==> v.procs[k] == w.procs[k])
      && Outsider(v, who, v.procs[who])
  {
    hide S.Join;
  }

  lemma RefusedPart(w: World, v: World, who: PublicKey)
    requires Started(v) && SharedOk(SharedOf(v)) && who in v.procs && who !in v.joined && Outsider(v, who, v.procs[who])
    ensures PartOk(v, who)
  {
    hide SharedOk, ProcOk, Outsider;
  }

  lemma JoinOk(w: World, who: PublicKey, token: string)
    requires Inv(w) && w.relay.Some? && who in w.procs && w.procs[who].phase.Idle? && !IsMember(w, who)
    ensures Inv(StepJoin(w, w.procs[who], who, token))
  {
    var a, p := SharedOf(w), w.procs[who];
    assert RelayOk(a) && who !in w.joined;
    assert PartOk(w, who);
    hide Inv, SharedOk, RelayOk, Outsider, S.Join;
    match S.Join(w.relay, token, p.client.Self())
    case Ok(s) => JoinAccepted(w, who, token, s);
    case Err(_) => JoinRefused(w, who, token);
  }

  // ---- Creating ----

  lemma FirstShared(sh: Shared, who: PublicKey, sessionId: string, maxMembers: int, token: string)
    requires S.Init(None, sessionId, maxMembers, sh.SelfOf(who), token) == Ok(sh.s)
    requires sh.joined == [who] && sh.sent == [] && sh.vault == []
    ensures SharedOk(sh)
  {
    assert S.Inv(sh.s);
    assert who in sh.joined;
  }

  lemma FirstProc(sh: Shared, who: PublicKey, p: Proc, d: Client)
    requires SharedOk(sh) && sh.joined == [who] && sh.sent == [] && sh.vault == [] && sh.known == d.membersById
    requires d == NewClient(who, sh.kx(who)).(sessionId := sh.Sid(), role := Creator, creatorFingerprint := Fingerprint(who),
                                              membersById := [(Fingerprint(who), sh.SelfOf(who))])
    requires p.phase.Idle? && p.inbox == []
    ensures ProcOk(sh, who, p.(client := d))
  {
    hide LogOk, KeysOk;
    assert |sh.s.log| == 0 && sh.s.meta.epoch == 0;
    assert who in sh.joined;
  }

  lemma CreateOk(w: World, who: PublicKey, maxMembers: int, sessionId: string, token: string)
    requires Inv(w) && w.relay.None? && who in w.procs
    ensures Inv(StepCreate(w, w.procs[who], who, maxMembers, sessionId, token))
  {
    var p := w.procs[who];
    var v := StepCreate(w, p, who, maxMembers, sessionId, token);
    if v.relay.Some? {
      assert Outsider(w, who, p);
      var sh := SharedOf(v);
      FirstShared(sh, who, sessionId, maxMembers, token);
      FirstProc(sh, who, p, v.procs[who].client);
      hide SharedOk, ProcOk, S.Init;
      forall k | k in v.procs ensures PartOk(v, k) {
        if k != who {
          assert Outsider(w, k, w.procs[k]);
        }
      }
    }
  }

  // ---- Every run ----

  function LogSize(w: World): nat {
    if w.relay.Some? then |w.relay.value.log| else 0
  }

  /** Relay sequence numbers have not outgrown their twelve digits. */
  predicate Fits(w: World) { LogSize(w) < Power10(S.LOG_WIDTH) }

  lemma StepOk(w: World, e: Event)
    requires Inv(w) && Fits(w)
    ensures Inv(Step(w, e))
  {
    hide Inv, StepCreate, StepJoin, StepBegin, StepPostKeys, StepFetchKey, StepPull, StepPost;
    if e.who in w.procs {
      var p := w.procs[e.who];
      match e
      case CreateSession(who, maxMembers, sessionId, token) =>
        if w.relay.None? && p.phase.Idle? { CreateOk(w, who, maxMembers, sessionId, token); }
      case JoinSession(who, token) =>
        if w.relay.Some? && p.phase.Idle? && !IsMember(w, who) { JoinOk(w, who, token); }
      case Begin(who, call, newKey) =>
        if IsMember(w, who) && p.phase.Idle? { BeginOk(w, who, call, newKey); }
      case PostKeys(who) =>
        if IsMember(w, who) && p.phase.PostingKeys? { PostKeysOk(w, who); }
      case FetchKey(who) =>
        if IsMember(w, who) && p.phase.FetchingKey? { FetchKeyOk(w, who); }
      case PullMessages(who) =>
        if IsMember(w, who) && p.phase.Pulling? { PullOk(w, who, p.phase.call); }
      case PostMessage(who) =>
        if IsMember(w, who) && p.phase.Posting? { PostMessageOk(w, who); }
      case BeginExport(who) =>
        if IsMember(w, who) && p.phase.Idle? { PullOk(w, who, SettleCall); }
    }
  }

  lemma StepLogGrows(w: World, e: Event)
    ensures LogSize(w) <= LogSize(Step(w, e))
  {
    hide OnStatus, OnKey, Pull, Joined, AfterKeys, AfterPull, AfterStatus, S.Fetch, S.Roster, S.WithWraps;
  }

  lemma StartOk(people: set<PublicKey>, kx: PublicKey -> PublicKey)
    ensures Inv(Start(people, kx))
  {
  }

  /** The invariant holds after every sequence of events, whatever their order. */
  lemma {:induction false} EveryRunKeepsInv(people: set<PublicKey>, kx: PublicKey -> PublicKey, events: seq<Event>)
    requires Fits(Run(Start(people, kx), events))
    ensures Inv(Run(Start(people, kx), events))
  {
    var start := Start(people, kx);
    if events == [] {
      StartOk(people, kx);
    } else {
      var n := |events| - 1;
      StepLogGrows(Run(start, events[..n]), events[n]);
      EveryRunKeepsInv(people, kx, events[..n]);
      StepOk(Run(start, events[..n]), events[n]);
    }
  }
}
