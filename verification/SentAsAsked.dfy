/** Nothing is sent that no caller asked for: the relay's messages are the callers' drafts, in order, each at most once. */
module SentAsAsked {
  import opened Prelude
  import opened Decimals
  import opened Sequences
  import opened Crypto
  import opened Message
  import opened Client
  import opened Protocol
  import opened ProtocolInvariant
  import opened ProtocolSteps
  import opened ProtocolRuns
  import opened Guarantees
  import opened Reading
  import S = SessionSpec
  import T = Transcript

  /**
   * Message `i` of the log is what its sender's caller asked to send: type, reference and nonce as given, in the clear
   * fields and in what was signed, and the plaintext sealed under the creator's key for the message's epoch.
   */
  lemma MessagesAreDrafts(sc: Scenario, i: nat)
    requires Fits(Final(sc)) && Final(sc).joined != []
    requires Final(sc).relay.Some? && i < |Final(sc).relay.value.log|
    ensures
      var w := Final(sc);
      && i < |w.sent| && Started(w)
      && var m, x, sid := w.relay.value.log[i], w.sent[i], w.relay.value.meta.sessionId;
      && x.sender in w.joined && m.senderId == Fingerprint(x.sender) && m.seqNo == i + 1
      && m.messageType == x.draft.messageType && m.ref == x.draft.ref
      && Decode(sid, m).Some?
      && var env := Decode(sid, m).value;
      && env.messageType == x.draft.messageType && env.ref == x.draft.ref && env.nonce == x.draft.nonce
      && env.sessionId == sid && env.senderId == m.senderId && env.epoch == m.epoch
      && m.signature == HexField(SignMessage(env, x.sender))
      && Get(w.procs[w.joined[0]].client.groupKeys, m.epoch).Some?
      && env.ciphertext == Encrypt(Get(w.procs[w.joined[0]].client.groupKeys, m.epoch).value, env.nonce,
                                   AssociatedData(sid, m.epoch, m.senderId), x.draft.body)
  {
    hide *;
    FirstOk(sc);
    StartedFacts(Final(sc));
    SharedParts(SharedOf(Final(sc)));
    SidIs(SharedOf(Final(sc)));
    DraftAt(SharedOf(Final(sc)), i);
    NumberAt(SharedOf(Final(sc)), i);
  }

  lemma FirstOk(sc: Scenario)
    requires Fits(Final(sc)) && Final(sc).joined != []
    ensures Started(Final(sc)) && SharedOk(SharedOf(Final(sc)))
  {
    hide *;
    FinalOk(sc, Final(sc).joined[0]);
  }

  lemma NumberAt(sh: Shared, i: nat)
    requires RelayOk(sh) && i < |sh.s.log|
    ensures sh.s.log[i].seqNo == i + 1
  {
    hide Fingerprint;
  }

  lemma DraftAt(sh: Shared, i: nat)
    requires LogOk(sh) && i < |sh.s.log|
    ensures
      var m, x := sh.s.log[i], sh.sent[i];
      && x.sender in sh.joined && m.senderId == Fingerprint(x.sender)
      && m.messageType == x.draft.messageType && m.ref == x.draft.ref
      && Decode(sh.Sid(), m).Some?
      && var env := Decode(sh.Sid(), m).value;
      && env.messageType == x.draft.messageType && env.ref == x.draft.ref && env.nonce == x.draft.nonce
      && env.sessionId == sh.Sid() && env.senderId == m.senderId && env.epoch == m.epoch
      && m.signature == HexField(SignMessage(env, x.sender))
      && Get(sh.vault, m.epoch).Some?
      && env.ciphertext == Encrypt(Get(sh.vault, m.epoch).value, env.nonce, AssociatedData(sh.Sid(), m.epoch, m.senderId), x.draft.body)
  {
    hide T.Signed, Fold, Fingerprint, SigningBytes;
    assert MessageOk(sh, sh.s.log[i], sh.sent[i]);
  }

  // ---- Delivery ----

  /** What a client is told of the messages others asked to send: numbered by place, with the type and reference asked for. */
  function AskedOf(sessionId: string, log: seq<Entry>, sent: seq<Sent>, me: PublicKey): seq<Notice>
    requires |log| == |sent|
  {
    if sent == [] then []
    else
      var n := |sent| - 1;
      var id := match Decode(sessionId, log[n]) case Some(env) => MessageId(env) case None => [];
      AskedOf(sessionId, log[..n], sent[..n], me)
      + if sent[n].sender == me then []
        else [Notice(n + 1, id, Fingerprint(sent[n].sender), sent[n].draft.messageType, sent[n].draft.ref)]
  }

  /** Everything a client was ever handed is what the others asked to send, in the order of the log, each once. */
  lemma DeliveredAsAsked(sc: Scenario, k: PublicKey)
    requires Fits(Final(sc)) && k in Final(sc).joined
    ensures
      var w := Final(sc);
      && w.relay.Some? && k in w.procs
      && var p, s := w.procs[k], w.relay.value;
      && 0 <= p.client.inboxSeq <= |s.log| == |w.sent|
      && Notices(p.inbox) == AskedOf(s.meta.sessionId, s.log[..p.client.inboxSeq], w.sent[..p.client.inboxSeq], k)
  {
    hide *;
    DeliveredExactlyOnce(sc, k);
    FirstOk(sc);
    StartedFacts(Final(sc));
    SharedParts(SharedOf(Final(sc)));
    SidIs(SharedOf(Final(sc)));
    OthersAsked(SharedOf(Final(sc)), k, Final(sc).procs[k].client.inboxSeq);
  }

  lemma {:induction false} OthersAsked(sh: Shared, k: PublicKey, n: nat)
    requires RelayOk(sh) && LogOk(sh) && n <= |sh.s.log| == |sh.sent|
    ensures FromOthers(sh.Sid(), sh.s.log[..n], Fingerprint(k)) == AskedOf(sh.Sid(), sh.s.log[..n], sh.sent[..n], k)
  {
    hide *;
    var log, sent := sh.s.log, sh.sent;
    if n == 0 {
      assert log[..0] == [] && sent[..0] == [];
      NobodyAsked(sh.Sid(), k);
    } else {
      OthersAsked(sh, k, n - 1);
      DraftAt(sh, n - 1);
      NumberAt(sh, n - 1);
      PrefixStep(log, n - 1);
      PrefixStep(sent, n - 1);
      NextFromOthers(sh.Sid(), log[..n - 1], log[n - 1], Fingerprint(k));
      NextAsked(sh.Sid(), log[..n - 1], sent[..n - 1], log[n - 1], sent[n - 1], k);
      if Fingerprint(sent[n - 1].sender) == Fingerprint(k) {
        FingerprintInjective(sent[n - 1].sender, k);
      }
    }
  }

  lemma NobodyAsked(sid: string, k: PublicKey)
    ensures FromOthers(sid, [], Fingerprint(k)) == AskedOf(sid, [], [], k)
  {
  }

  lemma NextAsked(sid: string, log: seq<Entry>, sent: seq<Sent>, m: Entry, x: Sent, k: PublicKey)
    requires |log| == |sent| && Decode(sid, m).Some?
    ensures AskedOf(sid, log + [m], sent + [x], k) ==
            AskedOf(sid, log, sent, k) + if x.sender == k then []
                                         else [Notice(|log| + 1, MessageId(Decode(sid, m).value), Fingerprint(x.sender),
                                                      x.draft.messageType, x.draft.ref)]
  {
    hide Decode, Fingerprint;
    assert (log + [m])[..|log|] == log && (sent + [x])[..|sent|] == sent;
  }

  // ---- Order ----

  /** What callers asked `k` to send, in order. */
  function Asks(events: seq<Event>, k: PublicKey): seq<Draft> {
    if events == [] then []
    else
      var e := events[|events| - 1];
      Asks(events[..|events| - 1], k) + if e.Begin? && e.who == k && e.call.SendCall? then [e.call.draft] else []
  }

  function SentBy(sent: seq<Sent>, k: PublicKey): seq<Draft> {
    if sent == [] then []
    else
      var x := sent[|sent| - 1];
      SentBy(sent[..|sent| - 1], k) + if x.sender == k then [x.draft] else []
  }

  function DraftOf(call: Call): seq<Draft> { if call.SendCall? then [call.draft] else [] }

  /** The draft a client is about to send. */
  function Pending(phase: Phase): seq<Draft> {
    match phase
    case Idle => []
    case PostingKeys(call, _, _, _) => DraftOf(call)
    case FetchingKey(call, _, _) => DraftOf(call)
    case Pulling(call) => DraftOf(call)
    case Posting(_, draft, _) => [draft]
  }

  /** `a` is `b` with some elements left out. */
  ghost predicate Within<T>(a: seq<T>, b: seq<T>) {
    a == [] || (b != [] && (Within(a, b[..|b| - 1]) || (a[|a| - 1] == b[|b| - 1] && Within(a[..|a| - 1], b[..|b| - 1]))))
  }

  lemma WithinMore<T>(a: seq<T>, b: seq<T>, x: T)
    requires Within(a, b)
    ensures Within(a, b + [x]) && Within(a + [x], b + [x])
  {
    assert (b + [x])[..|b|] == b && (a + [x])[..|a|] == a;
  }

  lemma {:induction false} WithinLess<T>(a: seq<T>, x: T, b: seq<T>)
    requires Within(a + [x], b)
    ensures Within(a, b)
  {
    if a != [] {
      var c := b[..|b| - 1];
      assert (a + [x])[..|a|] == a && b == c + [b[|b| - 1]];
      if Within(a + [x], c) {
        WithinLess(a, x, c);
      }
      WithinMore(a, c, b[|b| - 1]);
    }
  }

  lemma SentOneMore(sent: seq<Sent>, x: Sent, k: PublicKey)
    ensures SentBy(sent + [x], k) == SentBy(sent, k) + if x.sender == k then [x.draft] else []
  {
    assert (sent + [x])[..|sent|] == sent;
  }

  /** How one step changes what a client has sent or is about to send. */
  ghost predicate Follows(w: World, e: Event, v: World, k: PublicKey)
    requires k in w.procs && k in v.procs
  {
    var before, after := SentBy(w.sent, k) + Pending(w.procs[k].phase), SentBy(v.sent, k) + Pending(v.procs[k].phase);
    || after == before
    || (Pending(w.procs[k].phase) != [] && after == SentBy(w.sent, k))
    || (e.Begin? && e.who == k && e.call.SendCall? && after == before + [e.call.draft])
  }

  lemma OthersFollow(w: World, e: Event, k: PublicKey)
    requires k in w.procs && e.who != k
    ensures k in Step(w, e).procs && Follows(w, e, Step(w, e), k)
  {
    BystanderUntouched(w, e, k);
    hide *;
    OthersSent(w, e, k);
    FollowsSame(w, e, Step(w, e), k);
  }

  lemma FollowsSame(w: World, e: Event, v: World, k: PublicKey)
    requires k in w.procs && k in v.procs && v.procs[k] == w.procs[k] && SentBy(v.sent, k) == SentBy(w.sent, k)
    ensures Follows(w, e, v, k)
  {
  }

  lemma OthersSent(w: World, e: Event, k: PublicKey)
    requires e.who != k
    ensures SentBy(Step(w, e).sent, k) == SentBy(w.sent, k)
  {
    hide AfterStatus, AfterKeys, AfterPull, Pull, OnKey, Joined, Created, OnKeysPosted, SignGroupKey, Fingerprint,
         S.Fetch, S.Roster, S.Status, S.GetKey, S.Init, S.Join, S.PostKeys, S.PostMessage, SentBy;
    forall x: Sent ensures SentBy(w.sent + [x], k) == SentBy(w.sent, k) + if x.sender == k then [x.draft] else [] {
      SentOneMore(w.sent, x, k);
    }
  }

  lemma KeysPending(p: Proc, c: Client, call: Call)
    ensures Pending(AfterKeys(p, c, call).phase) == DraftOf(call) || Pending(AfterKeys(p, c, call).phase) == []
  {
  }

  lemma StatusPending(p: Proc, status: S.StatusReply, call: Call, newKey: Bytes)
    ensures Pending(AfterStatus(p, status, call, newKey).phase) == DraftOf(call)
            || Pending(AfterStatus(p, status, call, newKey).phase) == []
  {
    hide CacheAll, WrapAll;
  }

  lemma PullPending(p: Proc, c: Client, call: Call, logged: nat)
    ensures Pending(AfterPull(p, c, call, logged).phase) == DraftOf(call) || Pending(AfterPull(p, c, call, logged).phase) == []
  {
    hide Deliver, ComposeDraft;
  }

  lemma BeginFollows(w: World, k: PublicKey, call: Call, newKey: Bytes)
    requires w.relay.Some? && k in w.procs && w.procs[k].phase.Idle?
    ensures k in StepBegin(w, w.procs[k], k, call, newKey).procs
    ensures Follows(w, Begin(k, call, newKey), StepBegin(w, w.procs[k], k, call, newKey), k)
  {
    hide AfterStatus, S.Roster, SentBy;
    StatusPending(w.procs[k], S.Status(w.relay).value, call, newKey);
  }

  lemma PostKeysFollows(w: World, k: PublicKey)
    requires w.relay.Some? && k in w.procs && w.procs[k].phase.PostingKeys?
    ensures k in StepPostKeys(w, w.procs[k], k).procs
    ensures Follows(w, PostKeys(k), StepPostKeys(w, w.procs[k], k), k)
  {
    hide AfterKeys, S.PostKeys, OnKeysPosted, SignGroupKey, SentBy;
    var p := w.procs[k];
    KeysPending(p, OnKeysPosted(p.client, p.phase.epoch, p.phase.key), p.phase.call);
  }

  lemma FetchFollows(w: World, k: PublicKey)
    requires w.relay.Some? && k in w.procs && w.procs[k].phase.FetchingKey?
    ensures k in StepFetchKey(w, w.procs[k], k).procs
    ensures Follows(w, Event.FetchKey(k), StepFetchKey(w, w.procs[k], k), k)
  {
    hide AfterKeys, OnKey, S.GetKey, SentBy;
    var p := w.procs[k];
    assert SentBy(w.sent, k) + [] == SentBy(w.sent, k);
    match OnKey(p.client, p.phase.epoch, p.phase.creatorId, S.GetKey(w.relay, p.phase.epoch, p.client.MemberId()))
    case Err(_) =>
    case Ok(c) => KeysPending(p, c, p.phase.call);
  }

  lemma PullFollows(w: World, k: PublicKey, e: Event, call: Call)
    requires w.relay.Some? && k in w.procs && Pending(w.procs[k].phase) == DraftOf(call)
    ensures k in StepPull(w, w.procs[k], k, call).procs
    ensures Follows(w, e, StepPull(w, w.procs[k], k, call), k)
  {
    hide AfterPull, Pull, S.Fetch, SentBy;
    var p := w.procs[k];
    assert SentBy(w.sent, k) + [] == SentBy(w.sent, k);
    var (c, ok) := Pull(p.client, S.Fetch(w.relay.value.log, p.client.fetchedSeq, S.LOG_WIDTH));
    PullPending(p, c, call, |w.relay.value.log|);
  }

  lemma PostFollows(w: World, k: PublicKey)
    requires w.relay.Some? && k in w.procs && w.procs[k].phase.Posting?
    ensures k in StepPost(w, w.procs[k], k).procs
    ensures Follows(w, PostMessage(k), StepPost(w, w.procs[k], k), k)
  {
    hide S.PostMessage, SentBy;
    var p := w.procs[k];
    SentOneMore(w.sent, Sent(k, p.phase.draft, p.phase.base), k);
  }

  lemma CreateFollows(w: World, k: PublicKey, maxMembers: int, sessionId: string, token: string)
    requires w.relay.None? && w.sent == [] && k in w.procs && w.procs[k].phase.Idle?
    ensures k in StepCreate(w, w.procs[k], k, maxMembers, sessionId, token).procs
    ensures Follows(w, CreateSession(k, maxMembers, sessionId, token), StepCreate(w, w.procs[k], k, maxMembers, sessionId, token), k)
  {
    hide S.Init, SentBy;
  }

  lemma JoinFollows(w: World, k: PublicKey, token: string)
    requires w.relay.Some? && k in w.procs && w.procs[k].phase.Idle?
    ensures k in StepJoin(w, w.procs[k], k, token).procs
    ensures Follows(w, JoinSession(k, token), StepJoin(w, w.procs[k], k, token), k)
  {
    hide S.Join, S.Roster, Joined, SentBy;
  }

  lemma OwnFollows(w: World, e: Event, k: PublicKey)
    requires k in w.procs && e.who == k && (w.relay.None? ==> w.sent == [])
    ensures k in Step(w, e).procs && Follows(w, e, Step(w, e), k)
  {
    hide StepCreate, StepJoin, StepBegin, StepPostKeys, StepFetchKey, StepPull, StepPost, SentBy, Fingerprint;
    var p := w.procs[k];
    match e
    case CreateSession(_, maxMembers, sessionId, token) =>
      if w.relay.None? && p.phase.Idle? { CreateFollows(w, k, maxMembers, sessionId, token); }
    case JoinSession(_, token) =>
      if w.relay.Some? && p.phase.Idle? { JoinFollows(w, k, token); }
    case Begin(_, call, newKey) =>
      if w.relay.Some? && p.phase.Idle? { BeginFollows(w, k, call, newKey); }
    case PostKeys(_) =>
      if w.relay.Some? && p.phase.PostingKeys? { PostKeysFollows(w, k); }
    case FetchKey(_) =>
      if w.relay.Some? && p.phase.FetchingKey? { FetchFollows(w, k); }
    case PullMessages(_) =>
      if w.relay.Some? && p.phase.Pulling? { PullFollows(w, k, e, p.phase.call); }
    case PostMessage(_) =>
      if w.relay.Some? && p.phase.Posting? { PostFollows(w, k); }
    case BeginExport(_) =>
      if w.relay.Some? && p.phase.Idle? { PullFollows(w, k, e, SettleCall); }
  }

  lemma StepFollows(w: World, e: Event, k: PublicKey)
    requires Inv(w) && k in w.procs
    ensures k in Step(w, e).procs && Follows(w, e, Step(w, e), k)
  {
    hide *;
    NothingSent(w);
    if e.who == k {
      OwnFollows(w, e, k);
    } else {
      OthersFollow(w, e, k);
    }
  }

  lemma NothingSent(w: World)
    requires Inv(w)
    ensures w.relay.None? ==> w.sent == []
  {
    hide SharedOk, PartOk, Outsider;
  }

  lemma FollowsWithin(w: World, e: Event, v: World, k: PublicKey, asked: seq<Draft>)
    requires k in w.procs && k in v.procs && Follows(w, e, v, k)
    requires Within(SentBy(w.sent, k) + Pending(w.procs[k].phase), asked)
    ensures
      var draft := if e.Begin? && e.who == k && e.call.SendCall? then [e.call.draft] else [];
      Within(SentBy(v.sent, k) + Pending(v.procs[k].phase), asked + draft)
  {
    hide Within, SentBy;
    var before := SentBy(w.sent, k) + Pending(w.procs[k].phase);
    if Pending(w.procs[k].phase) != [] {
      assert |Pending(w.procs[k].phase)| == 1;
      assert before == SentBy(w.sent, k) + [Pending(w.procs[k].phase)[0]];
      WithinLess(SentBy(w.sent, k), Pending(w.procs[k].phase)[0], asked);
    }
    if e.Begin? && e.who == k && e.call.SendCall? {
      WithinMore(before, asked, e.call.draft);
      if Pending(w.procs[k].phase) != [] {
        WithinMore(SentBy(w.sent, k), asked, e.call.draft);
      }
    } else {
      assert asked + [] == asked;
    }
  }

  /** What a client sent, and the message it may be about to send, are drafts it was asked for, in that order. */
  lemma {:induction false} RunFollows(sc: Scenario, k: PublicKey)
    requires Fits(Final(sc)) && k in Final(sc).procs
    ensures Within(SentBy(Final(sc).sent, k) + Pending(Final(sc).procs[k].phase), Asks(sc.events, k))
    decreases |sc.events|
  {
    hide Step, Inv, Fits, Final, Within;
    if sc.events == [] {
      AtStart(sc, k);
    } else {
      var m := |sc.events| - 1;
      var earlier := sc.(events := sc.events[..m]);
      LastStep(sc);
      StepFromProcs(Final(earlier), sc.events[m], k);
      RunFollows(earlier, k);
      StepFollows(Final(earlier), sc.events[m], k);
      FollowsWithin(Final(earlier), sc.events[m], Final(sc), k, Asks(sc.events[..m], k));
    }
  }

  lemma AtStart(sc: Scenario, k: PublicKey)
    requires sc.events == [] && k in Final(sc).procs
    ensures Within(SentBy(Final(sc).sent, k) + Pending(Final(sc).procs[k].phase), Asks(sc.events, k))
  {
  }

  /** In every run a client's messages at the relay are drafts its caller asked to send, in that order, each at most once. */
  lemma SentInOrderAsked(sc: Scenario, k: PublicKey)
    requires Fits(Final(sc)) && k in Final(sc).procs
    ensures Within(SentBy(Final(sc).sent, k), Asks(sc.events, k))
  {
    hide Within, SentBy, Asks, Final;
    RunFollows(sc, k);
    var pending := Pending(Final(sc).procs[k].phase);
    if pending != [] {
      assert |pending| == 1 && pending == [pending[0]];
      WithinLess(SentBy(Final(sc).sent, k), pending[0], Asks(sc.events, k));
    } else {
      assert SentBy(Final(sc).sent, k) + [] == SentBy(Final(sc).sent, k);
    }
  }
}
