/**
 * Clients and the relay running together. One relay request, with the client's handling of its answer, is one
 * step; a client call is a chain of such steps, and any other client may step in between. Each client runs one
 * call at a time and belongs to one session.
 */
module Protocol {
  import opened Prelude
  import opened Crypto
  import opened Message
  import opened Client
  import S = SessionSpec

  /** What a caller asks `send` to send; the nonce is the random one its encryption draws. */
  datatype Draft = Draft(body: string, messageType: string, ref: Option<Text>, nonce: Bytes)

  datatype Call =
    | SettleCall
    | SendCall(draft: Draft)
    | ReceiveCall

  /** Where a client stands inside its current call. */
  datatype Phase =
    | Idle
    | PostingKeys(call: Call, epoch: int, key: Bytes, wraps: seq<S.Wrap>)
    | FetchingKey(call: Call, epoch: int, creatorId: string)
    | Pulling(call: Call)
    | Posting(message: Entry, draft: Draft, base: nat)

  /** A client, its phase, and everything its `receive` calls have returned so far. */
  datatype Proc = Proc(client: Client, phase: Phase, inbox: seq<Received>)

  /** History of one message: who sent it, what the caller asked for, and how many messages the relay held at the pull. */
  datatype Sent = Sent(sender: PublicKey, draft: Draft, base: nat)

  /** `joined` and `sent` are history: members in join order, and one record per logged message. */
  datatype World = World(
    kx: PublicKey -> PublicKey,
    relay: Option<S.State>,
    procs: map<PublicKey, Proc>,
    joined: seq<PublicKey>,
    sent: seq<Sent>)

  datatype Event =
    | CreateSession(who: PublicKey, maxMembers: int, sessionId: string, token: string)
    | JoinSession(who: PublicKey, token: string)
    | Begin(who: PublicKey, call: Call, newKey: Bytes)
    | PostKeys(who: PublicKey)
    | FetchKey(who: PublicKey)
    | PullMessages(who: PublicKey)
    | PostMessage(who: PublicKey)
    | BeginExport(who: PublicKey)

  function Start(people: set<PublicKey>, kx: PublicKey -> PublicKey): World {
    World(kx, None, map k | k in people :: Proc(NewClient(k, kx(k)), Idle, []), [], [])
  }

  /** What follows `ensureKeys` in each call; `send` throws without a group key. */
  function AfterKeys(p: Proc, c: Client, call: Call): Proc {
    match call
    case SettleCall => p.(client := c, phase := Idle)
    case ReceiveCall => p.(client := c, phase := Pulling(call))
    case SendCall(_) =>
      if c.groupKey.None? then p.(client := c, phase := Idle) else p.(client := c, phase := Pulling(call))
  }

  function ComposeDraft(c: Client, draft: Draft): Entry
    requires c.groupKey.Some?
  {
    Compose(c, draft.body, draft.messageType, draft.ref, draft.nonce)
  }

  /** What follows a complete `pull` in each call, when the relay held `logged` messages. */
  function AfterPull(p: Proc, c: Client, call: Call, logged: nat): Proc {
    match call
    case SettleCall => p.(client := c, phase := Idle)
    case ReceiveCall =>
      var (cursor, out) := Deliver(c.inboxSeq, c.log, c.MemberId());
      Proc(c.(inboxSeq := cursor), Idle, p.inbox + out)
    case SendCall(draft) =>
      if c.groupKey.None? then p.(client := c, phase := Idle)
      else p.(client := c, phase := Posting(ComposeDraft(c, draft), draft, logged))
  }

  predicate IsMember(w: World, who: PublicKey) {
    who in w.procs && w.relay.Some? && Fingerprint(who) in w.relay.value.members
  }

  /** A step that is not enabled leaves the world alone. */
  ghost function Step(w: World, e: Event): World {
    if e.who !in w.procs then w
    else
      var p := w.procs[e.who];
      match e
      case CreateSession(who, maxMembers, sessionId, token) =>
        if w.relay.None? && p.phase.Idle? then StepCreate(w, p, who, maxMembers, sessionId, token) else w
      case JoinSession(who, token) =>
        if w.relay.Some? && p.phase.Idle? && !IsMember(w, who) then StepJoin(w, p, who, token) else w
      case Begin(who, call, newKey) =>
        if IsMember(w, who) && p.phase.Idle? then StepBegin(w, p, who, call, newKey) else w
      case PostKeys(who) =>
        if IsMember(w, who) && p.phase.PostingKeys? then StepPostKeys(w, p, who) else w
      case FetchKey(who) =>
        if IsMember(w, who) && p.phase.FetchingKey? then StepFetchKey(w, p, who) else w
      case PullMessages(who) =>
        if IsMember(w, who) && p.phase.Pulling? then StepPull(w, p, who, p.phase.call) else w
      case PostMessage(who) =>
        if IsMember(w, who) && p.phase.Posting? then StepPost(w, p, who) else w
      case BeginExport(who) =>
        if IsMember(w, who) && p.phase.Idle? then StepPull(w, p, who, SettleCall) else w
  }

  function StepCreate(w: World, p: Proc, who: PublicKey, maxMembers: int, sessionId: string, token: string): World {
    match S.Init(w.relay, sessionId, maxMembers, p.client.Self(), token)
    case Err(_) => w
    case Ok(s) => w.(relay := Some(s), joined := [who], procs := w.procs[who := p.(client := Created(p.client, sessionId))])
  }

  ghost function StepJoin(w: World, p: Proc, who: PublicKey, token: string): World
    requires w.relay.Some?
  {
    var meta := w.relay.value.meta;
    match S.Join(w.relay, token, p.client.Self())
    case Err(_) =>
      w.(procs := w.procs[who := p.(client := Joined(p.client, meta.sessionId, meta.creatorId, None))])
    case Ok(s) =>
      var c := Joined(p.client, meta.sessionId, meta.creatorId, Some((S.Roster(s.members), s.meta.epoch)));
      w.(relay := Some(s), joined := w.joined + [who], procs := w.procs[who := p.(client := c)])
  }

  /** A client that has seen the status reply, on its way through `ensureKeys`. */
  function AfterStatus(p: Proc, status: S.StatusReply, call: Call, newKey: Bytes): Proc {
    var (c, next) := OnStatus(p.client, status, newKey);
    match next
    case Settled => AfterKeys(p, c, call)
    case PostNewKey(epoch, key, wraps) => p.(client := c, phase := PostingKeys(call, epoch, key, wraps))
    case FetchKey(epoch, creatorId) => p.(client := c, phase := FetchingKey(call, epoch, creatorId))
  }

  ghost function StepBegin(w: World, p: Proc, who: PublicKey, call: Call, newKey: Bytes): World
    requires w.relay.Some?
  {
    w.(procs := w.procs[who := AfterStatus(p, S.Status(w.relay).value, call, newKey)])
  }

  function StepPostKeys(w: World, p: Proc, who: PublicKey): World
    requires w.relay.Some? && p.phase.PostingKeys?
  {
    var PostingKeys(call, epoch, key, wraps) := p.phase;
    var (commitment, signature) := SignGroupKey(p.client.sessionId, epoch, key, p.client.identity);
    match S.PostKeys(w.relay, p.client.MemberId(), epoch, commitment, signature, wraps)
    case Err(_) => w.(procs := w.procs[who := p.(phase := Idle)])
    case Ok(s) =>
      w.(relay := Some(s), procs := w.procs[who := AfterKeys(p, OnKeysPosted(p.client, epoch, key), call)])
  }

  function StepFetchKey(w: World, p: Proc, who: PublicKey): World
    requires p.phase.FetchingKey?
  {
    var FetchingKey(call, epoch, creatorId) := p.phase;
    match OnKey(p.client, epoch, creatorId, S.GetKey(w.relay, epoch, p.client.MemberId()))
    case Err(_) => w.(procs := w.procs[who := p.(phase := Idle)])
    case Ok(c) => w.(procs := w.procs[who := AfterKeys(p, c, call)])
  }

  function StepPull(w: World, p: Proc, who: PublicKey, call: Call): World
    requires w.relay.Some?
  {
    var messages := S.Fetch(w.relay.value.log, p.client.fetchedSeq, S.LOG_WIDTH);
    var (c, ok) := Pull(p.client, messages);
    var p' := if ok then AfterPull(p, c, call, |w.relay.value.log|) else p.(client := c, phase := Idle);
    w.(procs := w.procs[who := p'])
  }

  function StepPost(w: World, p: Proc, who: PublicKey): World
    requires p.phase.Posting?
  {
    var Posting(message, draft, base) := p.phase;
    match S.PostMessage(w.relay, message)
    case Err(_) => w.(procs := w.procs[who := p.(phase := Idle)])
    case Ok(s) =>
      w.(relay := Some(s), sent := w.sent + [Sent(who, draft, base)], procs := w.procs[who := p.(phase := Idle)])
  }

  /** The world after a sequence of events, in any interleaving of the clients' calls. */
  ghost function Run(start: World, events: seq<Event>): World {
    if events == [] then start else Step(Run(start, events[..|events| - 1]), events[|events| - 1])
  }
}
