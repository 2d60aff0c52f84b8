/** Routing and request authentication in front of a relay session. */
module Dispatch {
  import opened Prelude
  import opened Sequences
  import opened Crypto
  import opened Message
  import opened SessionSpec
  import opened Relay

  /** The fields a request body can carry; each path reads its own. */
  datatype Body = Body(
    maxMembers: int,
    creator: MemberInput,
    joinToken: string,
    member: MemberInput,
    message: Entry,
    senderId: string,
    epoch: int,
    keyCommitment: Text,
    signature: HexField,
    wraps: seq<Wrap>)

  /** One request as the session sees it: parsed query values, body, and the three auth headers. */
  datatype Context = Context(
    sessionId: string,
    verb: string,
    path: string,
    after: int,
    epoch: int,
    memberParam: string,
    body: Body,
    member: Option<string>,
    timestamp: Option<string>,
    signature: Option<HexField>)

  /** What the host supplies: the clock, `Number()` with `None` for a non-finite result, and a fresh token. */
  datatype Host = Host(now: real, toNumber: string -> Option<real>, newToken: string)

  datatype Reply =
    | ErrorReply(code: string)
    | CreatedReply(sessionId: string, joinToken: string, memberId: string)
    | JoinedReply(members: seq<Member>, epoch: int, locked: bool)
    | MembersReply(members: seq<Member>)
    | PostedReply(seqNo: int)
    | MessagesReply(messages: seq<Entry>, cursor: int)
    | OkReply
    | KeyReply(key: WrappedKey)
    | SessionReply(status: StatusReply)

  datatype Response = Response(status: int, body: Reply)

  const MEMBER_ONLY := {"/members", "/messages", "/keys", "/status"}
  const MAX_SKEW_MS := 300000.0

  function Failure(e: SessionError): Response { Response(e.status, ErrorReply(e.code)) }

  // ---- Authentication ----

  function RequestCanonical(verb: string, fullPath: string, timestamp: string): string {
    "randevu/req/v1|" + verb + "|" + fullPath + "|" + timestamp
  }

  function FullPath(c: Context): string { "/sessions/" + c.sessionId + c.path }

  function RequestBytes(canonical: string): Bytes { Sha256([Utf8(Lift(canonical))]) }

  function SignRequest(canonical: string, privateKey: PublicKey): HexField {
    HexField(Sign(RequestBytes(canonical), privateKey))
  }

  /** The stored key of the member a request claims to come from. */
  function ClaimedKey(s: Option<State>, c: Context): Option<PublicKey> {
    if c.member.None? || c.member.value == "" || s.None? || c.member.value !in s.value.members then None
    else Some(s.value.members[c.member.value].input.identityPub)
  }

  predicate Fresh(h: Host, timestamp: string) {
    && h.toNumber(timestamp).Some?
    && -MAX_SKEW_MS <= h.now - h.toNumber(timestamp).value <= MAX_SKEW_MS
  }

  /** A member signed this verb, path and timestamp, and the timestamp is at most five minutes off. */
  predicate Authentic(s: Option<State>, c: Context, h: Host) {
    && c.timestamp.Some? && c.timestamp.value != "" && Fresh(h, c.timestamp.value)
    && ClaimedKey(s, c).Some?
    && c.signature == Some(SignRequest(RequestCanonical(c.verb, FullPath(c), c.timestamp.value), ClaimedKey(s, c).value))
  }

  method Authenticate(session: Session, c: Context, h: Host) returns (ok: bool)
    requires session.Valid()
    ensures ok <==> Authentic(session.state, c, h)
  {
    if c.member.None? || c.member.value == "" || c.timestamp.None? || c.timestamp.value == "" || c.signature.None? {
      return false;
    }
    var ts := h.toNumber(c.timestamp.value);
    if ts.None? || h.now - ts.value > MAX_SKEW_MS || h.now - ts.value < -MAX_SKEW_MS {
      return false;
    }
    var pub := session.MemberIdentityPub(c.member.value);
    if pub.None? {
      return false;
    }
    var canonical := RequestCanonical(c.verb, "/sessions/" + c.sessionId + c.path, c.timestamp.value);
    ok := c.signature.value.HexField? && Verify(c.signature.value.bytes, RequestBytes(canonical), pub.value);
  }

  /** One signature authenticates one request line: it does not carry over to another verb, path or time. */
  lemma SignatureBindsRequest(s: Option<State>, t: Option<State>, c: Context, d: Context, h: Host, g: Host)
    requires Authentic(s, c, h) && Authentic(t, d, g) && c.signature == d.signature
    requires '|' !in c.verb && '|' !in d.verb && '|' !in FullPath(c) && '|' !in FullPath(d)
    ensures c.verb == d.verb && FullPath(c) == FullPath(d) && c.timestamp == d.timestamp
    ensures ClaimedKey(s, c) == ClaimedKey(t, d)
  {
    hide Fresh, ClaimedKey, FullPath;
    var x, y := RequestCanonical(c.verb, FullPath(c), c.timestamp.value), RequestCanonical(d.verb, FullPath(d), d.timestamp.value);
    assert RequestBytes(x).parts[0] == RequestBytes(y).parts[0];
    LiftInjective(x, y);
    CanonicalReads(c.verb, FullPath(c), c.timestamp.value, d.verb, FullPath(d), d.timestamp.value);
  }

  lemma CanonicalReads(verb: string, path: string, time: string, verb': string, path': string, time': string)
    requires RequestCanonical(verb, path, time) == RequestCanonical(verb', path', time')
    requires '|' !in verb && '|' !in verb' && '|' !in path && '|' !in path'
    ensures verb == verb' && path == path' && time == time'
  {
    CanonicalIs(verb, path, time);
    CanonicalIs(verb', path', time');
    hide RequestCanonical;
    var rest, rest' := path + ['|'] + time, path' + ['|'] + time';
    CutFirst("randevu/req/v1", verb + ['|'] + rest, "randevu/req/v1", verb' + ['|'] + rest', '|');
    CutFirst(verb, rest, verb', rest', '|');
    CutFirst(path, time, path', time', '|');
  }

  lemma CanonicalIs(verb: string, path: string, time: string)
    ensures RequestCanonical(verb, path, time) == "randevu/req/v1" + ['|'] + (verb + ['|'] + (path + ['|'] + time))
  {
  }

  // ---- Routing ----

  /** The state-changing request a routed call performs, if it is one. */
  function Updates(c: Context, h: Host): Option<Request> {
    if c.path == "/init" && c.verb == "POST" then
      Some(InitRequest(c.sessionId, c.body.maxMembers, c.body.creator, h.newToken))
    else if c.path == "/join" && c.verb == "POST" then Some(JoinRequest(c.body.joinToken, c.body.member))
    else if c.path == "/messages" && c.verb == "POST" then Some(PostRequest(c.body.message))
    else if c.path == "/keys" && c.verb == "POST" then
      Some(KeysRequest(c.body.senderId, c.body.epoch, c.body.keyCommitment, c.body.signature, c.body.wraps))
    else None
  }

  predicate Refused(s: Option<State>, c: Context, h: Host) {
    c.path in MEMBER_ONLY && !Authentic(s, c, h)
  }

  /** The session after the call. */
  function NextState(s: Option<State>, c: Context, h: Host): Option<State> {
    if Refused(s, c, h) || Updates(c, h).None? then s else After(s, Updates(c, h).value)
  }

  /** The answer to a call the gate lets through. */
  ghost function Routed(s: Option<State>, c: Context, h: Host): Response {
    var updates := Updates(c, h);
    if updates.Some? then
      match Perform(s, updates.value)
      case Err(e) => Failure(e)
      case Ok(t) => Response(200, match updates.value
        case InitRequest(sessionId, _, creator, token) => CreatedReply(sessionId, token, creator.fingerprint)
        case JoinRequest(_, _) => JoinedReply(Roster(t.members), t.meta.epoch, t.meta.locked)
        case PostRequest(_) => PostedReply(|t.log|)
        case KeysRequest(_, _, _, _, _) => OkReply)
    else if c.verb != "GET" then Response(404, ErrorReply("not_found"))
    else if c.path == "/members" then
      Response(200, MembersReply(Roster(if s.Some? then s.value.members else map[])))
    else if c.path == "/messages" then
      match GetMessages(s, c.after)
      case Err(e) => Failure(e)
      case Ok((messages, cursor)) => Response(200, MessagesReply(messages, cursor))
    else if c.path == "/keys" then
      match GetKey(s, c.epoch, c.memberParam)
      case Err(e) => Failure(e)
      case Ok(key) => Response(200, KeyReply(key))
    else if c.path == "/status" then
      match Status(s)
      case Err(e) => Failure(e)
      case Ok(status) => Response(200, SessionReply(status))
    else Response(404, ErrorReply("not_found"))
  }

  ghost function Answer(s: Option<State>, c: Context, h: Host): Response {
    if Refused(s, c, h) then Response(401, ErrorReply("unauthenticated")) else Routed(s, c, h)
  }

  /** Every call is answered as specified, and any answer but 200 leaves the store untouched. */
  method DispatchSession(session: Session, c: Context, h: Host) returns (r: Response)
    requires session.Valid()
    modifies session, session.store
    ensures session.Valid()
    ensures session.state == NextState(old(session.state), c, h)
    ensures r == Answer(old(session.state), c, h)
    ensures r.status != 200 ==> session.store.contents == old(session.store.contents)
  {
    hide Authentic, Roster, TokenHash, WithWraps, Fetch, Stored, Shows, Inv;
    if c.path in MEMBER_ONLY {
      var ok := Authenticate(session, c, h);
      if !ok {
        return Response(401, ErrorReply("unauthenticated"));
      }
    }
    if c.path == "/init" && c.verb == "POST" {
      var created := session.Init(c.sessionId, c.body.maxMembers, c.body.creator, h.newToken);
      match created
      case Err(e) => return Failure(e);
      case Ok((id, token, creator)) => return Response(200, CreatedReply(id, token, creator));
    }
    if c.path == "/join" && c.verb == "POST" {
      var joined := session.Join(c.body.joinToken, c.body.member);
      match joined
      case Err(e) => return Failure(e);
      case Ok((members, epoch, locked)) => return Response(200, JoinedReply(members, epoch, locked));
    }
    if c.path == "/messages" && c.verb == "POST" {
      var posted := session.PostMessage(c.body.message);
      match posted
      case Err(e) => return Failure(e);
      case Ok(seqNo) => return Response(200, PostedReply(seqNo));
    }
    if c.path == "/keys" && c.verb == "POST" {
      var stored := session.PostKeys(c.body.senderId, c.body.epoch, c.body.keyCommitment, c.body.signature, c.body.wraps);
      match stored
      case Err(e) => return Failure(e);
      case Ok(_) => return Response(200, OkReply);
    }
    r := DispatchRead(session, c);
    assert r == Routed(session.state, c, h);
  }

  /** The reading half of the routes. */
  method DispatchRead(session: Session, c: Context) returns (r: Response)
    requires session.Valid()
    ensures forall h: Host :: Updates(c, h).None? ==> r == Routed(session.state, c, h)
  {
    if c.path == "/members" && c.verb == "GET" {
      var members := session.Members();
      return Response(200, MembersReply(members));
    }
    if c.path == "/messages" && c.verb == "GET" {
      var fetched := session.GetMessages(c.after);
      match fetched
      case Err(e) => return Failure(e);
      case Ok((messages, cursor)) => return Response(200, MessagesReply(messages, cursor));
    }
    if c.path == "/keys" && c.verb == "GET" {
      var key := session.GetKey(c.epoch, c.memberParam);
      match key
      case Err(e) => return Failure(e);
      case Ok(k) => return Response(200, KeyReply(k));
    }
    if c.path == "/status" && c.verb == "GET" {
      var status := session.Status();
      match status
      case Err(e) => return Failure(e);
      case Ok(t) => return Response(200, SessionReply(t));
    }
    r := Response(404, ErrorReply("not_found"));
  }

  // ---- Runs of requests ----

  datatype Arrival = Arrival(call: Context, host: Host)

  function Served(arrivals: seq<Arrival>): Option<State> {
    if arrivals == [] then None
    else
      var last := arrivals[|arrivals| - 1];
      NextState(Served(arrivals[..|arrivals| - 1]), last.call, last.host)
  }

  lemma CallKeepsInv(s: Option<State>, c: Context, h: Host)
    requires s.Some? ==> Inv(s.value)
    ensures NextState(s, c, h).Some? ==> Inv(NextState(s, c, h).value)
    ensures s.Some? ==> NextState(s, c, h).Some? && Extends(s.value, NextState(s, c, h).value)
  {
    if Updates(c, h).Some? {
      RequestKeepsInv(s, Updates(c, h).value);
    }
  }

  /** Whatever calls arrive, authentic or not, the session stays well-formed and members and messages only accrue. */
  lemma {:induction false} EveryTrafficKeepsInv(arrivals: seq<Arrival>, n: nat)
    requires n <= |arrivals|
    ensures Served(arrivals).Some? ==> Inv(Served(arrivals).value)
    ensures Served(arrivals[..n]).Some? ==>
              Served(arrivals).Some? && Extends(Served(arrivals[..n]).value, Served(arrivals).value)
  {
    if n < |arrivals| {
      var m := |arrivals| - 1;
      assert arrivals[..m][..n] == arrivals[..n];
      EveryTrafficKeepsInv(arrivals[..m], n);
      CallKeepsInv(Served(arrivals[..m]), arrivals[m].call, arrivals[m].host);
    } else if arrivals != [] {
      var m := |arrivals| - 1;
      assert arrivals[..n] == arrivals;
      EveryTrafficKeepsInv(arrivals[..m], m);
      CallKeepsInv(Served(arrivals[..m]), arrivals[m].call, arrivals[m].host);
    }
  }

  /** After a session's creation, only authentic calls can add a message or a key. */
  lemma OnlyMembersWrite(s: Option<State>, c: Context, h: Host)
    requires s.Some?
    requires NextState(s, c, h).Some? && (NextState(s, c, h).value.log != s.value.log || NextState(s, c, h).value.keys != s.value.keys)
    ensures Authentic(s, c, h) && ClaimedKey(s, c).Some? && Answer(s, c, h).status == 200
  {
    assert Updates(c, h).Some?;
    assert c.path in MEMBER_ONLY;
  }
}
