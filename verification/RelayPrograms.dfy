/** Relay requests expanded into their store operations, and what they do when other requests interleave. */
module RelayPrograms {
  import opened Prelude
  import opened Decimals
  import opened Sequences
  import opened Sorting
  import opened Crypto
  import opened Message
  import opened Store
  import opened SessionSpec
  import opened Relay
  import opened Dispatch
  import opened NodeRelay

  type Handler = Program<Value, Response>

  function Fail(status: int, code: string): Handler { Finish(Failure(SessionError(status, code))) }

  function Reply200(body: Reply): Handler { Finish(Response(200, body)) }

  // ---- The requests as programs ----

  function WithMeta(next: Meta -> Handler): Handler {
    GetOp(KeyText(MetaKey), (v: Option<Value>) =>
      if v.Some? && v.value.MetaValue? then next(v.value.meta) else Fail(404, "session_not_found"))
  }

  function WithSeq(next: nat -> Handler): Handler {
    GetOp(KeyText(SeqKey), (v: Option<Value>) => next(if v.Some? && v.value.SeqValue? then v.value.seqNo else 0))
  }

  function IfMember(fingerprint: string, yes: Handler, no: Handler): Handler {
    GetOp(KeyText(MemberKey(fingerprint)), (v: Option<Value>) => if v.Some? then yes else no)
  }

  function WithMembers(next: seq<Member> -> Handler): Handler {
    ListOp("member:", None, (listed: JsMap<string, Value>) => next(MembersIn(listed)))
  }

  function InitProgram(sessionId: string, maxMembers: int, creator: MemberInput, token: string): Handler {
    GetOp(KeyText(MetaKey), (v: Option<Value>) =>
      if v.Some? then Fail(409, "session_exists")
      else if maxMembers < 2 then Fail(400, "max_members_too_small")
      else
        PutOp(KeyText(MetaKey), MetaValue(Meta(sessionId, maxMembers, false, 0, creator.fingerprint)),
        PutOp(KeyText(SeqKey), SeqValue(0),
        PutOp(KeyText(MemberKey(creator.fingerprint)), MemberValue(Member(creator, 0)),
        PutOp(KeyText(TokenKey(TokenHash(token))), TokenValue,
        Reply200(CreatedReply(sessionId, token, creator.fingerprint)))))))
  }

  function Admit(meta: Meta, member: MemberInput): Handler {
    WithSeq((n: nat) =>
      PutOp(KeyText(MemberKey(member.fingerprint)), MemberValue(Member(member, n)),
      WithMembers((members: seq<Member>) =>
        var locked := meta.locked || |members| >= meta.maxMembers;
        PutOp(KeyText(MetaKey), MetaValue(meta.(epoch := meta.epoch + 1, locked := locked)),
        Reply200(JoinedReply(members, meta.epoch + 1, locked))))))
  }

  function JoinProgram(token: string, member: MemberInput): Handler {
    WithMeta((meta: Meta) =>
      if meta.locked then Fail(423, "session_locked")
      else GetOp(KeyText(TokenKey(TokenHash(token))), (v: Option<Value>) =>
        if v.None? then Fail(403, "invalid_join_token")
        else IfMember(member.fingerprint, Fail(409, "member_exists"), Admit(meta, member))))
  }

  function PostProgram(message: Entry): Handler {
    WithMeta((meta: Meta) =>
      IfMember(message.senderId,
        WithSeq((last: nat) =>
          PutOp(KeyText(SeqKey), SeqValue(last + 1),
          PutOp(KeyText(MessageKey(last + 1)), MessageValue(message.(seqNo := last + 1)),
          Reply200(PostedReply(last + 1))))),
        Fail(403, "not_a_member")))
  }

  function KeyWrites(epoch: int, commitment: Text, signature: HexField, wraps: seq<Wrap>): Handler {
    if wraps == [] then Reply200(OkReply)
    else PutOp(KeyText(GroupKeyKey(epoch, wraps[0].recipientId)), KeyValue(WrappedKey(wraps[0].wrappedKey, commitment, signature)),
               KeyWrites(epoch, commitment, signature, wraps[1..]))
  }

  function KeysProgram(senderId: string, epoch: int, commitment: Text, signature: HexField, wraps: seq<Wrap>): Handler {
    WithMeta((meta: Meta) =>
      IfMember(senderId,
        if senderId != meta.creatorId then Fail(403, "not_key_holder") else KeyWrites(epoch, commitment, signature, wraps),
        Fail(403, "not_a_member")))
  }

  function MessagesIn(listed: JsMap<string, Value>, after: int): seq<Entry> {
    if forall e <- listed :: e.1.MessageValue? then Sort(BySeq, MessagesAfter(listed, after)) else []
  }

  function FetchProgram(after: int): Handler {
    WithMeta((meta: Meta) =>
      ListOp("msg:", StartKey(after), (listed: JsMap<string, Value>) =>
        var messages := MessagesIn(listed, after);
        Reply200(MessagesReply(messages, if messages == [] then after else messages[|messages| - 1].seqNo))))
  }

  function KeyProgram(epoch: int, memberId: string): Handler {
    WithMeta((meta: Meta) =>
      GetOp(KeyText(GroupKeyKey(epoch, memberId)), (v: Option<Value>) =>
        if v.Some? && v.value.KeyValue? then Reply200(KeyReply(v.value.key)) else Fail(404, "key_not_found")))
  }

  function StatusProgram(): Handler {
    WithMeta((meta: Meta) =>
      WithSeq((last: nat) =>
        WithMembers((members: seq<Member>) => Reply200(SessionReply(StatusReply(meta, members, last))))))
  }

  function UpdateProgram(r: SessionSpec.Request): Handler {
    match r
    case InitRequest(sessionId, maxMembers, creator, token) => InitProgram(sessionId, maxMembers, creator, token)
    case JoinRequest(token, member) => JoinProgram(token, member)
    case PostRequest(message) => PostProgram(message)
    case KeysRequest(senderId, epoch, commitment, signature, wraps) => KeysProgram(senderId, epoch, commitment, signature, wraps)
  }

  function ReadProgram(c: Context): Handler {
    if c.verb != "GET" then Fail(404, "not_found")
    else if c.path == "/members" then WithMembers((members: seq<Member>) => Reply200(MembersReply(members)))
    else if c.path == "/messages" then FetchProgram(c.after)
    else if c.path == "/keys" then KeyProgram(c.epoch, c.memberParam)
    else if c.path == "/status" then StatusProgram()
    else Fail(404, "not_found")
  }

  function RouteProgram(c: Context, h: Host): Handler {
    if Updates(c, h).Some? then UpdateProgram(Updates(c, h).value) else ReadProgram(c)
  }

  /** The gate reads the claimed member's record and nothing else. */
  function DispatchProgram(c: Context, h: Host): Handler {
    if c.path !in MEMBER_ONLY then RouteProgram(c, h)
    else if c.member.None? || c.member.value == "" || c.timestamp.None? || c.timestamp.value == "" || c.signature.None?
            || !Fresh(h, c.timestamp.value)
    then Fail(401, "unauthenticated")
    else
      GetOp(KeyText(MemberKey(c.member.value)), (v: Option<Value>) =>
        if v.Some? && v.value.MemberValue?
           && c.signature.value ==
              SignRequest(RequestCanonical(c.verb, FullPath(c), c.timestamp.value), v.value.member.input.identityPub)
        then RouteProgram(c, h)
        else Fail(401, "unauthenticated"))
  }

  // ---- Run alone, each program answers as specified ----

  /** The store holds this session, and nothing else. */
  ghost predicate Represents(store: map<string, Value>, state: Option<State>) {
    && (exists slots :: Stored(store, slots) && Shows(slots, state))
    && (state.Some? ==> SessionSpec.Inv(state.value))
  }

  lemma ReadPlace(store: map<string, Value>, state: Option<State>, k: Key)
    requires Represents(store, state)
    ensures Read(store, KeyText(k)) == Holds(state, k)
  {
    var slots :| Stored(store, slots) && Shows(slots, state);
    assert Read(slots, k) == Holds(state, k);
  }

  lemma EmptyStore()
    ensures Represents(map[], None)
  {
    var slots: map<Key, Value> := map[];
    assert Stored(map[], slots) && Shows(slots, None);
  }

  /** Run alone, the program replies with `r` and leaves `after`. */
  ghost predicate Answers(p: Handler, store: map<string, Value>, after: map<string, Value>, r: Response) {
    Alone(p, store, after, Fulfilled(r))
  }

  lemma Replies(store: map<string, Value>, r: Response)
    ensures Answers(Finish(r), store, store, r)
  {
    AloneEnded<Value, Response>(Finish(r), store);
  }

  lemma AloneGet(p: Handler, k: Key, store: map<string, Value>, state: Option<State>, after: map<string, Value>, r: Response)
    requires p.GetOp? && p.key == KeyText(k) && Represents(store, state)
    requires Answers(p.onValue(Holds(state, k)), store, after, r)
    ensures Answers(p, store, after, r)
  {
    ReadPlace(store, state, k);
    AloneStep(p, store, after, Fulfilled(r));
  }

  lemma AlonePut(p: Handler, store: map<string, Value>, after: map<string, Value>, r: Response)
    requires p.PutOp? && Answers(p.next, store[p.key := p.value], after, r)
    ensures Answers(p, store, after, r)
  {
    AloneStep(p, store, after, Fulfilled(r));
  }

  lemma AloneList(p: Handler, store: map<string, Value>, after: map<string, Value>, r: Response)
    requires p.ListOp? && Answers(p.onListed(Listed(store, p.prefix, p.start)), store, after, r)
    ensures Answers(p, store, after, r)
  {
    AloneStep(p, store, after, Fulfilled(r));
  }

  lemma AloneFail(p: Handler, store: map<string, Value>, status: int, code: string)
    requires p == Fail(status, code)
    ensures Answers(p, store, store, Response(status, ErrorReply(code)))
  {
    Replies(store, Response(status, ErrorReply(code)));
  }

  function MembersOf(state: Option<State>): map<string, Member> {
    if state.Some? then state.value.members else map[]
  }

  lemma ShowsItsMembers(slots: map<Key, Value>, state: Option<State>)
    requires Shows(slots, state)
    ensures ShowsMembers(slots, MembersOf(state))
  {
    forall f: string
      ensures Read(slots, MemberKey(f)) == if f in MembersOf(state) then Some(MemberValue(MembersOf(state)[f])) else None
    {
      assert Read(slots, MemberKey(f)) == Holds(state, MemberKey(f));
    }
  }

  // ---- Each request ----

  lemma InitAlone(store: map<string, Value>, state: Option<State>, c: Context, h: Host) returns (after: map<string, Value>)
    requires Represents(store, state)
    requires Updates(c, h) == Some(InitRequest(c.sessionId, c.body.maxMembers, c.body.creator, h.newToken))
    ensures Answers(UpdateProgram(Updates(c, h).value), store, after, Routed(state, c, h))
    ensures Represents(after, After(state, Updates(c, h).value))
  {
    var max, creator, token := c.body.maxMembers, c.body.creator, h.newToken;
    var p := InitProgram(c.sessionId, max, creator, token);
    var rest := p.onValue(Holds(state, MetaKey));
    if state.Some? {
      AloneFail(rest, store, 409, "session_exists");
      after := store;
    } else if max < 2 {
      AloneFail(rest, store, 400, "max_members_too_small");
      after := store;
    } else {
      after := InitWrites(store, c.sessionId, max, creator, token, rest);
    }
    AloneGet(p, MetaKey, store, state, after, Routed(state, c, h));
  }

  lemma InitWrites(store: map<string, Value>, sessionId: string, max: int, creator: MemberInput, token: string, rest: Handler)
    returns (after: map<string, Value>)
    requires Represents(store, None) && max >= 2
    requires rest == InitProgram(sessionId, max, creator, token).onValue(None)
    ensures Answers(rest, store, after, Response(200, CreatedReply(sessionId, token, creator.fingerprint)))
    ensures Represents(after, After(None, InitRequest(sessionId, max, creator, token)))
  {
    hide KeyText, SessionSpec.Inv, Answers, Extends, Represents;
    var r := Response(200, CreatedReply(sessionId, token, creator.fingerprint));
    after := InitStores(store, sessionId, max, creator, token);
    var store1 := store[KeyText(MetaKey) := MetaValue(Meta(sessionId, max, false, 0, creator.fingerprint))];
    var store2 := store1[KeyText(SeqKey) := SeqValue(0)];
    var store3 := store2[KeyText(MemberKey(creator.fingerprint)) := MemberValue(Member(creator, 0))];
    Replies(after, r);
    AlonePut(rest.next.next.next, store3, after, r);
    AlonePut(rest.next.next, store2, after, r);
    AlonePut(rest.next, store1, after, r);
    AlonePut(rest, store, after, r);
  }

  /** The four records creation writes are the new session. */
  lemma InitStores(store: map<string, Value>, sessionId: string, max: int, creator: MemberInput, token: string)
    returns (after: map<string, Value>)
    requires Represents(store, None) && max >= 2
    ensures after == store[KeyText(MetaKey) := MetaValue(Meta(sessionId, max, false, 0, creator.fingerprint))]
                          [KeyText(SeqKey) := SeqValue(0)]
                          [KeyText(MemberKey(creator.fingerprint)) := MemberValue(Member(creator, 0))]
                          [KeyText(TokenKey(TokenHash(token))) := TokenValue]
    ensures Represents(after, After(None, InitRequest(sessionId, max, creator, token)))
  {
    hide Stored, Shows, KeyText, SessionSpec.Inv, Extends, TokenHash;
    var slots :| Stored(store, slots) && Shows(slots, None);
    InitShows(slots, sessionId, max, creator, token);
    RequestKeepsInv(None, InitRequest(sessionId, max, creator, token));
    var meta, member := MetaValue(Meta(sessionId, max, false, 0, creator.fingerprint)), MemberValue(Member(creator, 0));
    PutStored(store, slots, MetaKey, meta);
    var store1, slots1 := store[KeyText(MetaKey) := meta], slots[MetaKey := meta];
    PutStored(store1, slots1, SeqKey, SeqValue(0));
    var store2, slots2 := store1[KeyText(SeqKey) := SeqValue(0)], slots1[SeqKey := SeqValue(0)];
    PutStored(store2, slots2, MemberKey(creator.fingerprint), member);
    var store3, slots3 := store2[KeyText(MemberKey(creator.fingerprint)) := member], slots2[MemberKey(creator.fingerprint) := member];
    PutStored(store3, slots3, TokenKey(TokenHash(token)), TokenValue);
    after := store3[KeyText(TokenKey(TokenHash(token))) := TokenValue];
  }


  lemma PostWrites(store: map<string, Value>, s: State, m: Entry, rest: Handler) returns (after: map<string, Value>)
    requires Represents(store, Some(s)) && m.senderId in s.members
    requires
      var n := |s.log| + 1;
      rest == PutOp(KeyText(SeqKey), SeqValue(n), PutOp(KeyText(MessageKey(n)), MessageValue(m.(seqNo := n)), Reply200(PostedReply(n))))
    ensures Answers(rest, store, after, Response(200, PostedReply(|s.log| + 1)))
    ensures Represents(after, After(Some(s), PostRequest(m)))
  {
    hide Stored, Shows, KeyText, SessionSpec.Inv, Answers;
    var slots :| Stored(store, slots) && Shows(slots, Some(s));
    PostShows(slots, s, m);
    RequestKeepsInv(Some(s), PostRequest(m));
    var n := |s.log| + 1;
    PutStored(store, slots, SeqKey, SeqValue(n));
    var store1, slots1 := store[KeyText(SeqKey) := SeqValue(n)], slots[SeqKey := SeqValue(n)];
    PutStored(store1, slots1, MessageKey(n), MessageValue(m.(seqNo := n)));
    after := store1[KeyText(MessageKey(n)) := MessageValue(m.(seqNo := n))];
    Replies(after, Response(200, PostedReply(n)));
    AlonePut(rest.next, store1, after, Response(200, PostedReply(n)));
    AlonePut(rest, store, after, Response(200, PostedReply(n)));
  }

  lemma PostAlone(store: map<string, Value>, state: Option<State>, m: Entry, r: Response) returns (after: map<string, Value>)
    requires Represents(store, state)
    requires r == match SessionSpec.PostMessage(state, m)
                  case Err(e) => Failure(e)
                  case Ok(t) => Response(200, PostedReply(|t.log|))
    ensures Answers(PostProgram(m), store, after, r) && Represents(after, After(state, PostRequest(m)))
  {
    hide Answers, Represents, KeyText;
    var p := PostProgram(m);
    var checked := p.onValue(Holds(state, MetaKey));
    after := store;
    if state.None? {
      AloneFail(checked, store, 404, "session_not_found");
    } else {
      var admitted := checked.onValue(Holds(state, MemberKey(m.senderId)));
      if m.senderId !in state.value.members {
        AloneFail(admitted, store, 403, "not_a_member");
      } else {
        after := PostWrites(store, state.value, m, admitted.onValue(Holds(state, SeqKey)));
        AloneGet(admitted, SeqKey, store, state, after, r);
      }
      AloneGet(checked, MemberKey(m.senderId), store, state, after, r);
    }
    AloneGet(p, MetaKey, store, state, after, r);
  }

  lemma AdmissionStored(store: map<string, Value>, slots: map<Key, Value>, k: Key, added: Value, meta: Value, members: map<string, Member>)
    requires Stored(store, slots) && ShowsMembers(slots[k := added], members)
    ensures
      var store1, slots1 := store[KeyText(k) := added], slots[k := added];
      && MembersIn(Listed(store1, "member:", None)) == Roster(members)
      && Stored(store1[KeyText(MetaKey) := meta], slots1[MetaKey := meta])
  {
    hide Stored, KeyText, ShowsMembers, Roster, MembersIn, Listing, Entries;
    var store1, slots1 := store[KeyText(k) := added], slots[k := added];
    PutStored(store, slots, k, added);
    RosterListed(store1, slots1, members);
    PutStored(store1, slots1, MetaKey, meta);
  }

  /** The writes of an admission: the member's record, then, having listed the members, the new metadata. */
  lemma JoinStored(store: map<string, Value>, s: State, t: State, token: string, member: MemberInput)
    requires Represents(store, Some(s)) && SessionSpec.Join(Some(s), token, member) == Ok(t) && SessionSpec.Inv(t)
    ensures
      var store1 := store[KeyText(MemberKey(member.fingerprint)) := MemberValue(Member(member, |s.log|))];
      && MembersIn(Listed(store1, "member:", None)) == Roster(t.members)
      && Represents(store1[KeyText(MetaKey) := MetaValue(t.meta)], Some(t))
  {
    hide Stored, Shows, KeyText, SessionSpec.Inv, ShowsMembers, Roster, MembersIn, Listed, SessionSpec.Join;
    var slots :| Stored(store, slots) && Shows(slots, Some(s));
    JoinShows(slots, s, token, member);
    AdmissionStored(store, slots, MemberKey(member.fingerprint), MemberValue(Member(member, |s.log|)), MetaValue(t.meta), t.members);
  }

  lemma JoinedMeta(s: State, t: State, token: string, member: MemberInput)
    requires SessionSpec.Inv(s) && SessionSpec.Join(Some(s), token, member) == Ok(t)
    ensures SessionSpec.Inv(t)
    ensures t.meta == s.meta.(epoch := s.meta.epoch + 1, locked := s.meta.locked || |Roster(t.members)| >= s.meta.maxMembers)
  {
    hide Roster, Extends;
    RequestKeepsInv(Some(s), JoinRequest(token, member));
    RosterSize(t.members);
  }

  /** An admission as a program: put the member, list the members, put the metadata, reply. */
  lemma AdmitShape(meta: Meta, member: MemberInput, n: nat, listed: JsMap<string, Value>)
    ensures
      var p := Admit(meta, member).onValue(Some(SeqValue(n)));
      var locked := meta.locked || |MembersIn(listed)| >= meta.maxMembers;
      && p.PutOp? && p.key == KeyText(MemberKey(member.fingerprint)) && p.value == MemberValue(Member(member, n))
      && p.next.ListOp? && p.next.prefix == "member:" && p.next.start == None
      && p.next.onListed(listed) ==
         PutOp(KeyText(MetaKey), MetaValue(meta.(epoch := meta.epoch + 1, locked := locked)),
               Reply200(JoinedReply(MembersIn(listed), meta.epoch + 1, locked)))
  {
    hide KeyText, MembersIn;
  }

  /** A put, a listing, a put and a result, one operation after the other. */
  lemma PutListPut(p: Handler, store: map<string, Value>, store1: map<string, Value>, last: Handler, after: map<string, Value>, r: Response)
    requires p.PutOp? && p.next.ListOp? && store1 == store[p.key := p.value]
    requires last == p.next.onListed(Listed(store1, p.next.prefix, p.next.start))
    requires last.PutOp? && last.next == Finish(r) && after == store1[last.key := last.value]
    ensures Answers(p, store, after, r)
  {
    hide *;
    Replies(after, r);
    AlonePut(last, store1, after, r);
    AloneList(p.next, store1, after, r);
    AlonePut(p, store, after, r);
  }

  lemma JoinWrites(store: map<string, Value>, s: State, t: State, token: string, member: MemberInput, rest: Handler, r: Response)
    returns (after: map<string, Value>)
    requires Represents(store, Some(s)) && SessionSpec.Join(Some(s), token, member) == Ok(t)
    requires rest == Admit(s.meta, member).onValue(Some(SeqValue(|s.log|)))
    requires r == Response(200, JoinedReply(Roster(t.members), t.meta.epoch, t.meta.locked))
    ensures Answers(rest, store, after, r) && Represents(after, Some(t))
  {
    hide *;
    RepresentsInv(store, s);
    JoinedMeta(s, t, token, member);
    JoinStored(store, s, t, token, member);
    var store1 := store[KeyText(MemberKey(member.fingerprint)) := MemberValue(Member(member, |s.log|))];
    after := store1[KeyText(MetaKey) := MetaValue(t.meta)];
    var listed := Listed(store1, "member:", None);
    AdmitShape(s.meta, member, |s.log|, listed);
    assert Reply200(r.body) == Finish(r) by { ReplyIs(r); }
    PutListPut(rest, store, store1, rest.next.onListed(listed), after, r);
  }

  lemma RepresentsInv(store: map<string, Value>, s: State)
    requires Represents(store, Some(s))
    ensures SessionSpec.Inv(s)
  {
    hide SessionSpec.Inv, Stored, Shows;
  }

  lemma ReplyIs(r: Response)
    requires r.status == 200
    ensures Reply200(r.body) == Finish(r)
  {
  }

  lemma JoinAlone(store: map<string, Value>, state: Option<State>, token: string, member: MemberInput, r: Response)
    returns (after: map<string, Value>)
    requires Represents(store, state)
    requires r == match SessionSpec.Join(state, token, member)
                  case Err(e) => Failure(e)
                  case Ok(t) => Response(200, JoinedReply(Roster(t.members), t.meta.epoch, t.meta.locked))
    ensures Answers(JoinProgram(token, member), store, after, r)
    ensures Represents(after, After(state, JoinRequest(token, member)))
  {
    hide Answers, Represents, KeyText, Roster;
    var p := JoinProgram(token, member);
    var checked := p.onValue(Holds(state, MetaKey));
    after := store;
    if state.None? {
      AloneFail(checked, store, 404, "session_not_found");
    } else if state.value.meta.locked {
      AloneFail(checked, store, 423, "session_locked");
    } else {
      after := JoinUnlocked(store, state.value, token, member, checked, r);
    }
    AloneGet(p, MetaKey, store, state, after, r);
  }

  lemma JoinUnlocked(store: map<string, Value>, s: State, token: string, member: MemberInput, checked: Handler, r: Response)
    returns (after: map<string, Value>)
    requires Represents(store, Some(s)) && !s.meta.locked
    requires checked == JoinProgram(token, member).onValue(Some(MetaValue(s.meta)))
    requires r == match SessionSpec.Join(Some(s), token, member)
                  case Err(e) => Failure(e)
                  case Ok(t) => Response(200, JoinedReply(Roster(t.members), t.meta.epoch, t.meta.locked))
    ensures Answers(checked, store, after, r) && Represents(after, After(Some(s), JoinRequest(token, member)))
  {
    hide Answers, Represents, KeyText, Roster, TokenHash, Stored, Shows;
    var state := Some(s);
    after := store;
    var tokened := checked.onValue(Holds(state, TokenKey(TokenHash(token))));
    if TokenHash(token) !in s.tokens {
      AloneFail(tokened, store, 403, "invalid_join_token");
    } else {
      after := JoinVetted(store, s, token, member, tokened, r);
    }
    AloneGet(checked, TokenKey(TokenHash(token)), store, state, after, r);
  }

  lemma JoinVetted(store: map<string, Value>, s: State, token: string, member: MemberInput, tokened: Handler, r: Response)
    returns (after: map<string, Value>)
    requires Represents(store, Some(s)) && !s.meta.locked && TokenHash(token) in s.tokens
    requires tokened == IfMember(member.fingerprint, Fail(409, "member_exists"), Admit(s.meta, member))
    requires r == match SessionSpec.Join(Some(s), token, member)
                  case Err(e) => Failure(e)
                  case Ok(t) => Response(200, JoinedReply(Roster(t.members), t.meta.epoch, t.meta.locked))
    ensures Answers(tokened, store, after, r) && Represents(after, After(Some(s), JoinRequest(token, member)))
  {
    hide Answers, Represents, KeyText, Roster, TokenHash, Stored, Shows;
    var state := Some(s);
    after := store;
    var vetted := tokened.onValue(Holds(state, MemberKey(member.fingerprint)));
    if member.fingerprint in s.members {
      AloneFail(vetted, store, 409, "member_exists");
    } else {
      after := JoinWrites(store, s, SessionSpec.Join(state, token, member).value, token, member, vetted.onValue(Holds(state, SeqKey)), r);
      AloneGet(vetted, SeqKey, store, state, after, r);
    }
    AloneGet(tokened, MemberKey(member.fingerprint), store, state, after, r);
  }

  /** Writing the wraps front to back builds the same key table as the specification's fold. */
  lemma {:induction false} WrapsFromFront(keys: map<(int, string), WrappedKey>, epoch: int, commitment: Text, signature: HexField, wraps: seq<Wrap>)
    requires wraps != []
    ensures
      var first := WrappedKey(wraps[0].wrappedKey, commitment, signature);
      WithWraps(keys, epoch, commitment, signature, wraps) ==
      WithWraps(keys[(epoch, wraps[0].recipientId) := first], epoch, commitment, signature, wraps[1..])
  {
    var n := |wraps| - 1;
    if n > 0 {
      WrapsFromFront(keys, epoch, commitment, signature, wraps[..n]);
      assert wraps[1..][..n - 1] == wraps[..n][1..];
    } else {
      assert wraps[..0] == [] && wraps[1..] == [];
    }
  }

  lemma {:induction false} KeyWritesAlone(store: map<string, Value>, slots: map<Key, Value>, s: State, epoch: int, commitment: Text, signature: HexField, wraps: seq<Wrap>)
    returns (after: map<string, Value>, filled: map<Key, Value>)
    requires Stored(store, slots) && Shows(slots, Some(s))
    ensures Answers(KeyWrites(epoch, commitment, signature, wraps), store, after, Response(200, OkReply))
    ensures Stored(after, filled) && Shows(filled, Some(s.(keys := WithWraps(s.keys, epoch, commitment, signature, wraps))))
    decreases |wraps|
  {
    hide Stored, Shows, KeyText, Answers;
    if wraps == [] {
      after, filled := store, slots;
      Replies(store, Response(200, OkReply));
      assert s == s.(keys := s.keys);
    } else {
      var first := WrappedKey(wraps[0].wrappedKey, commitment, signature);
      var k := GroupKeyKey(epoch, wraps[0].recipientId);
      WrapShows(slots, s, epoch, wraps[0].recipientId, first);
      PutStored(store, slots, k, KeyValue(first));
      WrapsFromFront(s.keys, epoch, commitment, signature, wraps);
      var t := s.(keys := s.keys[(epoch, wraps[0].recipientId) := first]);
      after, filled := KeyWritesAlone(store[KeyText(k) := KeyValue(first)], slots[k := KeyValue(first)], t, epoch, commitment, signature, wraps[1..]);
      AlonePut(KeyWrites(epoch, commitment, signature, wraps), store, after, Response(200, OkReply));
    }
  }

  lemma KeysStored(store: map<string, Value>, s: State, epoch: int, commitment: Text, signature: HexField, wraps: seq<Wrap>)
    returns (after: map<string, Value>)
    requires Represents(store, Some(s)) && s.meta.creatorId in s.members
    ensures Answers(KeyWrites(epoch, commitment, signature, wraps), store, after, Response(200, OkReply))
    ensures Represents(after, After(Some(s), KeysRequest(s.meta.creatorId, epoch, commitment, signature, wraps)))
  {
    hide Stored, Shows, SessionSpec.Inv, Answers, WithWraps, KeyWrites;
    var slots :| Stored(store, slots) && Shows(slots, Some(s));
    RequestKeepsInv(Some(s), KeysRequest(s.meta.creatorId, epoch, commitment, signature, wraps));
    var filled;
    after, filled := KeyWritesAlone(store, slots, s, epoch, commitment, signature, wraps);
  }

  lemma KeysAlone(store: map<string, Value>, state: Option<State>, sender: string, epoch: int, commitment: Text,
                  signature: HexField, wraps: seq<Wrap>, r: Response) returns (after: map<string, Value>)
    requires Represents(store, state)
    requires r == match SessionSpec.PostKeys(state, sender, epoch, commitment, signature, wraps)
                  case Err(e) => Failure(e)
                  case Ok(t) => Response(200, OkReply)
    ensures Answers(KeysProgram(sender, epoch, commitment, signature, wraps), store, after, r)
    ensures Represents(after, After(state, KeysRequest(sender, epoch, commitment, signature, wraps)))
  {
    hide Answers, Represents, KeyText, WithWraps;
    var p := KeysProgram(sender, epoch, commitment, signature, wraps);
    var checked := p.onValue(Holds(state, MetaKey));
    after := store;
    if state.None? {
      AloneFail(checked, store, 404, "session_not_found");
    } else {
      var admitted := checked.onValue(Holds(state, MemberKey(sender)));
      if sender !in state.value.members {
        AloneFail(admitted, store, 403, "not_a_member");
      } else if sender != state.value.meta.creatorId {
        AloneFail(admitted, store, 403, "not_key_holder");
      } else {
        after := KeysStored(store, state.value, epoch, commitment, signature, wraps);
      }
      AloneGet(checked, MemberKey(sender), store, state, after, r);
    }
    AloneGet(p, MetaKey, store, state, after, r);
  }

  // ---- Reads ----

  lemma ListedMembers(store: map<string, Value>, state: Option<State>)
    requires Represents(store, state)
    ensures MembersIn(Listed(store, "member:", None)) == Roster(MembersOf(state))
  {
    var slots :| Stored(store, slots) && Shows(slots, state);
    ShowsItsMembers(slots, state);
    hide Stored, Shows, SessionSpec.Inv, ShowsMembers, Roster, MembersIn, Listed;
    RosterListed(store, slots, MembersOf(state));
  }

  lemma ListedMessages(store: map<string, Value>, s: State, after: int)
    requires Represents(store, Some(s))
    ensures MessagesIn(Listed(store, "msg:", StartKey(after)), after) == Fetch(s.log, after, LOG_WIDTH)
  {
    var slots :| Stored(store, slots) && Shows(slots, Some(s));
    assert Numbered(s.log);
    hide Stored, Shows, SessionSpec.Inv, Listing, Sort, Fetch, StartKey, MessagesAfter;
    MessageListing(store, slots, s, after);
  }

  lemma MembersAlone(store: map<string, Value>, state: Option<State>, p: Handler, r: Response)
    requires Represents(store, state) && p.ListOp? && p.prefix == "member:" && p.start == None
    requires p.onListed(Listed(store, "member:", None)) == Reply200(r.body) && r.status == 200
    ensures Answers(p, store, store, r)
  {
    hide Answers, Represents, Listed;
    Replies(store, r);
    AloneList(p, store, store, r);
  }

  lemma FetchAlone(store: map<string, Value>, state: Option<State>, after: int, r: Response)
    requires Represents(store, state)
    requires r == match GetMessages(state, after)
                  case Err(e) => Failure(e)
                  case Ok((messages, cursor)) => Response(200, MessagesReply(messages, cursor))
    ensures Answers(FetchProgram(after), store, store, r)
  {
    hide Answers, Represents, KeyText, Listed, MessagesIn, StartKey, Fetch;
    var p := FetchProgram(after);
    var checked := p.onValue(Holds(state, MetaKey));
    if state.None? {
      AloneFail(checked, store, 404, "session_not_found");
    } else {
      ListedMessages(store, state.value, after);
      Replies(store, r);
      AloneList(checked, store, store, r);
    }
    AloneGet(p, MetaKey, store, state, store, r);
  }

  lemma KeyAlone(store: map<string, Value>, state: Option<State>, epoch: int, memberId: string, r: Response)
    requires Represents(store, state)
    requires r == match GetKey(state, epoch, memberId)
                  case Err(e) => Failure(e)
                  case Ok(key) => Response(200, KeyReply(key))
    ensures Answers(KeyProgram(epoch, memberId), store, store, r)
  {
    hide Answers, Represents, KeyText;
    var p := KeyProgram(epoch, memberId);
    var checked := p.onValue(Holds(state, MetaKey));
    if state.None? {
      AloneFail(checked, store, 404, "session_not_found");
    } else {
      Replies(store, r);
      AloneGet(checked, GroupKeyKey(epoch, memberId), store, state, store, r);
    }
    AloneGet(p, MetaKey, store, state, store, r);
  }

  lemma StatusAlone(store: map<string, Value>, state: Option<State>, r: Response)
    requires Represents(store, state)
    requires r == match Status(state)
                  case Err(e) => Failure(e)
                  case Ok(status) => Response(200, SessionReply(status))
    ensures Answers(StatusProgram(), store, store, r)
  {
    hide Answers, Represents, KeyText, Listed, MembersIn, Roster;
    var p := StatusProgram();
    var checked := p.onValue(Holds(state, MetaKey));
    if state.None? {
      AloneFail(checked, store, 404, "session_not_found");
    } else {
      ListedMembers(store, state);
      var counted := checked.onValue(Holds(state, SeqKey));
      MembersAlone(store, state, counted, r);
      AloneGet(checked, SeqKey, store, state, store, r);
    }
    AloneGet(p, MetaKey, store, state, store, r);
  }

  lemma ReadAlone(store: map<string, Value>, state: Option<State>, c: Context, h: Host)
    requires Represents(store, state) && Updates(c, h).None?
    ensures Answers(ReadProgram(c), store, store, Routed(state, c, h))
  {
    hide Answers, Represents, Listed, MembersIn, Roster, FetchProgram, KeyProgram, StatusProgram, GetMessages, GetKey, Status;
    var r := Routed(state, c, h);
    if c.verb != "GET" {
      AloneFail(ReadProgram(c), store, 404, "not_found");
    } else if c.path == "/members" {
      ListedMembers(store, state);
      MembersAlone(store, state, ReadProgram(c), r);
    } else if c.path == "/messages" {
      FetchAlone(store, state, c.after, r);
    } else if c.path == "/keys" {
      KeyAlone(store, state, c.epoch, c.memberParam, r);
    } else if c.path == "/status" {
      StatusAlone(store, state, r);
    } else {
      AloneFail(ReadProgram(c), store, 404, "not_found");
    }
  }

  // ---- The whole dispatch ----

  lemma RouteAlone(store: map<string, Value>, state: Option<State>, c: Context, h: Host) returns (after: map<string, Value>)
    requires Represents(store, state)
    ensures Answers(RouteProgram(c, h), store, after, Routed(state, c, h))
    ensures Represents(after, if Updates(c, h).None? then state else After(state, Updates(c, h).value))
  {
    hide Answers, Represents, InitProgram, JoinProgram, PostProgram, KeysProgram, ReadProgram, Roster,
         SessionSpec.Init, SessionSpec.Join, SessionSpec.PostMessage, SessionSpec.PostKeys;
    if Updates(c, h).None? {
      after := store;
      ReadAlone(store, state, c, h);
    } else {
      match Updates(c, h).value
      case InitRequest(_, _, _, _) => after := InitAlone(store, state, c, h);
      case JoinRequest(token, member) => after := JoinAlone(store, state, token, member, Routed(state, c, h));
      case PostRequest(message) => after := PostAlone(store, state, message, Routed(state, c, h));
      case KeysRequest(sender, epoch, commitment, signature, wraps) =>
        after := KeysAlone(store, state, sender, epoch, commitment, signature, wraps, Routed(state, c, h));
    }
  }

  /** A whole request, run alone, answers and changes the session exactly as specified. */
  lemma DispatchAlone(store: map<string, Value>, state: Option<State>, c: Context, h: Host) returns (after: map<string, Value>)
    requires Represents(store, state)
    ensures Answers(DispatchProgram(c, h), store, after, Answer(state, c, h))
    ensures Represents(after, NextState(state, c, h))
  {
    hide Answers, Represents, RouteProgram, Routed, Updates, RequestCanonical, FullPath, KeyText, After;
    after := store;
    var p := DispatchProgram(c, h);
    if !Refused(state, c, h) {
      after := RouteAlone(store, state, c, h);
    }
    if p == Fail(401, "unauthenticated") && Refused(state, c, h) {
      AloneFail(p, store, 401, "unauthenticated");
    } else if c.path in MEMBER_ONLY {
      var k := MemberKey(c.member.value);
      if Refused(state, c, h) {
        AloneFail(p.onValue(Holds(state, k)), store, 401, "unauthenticated");
      }
      AloneGet(p, k, store, state, after, Answer(state, c, h));
    }
  }

  // ---- Interleaved requests ----

  /** The session in place `at` after its calls, among the first `n` of all, one after the other. */
  function SessionAfter(places: seq<nat>, calls: seq<Arrival>, n: nat, at: nat): Option<State>
    requires n <= |calls| == |places|
  {
    if n == 0 then None
    else if places[n - 1] == at then NextState(SessionAfter(places, calls, n - 1, at), calls[n - 1].call, calls[n - 1].host)
    else SessionAfter(places, calls, n - 1, at)
  }

  /** The tasks chained so far are these calls to these session objects, in this order. */
  ghost predicate Carries(w: NodeRelay.World<Value, Response>, places: seq<nat>, calls: seq<Arrival>) {
    && |places| == |calls| == |w.jobs|
    && forall i :: 0 <= i < |calls| ==> w.jobs[i].place == places[i] && w.jobs[i].task == DispatchProgram(calls[i].call, calls[i].host)
  }

  /** All tasks on store `at` before `n` have settled. */
  ghost predicate SettledUpTo(w: NodeRelay.World<Value, Response>, n: nat, at: nat) {
    n <= |w.jobs| && forall i :: 0 <= i < n && w.jobs[i].place == at ==> w.jobs[i].phase.Settled?
  }

  lemma {:induction false} SequentialIsSession(events: seq<NodeRelay.Event<Value, Response>>, places: seq<nat>, calls: seq<Arrival>, n: nat, at: nat)
    requires Carries(NodeRelay.Run(events), places, calls) && at < |NodeRelay.Run(events).stores|
    requires n <= |calls| && SettledUpTo(NodeRelay.Run(events), n, at)
    ensures Represents(Sequential(NodeRelay.Run(events).jobs, n, at), SessionAfter(places, calls, n, at))
    ensures n > 0 && places[n - 1] == at ==>
              NodeRelay.Run(events).jobs[n - 1].phase ==
              Settled(Fulfilled(Answer(SessionAfter(places, calls, n - 1, at), calls[n - 1].call, calls[n - 1].host)))
  {
    var w := NodeRelay.Run(events);
    Linearizable(events, at);
    if n == 0 {
      EmptyStore();
    } else {
      SequentialIsSession(events, places, calls, n - 1, at);
      hide NodeRelay.Run, Represents, Sequential, Answer, NextState, DispatchProgram, Alone;
      if places[n - 1] == at {
        var store, state, call := Sequential(w.jobs, n - 1, at), SessionAfter(places, calls, n - 1, at), calls[n - 1];
        var after := DispatchAlone(store, state, call.call, call.host);
        AloneUnique(w.jobs[n - 1].task, store, after, Fulfilled(Answer(state, call.call, call.host)),
                    Sequential(w.jobs, n, at), w.jobs[n - 1].phase.outcome);
      }
    }
  }

  lemma PlaceExists(events: seq<NodeRelay.Event<Value, Response>>, i: nat)
    requires i < |NodeRelay.Run(events).jobs|
    ensures NodeRelay.Run(events).jobs[i].place < |NodeRelay.Run(events).stores|
    ensures !NodeRelay.Run(events).jobs[i].phase.Pending? ==> NodeRelay.Run(events).jobs[i].starts > 0
  {
    NodeRelay.EveryRunKeepsInv(events);
    assert NodeRelay.JobOk(NodeRelay.Run(events), i);
    hide NodeRelay.Inv, NodeRelay.Run;
  }

  lemma SettledThrough(events: seq<NodeRelay.Event<Value, Response>>, i: nat)
    requires i < |NodeRelay.Run(events).jobs| && NodeRelay.Run(events).jobs[i].phase.Settled?
    ensures SettledUpTo(NodeRelay.Run(events), i + 1, NodeRelay.Run(events).jobs[i].place)
  {
    hide NodeRelay.Run;
    var w := NodeRelay.Run(events);
    PlaceExists(events, i);
    forall j | 0 <= j < i + 1 && w.jobs[j].place == w.jobs[i].place ensures w.jobs[j].phase.Settled? {
      if j < i {
        SamePlaceSameId(events, j, i);
        StartedOnceInTurn(events, j, i);
      }
    }
  }

  /**
   * Requests expanded into single store operations, in any interleaving the event loop allows: every answer a caller
   * gets is the one it would get if its session served the requests atomically in arrival order.
   */
  lemma AnswersAreSequential(events: seq<NodeRelay.Event<Value, Response>>, places: seq<nat>, calls: seq<Arrival>, i: nat)
    requires Carries(NodeRelay.Run(events), places, calls) && i < |calls| && NodeRelay.Run(events).jobs[i].phase.Settled?
    ensures NodeRelay.Run(events).jobs[i].phase ==
            Settled(Fulfilled(Answer(SessionAfter(places, calls, i, places[i]), calls[i].call, calls[i].host)))
  {
    hide NodeRelay.Run, Answer, DispatchProgram, SettledUpTo, SessionAfter, Represents, Sequential;
    SettledThrough(events, i);
    PlaceExists(events, i);
    SequentialIsSession(events, places, calls, i + 1, places[i]);
  }

  // ---- Why serialization is needed ----

  lemma RunTwo(p: Handler, store: map<string, Value>)
    requires p.PutOp? && p.next.PutOp?
    ensures RunFor(p, store, 2) == (store[p.key := p.value][p.next.key := p.next.value], p.next.next)
  {
    assert RunFor(p, store, 0) == (store, p);
    assert RunFor(p, store, 1) == (store[p.key := p.value], p.next);
  }

  /** The reads of a post: after three operations it has fixed its sequence number and written nothing. */
  lemma PostReads(store: map<string, Value>, s: State, m: Entry)
    requires Represents(store, Some(s)) && m.senderId in s.members
    ensures
      var n := |s.log| + 1;
      RunFor(PostProgram(m), store, 3) ==
      (store, PutOp(KeyText(SeqKey), SeqValue(n), PutOp(KeyText(MessageKey(n)), MessageValue(m.(seqNo := n)), Reply200(PostedReply(n)))))
  {
    hide Represents, KeyText;
    ReadPlace(store, Some(s), MetaKey);
    ReadPlace(store, Some(s), MemberKey(m.senderId));
    ReadPlace(store, Some(s), SeqKey);
    var p := PostProgram(m);
    var checked := p.onValue(Some(MetaValue(s.meta)));
    var admitted := checked.onValue(Some(MemberValue(s.members[m.senderId])));
    assert RunFor(p, store, 0) == (store, p);
    assert RunFor(p, store, 1) == (store, checked);
    assert RunFor(p, store, 2) == (store, admitted);
    assert RunFor(p, store, 3) == (store, admitted.onValue(Some(SeqValue(|s.log|))));
  }

  /**
   * Without the chain two posts can both read before either writes: both callers are told the same sequence number,
   * and the first message is overwritten by the second.
   */
  lemma UnserializedPostsCollide(store: map<string, Value>, s: State, first: Entry, second: Entry)
    requires Represents(store, Some(s)) && first.senderId in s.members && second.senderId in s.members
    ensures
      var n := |s.log| + 1;
      var (store1, p) := RunFor(PostProgram(first), store, 3);
      var (store2, q) := RunFor(PostProgram(second), store1, 3);
      var (store3, p') := RunFor(p, store2, 2);
      var (store4, q') := RunFor(q, store3, 2);
      && p' == q' == Reply200(PostedReply(n))
      && Read(store4, KeyText(MessageKey(n))) == Some(MessageValue(second.(seqNo := n)))
  {
    hide Represents, PostProgram, RunFor, KeyText;
    PostReads(store, s, first);
    PostReads(store, s, second);
    var n := |s.log| + 1;
    var p := PutOp(KeyText(SeqKey), SeqValue(n), PutOp(KeyText(MessageKey(n)), MessageValue(first.(seqNo := n)), Reply200(PostedReply(n))));
    var q := PutOp(KeyText(SeqKey), SeqValue(n), PutOp(KeyText(MessageKey(n)), MessageValue(second.(seqNo := n)), Reply200(PostedReply(n))));
    RunTwo(p, store);
    RunTwo(q, RunFor(p, store, 2).0);
  }
}
