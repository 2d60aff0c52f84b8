/** What a client checks by itself, whatever the relay answers: who is cached, which key is taken, what is verified. */
module AnyRelay {
  import opened Prelude
  import opened Decimals
  import opened Sequences
  import opened Crypto
  import opened Message
  import opened Client
  import opened ClientFacts
  import S = SessionSpec
  import T = Transcript
  import I = Integrity

  // ---- The member cache ----

  /** Entry `i` is the last one listed under the name. */
  ghost predicate LastNamed(members: seq<S.Member>, i: nat, f: string) {
    && i < |members| && members[i].input.fingerprint == f
    && forall j :: i < j < |members| ==> members[j].input.fingerprint != f
  }

  /** After caching a listing, a name stands for its last entry, and names not listed for what they stood for before. */
  lemma {:induction false} CacheHolds(table: JsMap<string, S.MemberInput>, members: seq<S.Member>, f: string, i: nat)
    requires LastNamed(members, i, f)
    ensures Get(CacheAll(table, members), f) == Some(members[i].input)
  {
    var n := |members| - 1;
    if i < n {
      assert members[..n][i] == members[i];
      CacheHolds(table, members[..n], f, i);
    }
  }

  lemma {:induction false} CacheKeeps(table: JsMap<string, S.MemberInput>, members: seq<S.Member>, f: string)
    requires forall m <- members :: m.input.fingerprint != f
    ensures Get(CacheAll(table, members), f) == Get(table, f)
  {
    if members != [] {
      var n := |members| - 1;
      assert members[n] in members && forall m <- members[..n] :: m in members;
      CacheKeeps(table, members[..n], f);
    }
  }

  /** The first entry listed under the invite's fingerprint carries a key with that fingerprint. */
  ghost predicate Pinned(members: seq<S.Member>, creator: string) {
    exists i :: 0 <= i < |members| && members[i].input.fingerprint == creator
                && Fingerprint(members[i].input.identityPub) == creator
                && forall j :: 0 <= j < i ==> members[j].input.fingerprint != creator
  }

  lemma PinnedLater(m: S.Member, rest: seq<S.Member>, f: string)
    requires m.input.fingerprint != f && Pinned(rest, f)
    ensures Pinned([m] + rest, f)
  {
    hide Fingerprint;
    var i :| 0 <= i < |rest| && rest[i].input.fingerprint == f && Fingerprint(rest[i].input.identityPub) == f
             && forall j :: 0 <= j < i ==> rest[j].input.fingerprint != f;
    var all := [m] + rest;
    assert all[i + 1] == rest[i];
    assert forall j :: 0 <= j < i + 1 ==> all[j].input.fingerprint != f;
  }

  lemma PinnedSooner(m: S.Member, rest: seq<S.Member>, f: string)
    requires m.input.fingerprint != f && Pinned([m] + rest, f)
    ensures Pinned(rest, f)
  {
    hide Fingerprint;
    var all := [m] + rest;
    var i :| 0 <= i < |all| && all[i].input.fingerprint == f && Fingerprint(all[i].input.identityPub) == f
             && forall j :: 0 <= j < i ==> all[j].input.fingerprint != f;
    assert rest[i - 1] == all[i];
    assert forall j :: 0 <= j < i - 1 ==> rest[j] == all[j + 1];
  }

  lemma {:induction false} FindMeans(members: seq<S.Member>, f: string)
    ensures FindMember(members, f).Some? && Fingerprint(FindMember(members, f).value.input.identityPub) == f <==> Pinned(members, f)
  {
    hide Fingerprint, Pinned;
    if members == [] {
      NobodyPinned(f);
    } else {
      var rest := members[1..];
      assert members == [members[0]] + rest;
      if members[0].input.fingerprint == f {
        FirstPinned(members[0], rest);
      } else {
        FindMeans(rest, f);
        if Pinned(rest, f) {
          PinnedLater(members[0], rest, f);
        }
        if Pinned(members, f) {
          PinnedSooner(members[0], rest, f);
        }
      }
    }
  }

  lemma NobodyPinned(f: string)
    ensures !Pinned([], f)
  {
  }

  lemma FirstPinned(m: S.Member, rest: seq<S.Member>)
    ensures Pinned([m] + rest, m.input.fingerprint) <==> Fingerprint(m.input.identityPub) == m.input.fingerprint
  {
    hide Fingerprint;
    var all, f := [m] + rest, m.input.fingerprint;
    assert all[0] == m;
    if i :| 0 <= i < |all| && all[i].input.fingerprint == f && Fingerprint(all[i].input.identityPub) == f
            && forall j :: 0 <= j < i ==> all[j].input.fingerprint != f {
      assert i == 0;
    }
  }

  /**
   * Whatever the relay answers a join, the client pins the invite's session and creator, takes the epoch it is told, and
   * caches the listed members exactly if the creator listed first under the pinned name has the pinned key.
   */
  lemma JoinChecksPin(c: Client, sessionId: string, creator: string, reply: Option<(seq<S.Member>, int)>)
    ensures
      var d := Joined(c, sessionId, creator, reply);
      && d == c.(sessionId := sessionId, role := Joiner, creatorFingerprint := creator, epoch := d.epoch, membersById := d.membersById)
      && d.epoch == (if reply.Some? then reply.value.1 else c.epoch)
      && d.membersById == if reply.Some? && Pinned(reply.value.0, creator) then CacheAll(c.membersById, reply.value.0) else c.membersById
  {
    hide Fingerprint, CacheAll, FindMember;
    if reply.Some? {
      FindMeans(reply.value.0, creator);
    }
  }

  // ---- The group key ----

  /** The signature of a group key fixes its session, its epoch and the key. */
  lemma KeySignatureBinds(sid: string, e: int, key: Bytes, sid': string, e': int, key': Bytes, holder: PublicKey, holder': PublicKey)
    requires sid == sid' || ('|' !in sid && '|' !in sid')
    requires SignGroupKey(sid, e, key, holder).1 == SignGroupKey(sid', e', key', holder').1
    ensures sid == sid' && e == e' && key == key' && holder == holder'
  {
    hide IntText, Lift;
    var a, b := "randevu/groupkey/v1|" + sid + "|" + IntText(e) + "|", "randevu/groupkey/v1|" + sid' + "|" + IntText(e') + "|";
    assert Lift(a) + Commitment(key) == Lift(b) + Commitment(key') by {
      assert KeyDistribution(sid, e, Commitment(key)).parts[0] == KeyDistribution(sid', e', Commitment(key')).parts[0];
    }
    assert |Commitment(key)| == 1 && |Commitment(key')| == 1;
    assert Lift(a) == (Lift(a) + Commitment(key))[..|Lift(a)|] && Lift(b) == (Lift(b) + Commitment(key'))[..|Lift(b)|];
    assert Commitment(key) == (Lift(a) + Commitment(key))[|Lift(a)|..] && Commitment(key') == (Lift(b) + Commitment(key'))[|Lift(b)|..];
    assert Commitment(key)[0] == Commitment(key')[0];
    assert Sha256([key]).parts[0] == Sha256([key']).parts[0];
    LiftInjective(a, b);
    KeyPrefixBinds(sid, e, sid', e');
  }

  lemma KeyPrefixBinds(sid: string, e: int, sid': string, e': int)
    requires sid == sid' || ('|' !in sid && '|' !in sid')
    requires "randevu/groupkey/v1|" + sid + "|" + IntText(e) + "|" == "randevu/groupkey/v1|" + sid' + "|" + IntText(e') + "|"
    ensures sid == sid' && e == e'
  {
    hide IntText;
    var tag := "randevu/groupkey/v1|";
    var whole, whole' := sid + ['|'] + (IntText(e) + ['|']), sid' + ['|'] + (IntText(e') + ['|']);
    assert tag + sid + "|" + IntText(e) + "|" == tag + whole && tag + sid' + "|" + IntText(e') + "|" == tag + whole';
    assert whole == (tag + whole)[|tag|..] && whole' == (tag + whole')[|tag|..];
    if sid == sid' {
      assert IntText(e) + ['|'] == whole[|sid| + 1..] && IntText(e') + ['|'] == whole'[|sid'| + 1..];
    } else {
      CutFirst(sid, IntText(e) + ['|'], sid', IntText(e') + ['|'], '|');
    }
    assert IntText(e) == (IntText(e) + ['|'])[..|IntText(e) + ['|']| - 1];
    assert IntText(e') == (IntText(e') + ['|'])[..|IntText(e') + ['|']| - 1];
    IntTextInjective(e, e');
  }

  /** An answer that holds `key`, sealed to this client, with its commitment and the holder's signature for this epoch. */
  ghost predicate Vouched(c: Client, e: int, creatorId: string, entry: S.WrappedKey, key: Bytes) {
    exists holder ::
      && Get(c.membersById, creatorId) == Some(holder) && (c.creatorFingerprint == "" || creatorId == c.creatorFingerprint)
      && entry.wrappedKey == HexField(Sealed(c.agreement, key))
      && entry.commitment == [Hex(Sha256([key]))]
      && entry.signature == SignGroupKey(c.sessionId, e, key, holder.identityPub).1
  }

  /**
   * Whatever the relay answers a key request: a key becomes current exactly if it is vouched for by the holder pinned from
   * the invite; an answer that nothing is there yet changes nothing; and everything else is an error.
   */
  lemma KeyIsVouched(c: Client, e: int, creatorId: string, reply: Result<S.WrappedKey, S.SessionError>)
    ensures match reply
            case Err(error) => OnKey(c, e, creatorId, reply) == if error.status == 404 then Ok(c) else Err(())
            case Ok(entry) =>
              && (forall key :: Vouched(c, e, creatorId, entry, key) ==>
                    OnKey(c, e, creatorId, reply) == Ok(c.(groupKey := Some(key), groupKeys := Set(c.groupKeys, e, key), epoch := e)))
              && ((forall key :: !Vouched(c, e, creatorId, entry, key)) ==> OnKey(c, e, creatorId, reply) == Err(()))
  {
    hide Get, Set, KeyDistribution;
    if reply.Ok? {
      var entry := reply.value;
      if OnKey(c, e, creatorId, reply).Ok? {
        assert Vouched(c, e, creatorId, entry, entry.wrappedKey.bytes.payload);
      }
    }
  }

  // ---- The messages ----

  /** What the client makes of message `i`, its chain having stood at `base` before the first one. */
  ghost predicate Judged(c: Client, base: seq<Bytes>, messages: seq<Entry>, i: nat, e: LogEntry)
    requires i < |messages|
  {
    var m := messages[i];
    && e.wire == m && e.seqNo == m.seqNo && e.senderId == m.senderId && e.messageType == m.messageType
    && Decode(c.sessionId, m).Some?
    && var env := Decode(c.sessionId, m).value;
    && e.id == [Hex(SigningBytes(env))]
    && (e.chainOk <==> env.prevHash == Fold(base + T.Signed(c.sessionId, messages[..i])))
    && (e.verified <==>
          e.chainOk && Get(c.membersById, m.senderId).Some?
          && m.signature == HexField(SignMessage(env, Get(c.membersById, m.senderId).value.identityPub)))
    && BodyRead(c, m, env, e)
  }

  /** The body is the plaintext of someone else's verified message under the key held for its epoch, and else empty. */
  ghost predicate BodyRead(c: Client, m: Entry, env: Envelope, e: LogEntry) {
    if e.verified && m.senderId != c.MemberId() && Get(c.groupKeys, m.epoch).Some?
       && exists p :: env.ciphertext == Encrypt(Get(c.groupKeys, m.epoch).value, env.nonce, AssociatedData(c.sessionId, m.epoch, m.senderId), p)
    then env.ciphertext == Encrypt(Get(c.groupKeys, m.epoch).value, env.nonce, AssociatedData(c.sessionId, m.epoch, m.senderId), e.body)
    else e.body == ""
  }

  /** What `pull` leaves alone. */
  ghost predicate SameButLog(c: Client, d: Client) {
    d == c.(head := d.head, log := d.log, fetchedSeq := d.fetchedSeq)
  }

  lemma EnteredJudged(c: Client, d: Client, base: seq<Bytes>, messages: seq<Entry>, i: nat)
    requires i < |messages| && SameButLog(c, d) && Foldable(d, messages[i])
    requires d.head == Fold(base + T.Signed(c.sessionId, messages[..i]))
    ensures Judged(c, base, messages, i, Entered(d, messages[i]))
  {
    hide Fold, T.Signed, SigningBytes, AssociatedData, Decode, Get;
    var m := messages[i];
    var env := Decode(c.sessionId, m).value;
    IdHex(env);
    var e := Entered(d, m);
    if e.verified && m.senderId != c.MemberId() && Get(c.groupKeys, m.epoch).Some? {
      var key, ad := Get(c.groupKeys, m.epoch).value, AssociatedData(c.sessionId, m.epoch, m.senderId);
      if p :| env.ciphertext == Encrypt(key, env.nonce, ad, p) {
        assert Decrypt(key, env.nonce, ad, env.ciphertext) == Some(p);
      }
      if Decrypt(key, env.nonce, ad, env.ciphertext).Some? {
        assert env.ciphertext == Encrypt(key, env.nonce, ad, env.ciphertext.plaintext);
      }
    }
  }

  lemma IdHex(env: Envelope)
    ensures MessageId(env) == [Hex(SigningBytes(env))]
  {
  }

  /** A message that `pull` can take in: its fields are hex, and so is its signature if its sender is cached. */
  ghost predicate Readable(c: Client, m: Entry) {
    Decode(c.sessionId, m).Some? && (Get(c.membersById, m.senderId).Some? ==> m.signature.HexField?)
  }

  lemma NextLinks(base: seq<Bytes>, sid: string, messages: seq<Entry>)
    requires messages != [] && Decode(sid, messages[|messages| - 1]).Some?
    ensures
      var n := |messages| - 1;
      Fold(base + T.Signed(sid, messages)) ==
      Some(ChainHash(Fold(base + T.Signed(sid, messages[..n])), SigningBytes(Decode(sid, messages[n]).value)))
  {
    hide SigningBytes, Decode;
    var n := |messages| - 1;
    I.SignedLast(sid, messages);
    var before, link := base + T.Signed(sid, messages[..n]), SigningBytes(Decode(sid, messages[n]).value);
    assert base + T.Signed(sid, messages) == before + [link];
    assert (before + [link])[..|before|] == before;
  }

  /**
   * Whatever the relay sends, a pull that gets through has judged each message on its own evidence: in its place exactly
   * if it names the fold of everything before it, verified exactly if so and signed by its cached sender, and read
   * exactly if verified, someone else's, and sealed under the key held for its epoch. The head is the fold of them all.
   */
  lemma {:induction false} PullJudges(c: Client, base: seq<Bytes>, messages: seq<Entry>)
    requires c.head == Fold(base) && Pull(c, messages).1
    ensures
      var d := Pull(c, messages).0;
      && SameButLog(c, d) && |d.log| == |c.log| + |messages| && c.log <= d.log
      && d.head == Fold(base + T.Signed(c.sessionId, messages))
      && forall j :: |c.log| <= j < |d.log| ==> Judged(c, base, messages, j - |c.log|, d.log[j])
  {
    hide Fold, T.Signed, SigningBytes, Judged, Entered, Foldable, Decode;
    if messages == [] {
      NoLinks(base, c.sessionId);
    } else {
      var n := |messages| - 1;
      PullJudges(c, base, messages[..n]);
      var mid := Pull(c, messages[..n]).0;
      assert Foldable(mid, messages[n]);
      FoldableDecodes(mid, messages[n]);
      NextLinks(base, c.sessionId, messages);
      EnteredJudged(c, mid, base, messages, n);
      forall j | |c.log| <= j < |mid.log| ensures Judged(c, base, messages, j - |c.log|, mid.log[j]) {
        JudgedPrefix(c, base, messages, n, j - |c.log|, mid.log[j]);
      }
    }
  }

  /** A bound that is met: `top` is the larger of `start` and the numbers of the messages. */
  ghost predicate Highest(start: int, numbers: seq<int>, top: int) {
    && start <= top && (forall i :: 0 <= i < |numbers| ==> numbers[i] <= top)
    && (top == start || exists i :: 0 <= i < |numbers| && numbers[i] == top)
  }

  lemma HighestNext(start: int, numbers: seq<int>, top: int, n: int)
    requires Highest(start, numbers, top)
    ensures Highest(start, numbers + [n], if top < n then n else top)
  {
    var more := numbers + [n];
    assert more[|numbers|] == n;
    if i :| 0 <= i < |numbers| && numbers[i] == top {
      assert more[i] == top;
    }
  }

  function Numbers(messages: seq<Entry>): (r: seq<int>)
    ensures |r| == |messages| && forall i :: 0 <= i < |r| ==> r[i] == messages[i].seqNo
  {
    seq(|messages|, i requires 0 <= i < |messages| => messages[i].seqNo)
  }

  /** Whatever numbers the relay puts on messages, the fetch cursor is the highest one seen. */
  lemma {:induction false} PullCursor(c: Client, messages: seq<Entry>)
    requires Pull(c, messages).1
    ensures Highest(c.fetchedSeq, Numbers(messages), Pull(c, messages).0.fetchedSeq)
  {
    hide Foldable, Entered, Decode, SigningBytes, ChainHash, Highest;
    if messages == [] {
      NothingHigher(c.fetchedSeq);
    } else {
      var n := |messages| - 1;
      PullCursor(c, messages[..n]);
      HighestNext(c.fetchedSeq, Numbers(messages[..n]), Pull(c, messages[..n]).0.fetchedSeq, messages[n].seqNo);
      assert Numbers(messages) == Numbers(messages[..n]) + [messages[n].seqNo];
    }
  }

  lemma NothingHigher(start: int)
    ensures Highest(start, [], start)
  {
  }

  lemma NoLinks(base: seq<Bytes>, sid: string)
    ensures Fold(base + T.Signed(sid, [])) == Fold(base)
  {
    assert base + T.Signed(sid, []) == base;
  }

  lemma FoldableDecodes(c: Client, m: Entry)
    requires Foldable(c, m)
    ensures Decode(c.sessionId, m).Some?
  {
    hide Decode;
  }

  lemma JudgedPrefix(c: Client, base: seq<Bytes>, messages: seq<Entry>, n: nat, i: nat, e: LogEntry)
    requires i < n <= |messages| && Judged(c, base, messages[..n], i, e)
    ensures Judged(c, base, messages, i, e)
  {
    hide Fold, T.Signed, SigningBytes, AssociatedData, Decode, BodyRead;
    assert messages[..n][..i] == messages[..i];
  }

  /** A pull gets through exactly if it can read every message. */
  lemma {:induction false} PullStops(c: Client, messages: seq<Entry>)
    ensures SameButLog(c, Pull(c, messages).0)
    ensures Pull(c, messages).1 <==> forall m <- messages :: Readable(c, m)
  {
    hide Entered, ChainHash, SigningBytes, Decode;
    if messages != [] {
      var n := |messages| - 1;
      PullStops(c, messages[..n]);
      assert messages == messages[..n] + [messages[n]];
      assert forall m :: m in messages <==> m in messages[..n] || m == messages[n];
      assert Foldable(Pull(c, messages[..n]).0, messages[n]) <==> Readable(c, messages[n]);
    }
  }

  /** It stops in front of the first message it cannot read, with everything before that one taken in. */
  lemma {:induction false} PullStopsInFront(c: Client, messages: seq<Entry>, i: nat)
    requires i < |messages| && !Readable(c, messages[i]) && forall m <- messages[..i] :: Readable(c, m)
    ensures Pull(c, messages) == (Pull(c, messages[..i]).0, false) && Pull(c, messages[..i]).1
  {
    hide Decode, Entered, ChainHash, SigningBytes;
    var n := |messages| - 1;
    PullStops(c, messages[..i]);
    PullStops(c, messages[..n]);
    if i < n {
      assert messages[..n][..i] == messages[..i];
      PullStopsInFront(c, messages[..n], i);
    }
  }

  /**
   * Two fresh clients with the same head have been given the same messages in the same order, whichever relays answered
   * them and in however many answers.
   */
  lemma SameHeadSameHistory(c: Client, d: Client, a: seq<Entry>, b: seq<Entry>)
    requires c.head == None && d.head == None && Pull(c, a).1 && Pull(d, b).1
    requires Pull(c, a).0.head == Pull(d, b).0.head
    ensures T.Signed(c.sessionId, a) == T.Signed(d.sessionId, b) && |a| == |b|
  {
    hide *;
    FreshHead(c, a);
    FreshHead(d, b);
    FoldInjective(T.Signed(c.sessionId, a), T.Signed(d.sessionId, b));
    AllSigned(c, a);
    AllSigned(d, b);
  }

  lemma FreshHead(c: Client, messages: seq<Entry>)
    requires c.head == None && Pull(c, messages).1
    ensures Pull(c, messages).0.head == Fold(T.Signed(c.sessionId, messages))
  {
    hide Pull, Judged, Fold, T.Signed, SameButLog;
    NothingFolded();
    PullJudges(c, [], messages);
    assert [] + T.Signed(c.sessionId, messages) == T.Signed(c.sessionId, messages);
  }

  lemma NothingFolded()
    ensures Fold([]) == None
  {
  }

  lemma AllSigned(c: Client, messages: seq<Entry>)
    requires Pull(c, messages).1
    ensures |T.Signed(c.sessionId, messages)| == |messages|
  {
    hide Pull, Decode, T.Signed;
    PullStops(c, messages);
    I.SignedAt(c.sessionId, messages, 0);
  }

  // ---- Handing over ----

  /** Entry `i` is past the cursor and numbered above everything before it. */
  ghost predicate IsNew(cursor: int, log: seq<LogEntry>, i: nat)
    requires i < |log|
  {
    log[i].seqNo > cursor && forall j :: 0 <= j < i ==> log[j].seqNo < log[i].seqNo
  }

  /** These are, in order, the places of what others sent and is new. */
  ghost predicate NewPlaces(cursor: int, log: seq<LogEntry>, me: string, at: seq<nat>) {
    && (forall k, l :: 0 <= k < l < |at| ==> at[k] < at[l])
    && (forall k :: 0 <= k < |at| ==> at[k] < |log|)
    && (forall i: nat :: i < |log| ==> (i in at <==> log[i].senderId != me && IsNew(cursor, log, i)))
  }

  ghost predicate HandsOver(e: LogEntry, r: Received) {
    && r.seqNo == e.seqNo && r.id == e.id && r.senderId == e.senderId && r.messageType == e.messageType
    && r.body == e.body && r.ref == e.wire.ref && r.verified == e.verified
  }

  /** The cursor is as high as anything in the log, and new entries are those above it. */
  ghost predicate AtTop(cursor: int, log: seq<LogEntry>, top: int) {
    && cursor <= top && (forall i :: 0 <= i < |log| ==> log[i].seqNo <= top)
    && (top == cursor || exists i :: 0 <= i < |log| && log[i].seqNo == top)
  }

  lemma NextIsNew(cursor: int, log: seq<LogEntry>, top: int, e: LogEntry)
    requires AtTop(cursor, log, top)
    ensures IsNew(cursor, log + [e], |log|) <==> e.seqNo > top
    ensures AtTop(cursor, log + [e], if e.seqNo > top then e.seqNo else top)
    ensures forall i: nat :: i < |log| ==> (IsNew(cursor, log + [e], i) <==> IsNew(cursor, log, i))
  {
    var more := log + [e];
    assert more[|log|] == e;
    forall i | 0 <= i < |log| ensures more[i] == log[i] {
    }
    if i :| 0 <= i < |log| && log[i].seqNo == top {
      assert more[i].seqNo == top;
    }
  }

  lemma PlacesNext(cursor: int, log: seq<LogEntry>, top: int, e: LogEntry, me: string, at: seq<nat>)
    requires AtTop(cursor, log, top) && NewPlaces(cursor, log, me, at)
    ensures NewPlaces(cursor, log + [e], me, if e.seqNo > top && e.senderId != me then at + [|log|] else at)
  {
    NextIsNew(cursor, log, top, e);
    hide IsNew, AtTop;
    var more := if e.seqNo > top && e.senderId != me then at + [|log|] else at;
    forall i: nat | i < |log + [e]| ensures i in more <==> (log + [e])[i].senderId != me && IsNew(cursor, log + [e], i) {
      if i < |log| {
        assert (log + [e])[i] == log[i] && (i in more <==> i in at);
      } else {
        assert i == |log| && i !in at;
      }
    }
  }

  /**
   * Whatever the log holds, one pass of `receive` hands over exactly what others sent and is numbered above the cursor and
   * everything before it, in order, each as it was recorded, and moves the cursor to the highest number.
   */
  lemma {:induction false} DeliverMeans(cursor: int, log: seq<LogEntry>, me: string) returns (at: seq<nat>)
    ensures NewPlaces(cursor, log, me, at) && AtTop(cursor, log, Deliver(cursor, log, me).0)
    ensures |Deliver(cursor, log, me).1| == |at|
    ensures forall k :: 0 <= k < |at| ==> at[k] < |log| && HandsOver(log[at[k]], Deliver(cursor, log, me).1[k])
  {
    hide NewPlaces, AtTop;
    if log == [] {
      at := [];
      NoPlaces(cursor, me);
    } else {
      var n := |log| - 1;
      var before, e := log[..n], log[n];
      var top := Deliver(cursor, before, me).0;
      at := DeliverMeans(cursor, before, me);
      PlacesNext(cursor, before, top, e, me, at);
      NextIsNew(cursor, before, top, e);
      assert before + [e] == log;
      if e.seqNo > top && e.senderId != me {
        at := at + [n];
      }
    }
  }

  lemma NoPlaces(cursor: int, me: string)
    ensures NewPlaces(cursor, [], me, []) && AtTop(cursor, [], cursor)
  {
  }
}
