/**
 * The client as the object that runs: its fields are updated in place, and each method handles one relay answer.
 * A call is split at its relay requests, because other clients run in between.
 */
module Local {
  import opened Prelude
  import opened Sequences
  import opened Sorting
  import opened Crypto
  import opened Message
  import opened SessionSpec
  import C = Client
  import T = Transcript

  class RandevuLocal {
    const identity: PublicKey
    const agreement: PublicKey
    var sessionId: string
    var role: C.Role
    var creatorFingerprint: string
    var epoch: int
    var groupKey: Option<Bytes>
    var groupKeys: JsMap<int, Bytes>
    var establishedEpoch: int
    var head: Option<Bytes>
    var fetchedSeq: int
    var inboxSeq: int
    var log: seq<C.LogEntry>
    var membersById: JsMap<string, MemberInput>

    /** The fields as one value. */
    function State(): C.Client
      reads this
    {
      C.Client(identity, agreement, sessionId, role, creatorFingerprint, epoch, groupKey, groupKeys,
               establishedEpoch, head, fetchedSeq, inboxSeq, log, membersById)
    }

    constructor (identity: PublicKey, agreement: PublicKey)
      ensures State() == C.NewClient(identity, agreement)
    {
      this.identity, this.agreement := identity, agreement;
      sessionId, role, creatorFingerprint, epoch := "", C.NoRole, "", 0;
      groupKey, groupKeys, establishedEpoch := None, [], -1;
      head, fetchedSeq, inboxSeq, log, membersById := None, 0, 0, [], [];
    }

    method Cache(members: seq<Member>)
      modifies this`membersById
      ensures membersById == C.CacheAll(old(membersById), members)
    {
      for i := 0 to |members|
        invariant membersById == C.CacheAll(old(membersById), members[..i])
      {
        PrefixStep(members, i);
        var m := members[i].input;
        membersById := Set(membersById, m.fingerprint, m);
      }
      assert members[..|members|] == members;
    }

    /** After the relay accepted the creation. */
    method SessionCreated(sessionId: string)
      modifies this
      ensures State() == C.Created(old(State()), sessionId)
    {
      this.sessionId := sessionId;
      role := C.Creator;
      creatorFingerprint := Fingerprint(identity);
      membersById := Set(membersById, Fingerprint(identity), MemberInput(Fingerprint(identity), identity, agreement));
    }

    /** The pins are set before the request, the rest only once a reply with a matching creator key arrived. */
    method JoinSession(sessionId: string, creator: string, reply: Option<(seq<Member>, int)>) returns (ok: bool)
      modifies this
      ensures State() == C.Joined(old(State()), sessionId, creator, reply)
      ensures ok <==> reply.Some? && C.FindMember(reply.value.0, creator).Some?
                      && Fingerprint(C.FindMember(reply.value.0, creator).value.input.identityPub) == creator
    {
      this.sessionId := sessionId;
      role := C.Joiner;
      creatorFingerprint := creator;
      if reply.None? {
        return false;
      }
      var (members, newEpoch) := reply.value;
      epoch := newEpoch;
      var found := C.FindMember(members, creator);
      if found.None? || Fingerprint(found.value.input.identityPub) != creator {
        return false;
      }
      Cache(members);
      ok := true;
    }

    /** First half of `ensureKeys`: the status reply decides whether keys are posted, fetched, or settled. */
    method StatusSeen(status: StatusReply, newKey: Bytes) returns (next: C.KeyStep)
      modifies this
      ensures (State(), next) == C.OnStatus(old(State()), status, newKey)
    {
      Cache(status.members);
      if role == C.Creator {
        if groupKey.None? || status.meta.epoch != establishedEpoch {
          epoch := status.meta.epoch;
          next := C.PostNewKey(status.meta.epoch, newKey, C.WrapAll(status.members, newKey));
        } else {
          next := C.Settled;
        }
      } else if groupKey.None? || status.meta.epoch != epoch {
        next := C.FetchKey(status.meta.epoch, status.meta.creatorId);
      } else {
        next := C.Settled;
      }
    }

    method KeysPosted(postedEpoch: int, key: Bytes)
      modifies this
      ensures State() == C.OnKeysPosted(old(State()), postedEpoch, key)
    {
      groupKey := Some(key);
      groupKeys := Set(groupKeys, postedEpoch, key);
      establishedEpoch := postedEpoch;
    }

    /** A key not posted yet is tolerated; one that does not open or verify is an error and changes nothing. */
    method KeyFetched(wanted: int, creatorId: string, reply: Result<WrappedKey, SessionError>) returns (r: Result<bool, ()>)
      modifies this
      ensures r.Ok? ==> C.OnKey(old(State()), wanted, creatorId, reply) == Ok(State())
      ensures r.Err? ==> C.OnKey(old(State()), wanted, creatorId, reply).Err? && State() == old(State())
    {
      if reply.Err? {
        if reply.error.status == 404 {
          return Ok(false);
        }
        return Err(());
      }
      var entry := reply.value;
      if entry.wrappedKey.NotHex? {
        return Err(());
      }
      var unwrapped := Open(entry.wrappedKey.bytes, agreement);
      if unwrapped.None? {
        return Err(());
      }
      var holder := C.ResolveHolder(State(), creatorId);
      if holder.None? {
        return Err(());
      }
      if !C.VerifyGroupKey(sessionId, wanted, unwrapped.value, entry.commitment, entry.signature, holder.value.identityPub) {
        return Err(());
      }
      groupKey := unwrapped;
      groupKeys := Set(groupKeys, wanted, unwrapped.value);
      epoch := wanted;
      r := Ok(true);
    }

    /** One turn of the `pull` loop; false stands for a throw on malformed hex. */
    method FoldMessage(m: Entry) returns (ok: bool)
      modifies this
      ensures ok <==> C.Foldable(old(State()), m)
      ensures State() == if ok then C.FoldOne(old(State()), m) else old(State())
    {
      hide Decode, VerifyMessage, MessageId, ChainHash, SigningBytes, Decrypt, AssociatedData, Fingerprint, Get;
      var decoded := Decode(sessionId, m);
      if decoded.None? {
        return false;
      }
      var env := decoded.value;
      var sender := Get(membersById, m.senderId);
      if sender.Some? && m.signature.NotHex? {
        return false;
      }
      var sigOk := sender.Some? && VerifyMessage(env, m.signature.bytes, sender.value.identityPub);
      var chainOk := env.prevHash == head;
      var verified := sigOk && chainOk;
      var id := MessageId(env);
      head := Some(ChainHash(head, SigningBytes(env)));
      var body := "";
      var key := Get(groupKeys, m.epoch);
      if verified && m.senderId != Fingerprint(identity) && key.Some? {
        var plain := Decrypt(key.value, env.nonce, AssociatedData(sessionId, m.epoch, m.senderId), env.ciphertext);
        if plain.Some? {
          body := plain.value;
        }
      }
      log := log + [C.LogEntry(m.seqNo, m.senderId, m.messageType, verified, chainOk, body, id, m)];
      fetchedSeq := if fetchedSeq < m.seqNo then m.seqNo else fetchedSeq;
      ok := true;
    }

    /** Fold the messages one by one, stopping where folding throws. */
    method Pull(messages: seq<Entry>) returns (ok: bool)
      modifies this
      ensures (State(), ok) == C.Pull(old(State()), messages)
    {
      ok := true;
      for i := 0 to |messages|
        invariant ok && (State(), true) == C.Pull(old(State()), messages[..i])
      {
        PrefixStep(messages, i);
        ok := FoldMessage(messages[i]);
        if !ok {
          StuckPull(old(State()), messages, i + 1);
          return;
        }
      }
      assert messages[..|messages|] == messages;
    }

    /** The message `send` posts after its pull. */
    method Compose(body: string, messageType: string, ref: Option<Text>, nonce: Bytes) returns (m: Entry)
      requires groupKey.Some?
      ensures m == C.Compose(State(), body, messageType, ref, nonce)
    {
      var me := Fingerprint(identity);
      var ciphertext := Encrypt(groupKey.value, nonce, AssociatedData(sessionId, epoch, me), body);
      var env := Envelope(sessionId, epoch, me, messageType, head, ref, nonce, ciphertext);
      var signature := SignMessage(env, identity);
      m := Entry(0, epoch, me, messageType, HexField(nonce), HexField(ciphertext),
                 if head.Some? then Some(HexField(head.value)) else None, ref, HexField(signature));
    }

    /** The delivery loop of `receive`, after its pull. */
    method Receive() returns (out: seq<C.Received>)
      modifies this`inboxSeq
      ensures (inboxSeq, out) == C.Deliver(old(inboxSeq), log, Fingerprint(identity))
    {
      out := [];
      ghost var me, cursor := Fingerprint(identity), inboxSeq;
      var entries := log;
      for i := 0 to |entries|
        invariant inboxSeq == C.Deliver(cursor, entries[..i], me).0
        invariant out == C.Deliver(cursor, entries[..i], me).1
      {
        PrefixStep(entries, i);
        var entry := entries[i];
        if entry.seqNo <= inboxSeq {
          continue;
        }
        inboxSeq := entry.seqNo;
        if entry.senderId == Fingerprint(identity) {
          continue;
        }
        out := out + [C.Delivered(entry)];
      }
      assert entries[..|entries|] == log;
    }

    method ExportTranscript() returns (b: T.Bundle)
      ensures b == C.Export(State())
    {
      var headHash := if head.Some? then HexOf(head.value) else [];
      b := T.Bundle(sessionId, C.ExportMembers(membersById), C.ExportKeys(groupKeys), C.Wires(Sort(C.ByLogSeq, log)),
                    Some(T.SignHead(sessionId, fetchedSeq, headHash, Fingerprint(identity), identity)));
    }
  }

  /** Once a pull is stuck on a message it stays stuck. */
  lemma {:induction false} StuckPull(c: C.Client, messages: seq<Entry>, n: nat)
    requires n <= |messages| && !C.Pull(c, messages[..n]).1
    ensures C.Pull(c, messages) == C.Pull(c, messages[..n])
  {
    hide C.Foldable, C.FoldOne;
    if n < |messages| {
      var m := |messages| - 1;
      assert messages[..m][..n] == messages[..n];
      StuckPull(c, messages[..m], n);
      assert C.Pull(c, messages) == (C.Pull(c, messages[..m]).0, false);
    } else {
      assert messages[..n] == messages;
    }
  }
}
