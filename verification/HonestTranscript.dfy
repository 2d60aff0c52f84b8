/** The offline verifier's verdict on what the creator of an honest session exports. */
module HonestTranscript {
  import opened Prelude
  import opened Sequences
  import opened Sorting
  import opened Decimals
  import opened Crypto
  import opened Message
  import opened Client
  import opened ClientFacts
  import opened Protocol
  import opened ProtocolInvariant
  import opened ProtocolSteps
  import opened ProtocolPull
  import opened ProtocolTraffic
  import opened ProtocolRuns
  import opened Guarantees
  import opened Reading
  import T = Transcript
  import I = Integrity
  import S = SessionSpec

  // ---- The exported tables ----

  /** What the creator's bundle rests on, in the terms of the shared state. */
  ghost predicate Ready(sh: Shared, c: Client) {
    && sh.joined != [] && c.identity == sh.joined[0] && c.sessionId == sh.Sid()
    && LogOk(sh) && |sh.Links()| == |sh.s.log| && Numbered(sh.s.log)
    && FoldedOk(sh, c)
    && CacheOk(sh, c.membersById) && Get(c.membersById, Fingerprint(sh.joined[0])).Some?
    && Distinct(c.groupKeys)
    && sh.vault == c.groupKeys && sh.known == c.membersById
  }

  lemma CreatorReady(sh: Shared, p: Proc)
    requires SharedOk(sh) && ProcOk(sh, sh.joined[0], p)
    ensures Ready(sh, p.client)
  {
    assert Numbered(sh.s.log) by {
      assert RelayOk(sh) && S.Inv(sh.s);
    }
    hide FoldedOk, LogOk, CacheOk, KeysOk, PhaseOk, InboxOk, Numbered, RelayOk, T.Signed;
  }

  lemma SequenceIsSorted(log: seq<LogEntry>)
    requires InSequence(log)
    ensures Sort(ByLogSeq, log) == log
  {
    SortKeepsSorted(ByLogSeq, log);
  }

  lemma NumberedIsSorted(log: seq<Entry>, n: nat)
    requires Numbered(log) && n <= |log|
    ensures Sort(BySeq, log[..n]) == log[..n]
  {
    SortKeepsSorted(BySeq, log[..n]);
  }

  lemma WiresAreLog(sh: Shared, c: Client)
    requires |sh.sent| == |sh.s.log| <= |sh.Links()| && FoldedOk(sh, c)
    ensures |c.log| <= |sh.s.log| && Wires(c.log) == sh.s.log[..|c.log|]
  {
    forall i | 0 <= i < |c.log| ensures Wires(c.log)[i] == sh.s.log[i] {
      assert EntryOk(sh, c.log[i], i);
    }
  }

  lemma ExportedOrder(sh: Shared, c: Client)
    requires Ready(sh, c)
    ensures |Export(c).messages| == |c.log| <= |sh.s.log|
    ensures T.Ordered(Export(c)) == sh.s.log[..|c.log|]
    ensures Export(c).sessionId == sh.Sid()
  {
    FoldedInSequence(sh, c);
    hide LogOk, T.Signed, Numbered, CacheOk, FoldedOk;
    SequenceIsSorted(c.log);
    WiresAreLog(sh, c);
    NumberedIsSorted(sh.s.log, |c.log|);
    hide Sort, InSequence, Ready;
  }

  lemma ReadyLog(sh: Shared, c: Client)
    requires Ready(sh, c)
    ensures LogOk(sh) && |sh.Links()| == |sh.s.log| && |c.log| <= |sh.s.log|
  {
    hide LogOk, CacheOk, T.Signed;
  }

  lemma ExportedLinks(sh: Shared, c: Client, i: nat)
    requires Ready(sh, c) && i <= |c.log|
    ensures T.Ordered(Export(c)) == sh.s.log[..|c.log|] && |c.log| <= |sh.s.log| && i <= |sh.Links()|
    ensures T.Signed(sh.Sid(), T.Ordered(Export(c))[..i]) == sh.Links()[..i]
  {
    hide *;
    ExportedOrder(sh, c);
    ReadyLog(sh, c);
    LinksOfPart(sh, i);
    assert sh.s.log[..|c.log|][..i] == sh.s.log[..i];
  }

  /** Every cached member is exported with its own key and identifiers. */
  lemma ExportedMembers(sh: Shared, c: Client)
    requires Ready(sh, c)
    ensures T.MembersValid(Export(c))
    ensures forall k: PublicKey :: Get(c.membersById, Fingerprint(k)).Some? ==>
              Fingerprint(k) in T.KeyTable(Export(c).members) && T.KeyTable(Export(c).members)[Fingerprint(k)] == k
  {
    hide LogOk, FoldedOk, Numbered, T.Signed;
    var members := Export(c).members;
    GetIsEntry(c.membersById, Fingerprint(sh.joined[0]));
    forall i | 0 <= i < |members| ensures T.MemberValid(members[i]) {
      assert c.membersById[i] in c.membersById;
    }
    forall k: PublicKey | Get(c.membersById, Fingerprint(k)).Some?
      ensures Fingerprint(k) in T.KeyTable(members) && T.KeyTable(members)[Fingerprint(k)] == k
    {
      CachedMember(sh, c, k);
      I.KeyTableReads(members, Fingerprint(k));
    }
  }

  lemma CachedMember(sh: Shared, c: Client, k: PublicKey)
    requires CacheOk(sh, c.membersById) && Get(c.membersById, Fingerprint(k)).Some?
    ensures ExportMember(sh.SelfOf(k)) in ExportMembers(c.membersById)
  {
    ProtocolKeys.CachedIsSelf(sh, c.membersById, k);
    GetIsEntry(c.membersById, Fingerprint(k));
    var i :| 0 <= i < |c.membersById| && c.membersById[i] == (Fingerprint(k), sh.SelfOf(k));
    assert ExportMembers(c.membersById)[i] == ExportMember(sh.SelfOf(k));
  }

  /** Every epoch key the creator ever made is disclosed. */
  lemma ExportedKeys(keys: JsMap<int, Bytes>, e: int)
    requires Distinct(keys) && Get(keys, e).Some?
    ensures e in T.EpochTable(ExportKeys(keys)) && T.EpochTable(ExportKeys(keys))[e] == Get(keys, e).value
  {
    GetIsEntry(keys, e);
    var i :| 0 <= i < |keys| && keys[i] == (e, Get(keys, e).value);
    assert ExportKeys(keys)[i] == T.GroupKey(e, HexField(Get(keys, e).value));
    assert forall j :: i < j < |keys| ==> ExportKeys(keys)[j].epoch != e;
    I.EpochTableReads(ExportKeys(keys), e, Get(keys, e).value);
  }

  // ---- The verdicts ----

  /** What the verifier finds in message `i` of an honest bundle. */
  ghost predicate FoundHonest(v: T.Verdict, m: Entry, x: Sent, i: nat) {
    && v.seqNo == m.seqNo && v.senderId == m.senderId == Fingerprint(x.sender)
    && v.messageType == m.messageType == x.draft.messageType && v.ref == m.ref == x.draft.ref
    && v.signatureValid
    && v.body == Some(x.draft.body)
    && (v.chainValid <==> x.base == i)
  }

  lemma MessageFound(sh: Shared, keys: map<string, PublicKey>, epochs: map<int, Bytes>, i: nat)
    requires LogOk(sh) && |sh.Links()| == |sh.s.log| && i < |sh.s.log|
    requires var m := sh.s.log[i];
             && m.senderId in keys && keys[m.senderId] == sh.sent[i].sender
             && m.epoch in epochs && Get(sh.vault, m.epoch) == Some(epochs[m.epoch])
    ensures FoundHonest(T.Judge(keys, epochs, sh.Sid(), Fold(sh.Links()[..i]), sh.s.log[i]), sh.s.log[i], sh.sent[i], i)
  {
    assert MessageOk(sh, sh.s.log[i], sh.sent[i]);
    ChainCheckMeansNotOvertaken(sh, i);
    hide LogOk;
  }

  lemma MessageBacked(sh: Shared, i: nat)
    requires LogOk(sh) && i < |sh.s.log|
    ensures sh.s.log[i].senderId == Fingerprint(sh.sent[i].sender)
    ensures Get(sh.vault, sh.s.log[i].epoch).Some? && Get(sh.known, sh.s.log[i].senderId).Some?
  {
    assert MessageOk(sh, sh.s.log[i], sh.sent[i]);
    hide LogOk, T.Signed, Decode;
  }

  lemma VerdictHonest(sh: Shared, c: Client, i: nat)
    requires Ready(sh, c) && i < |c.log|
    ensures |Export(c).messages| == |c.log| <= |sh.s.log| && |sh.sent| == |sh.s.log|
    ensures FoundHonest(T.VerdictAt(Export(c), i), sh.s.log[i], sh.sent[i], i)
  {
    ExportedOrder(sh, c);
    ExportedLinks(sh, c, i);
    ExportedMembers(sh, c);
    MessageBacked(sh, i);
    ExportedKeys(c.groupKeys, sh.s.log[i].epoch);
    var b := Export(c);
    assert b.sessionId == sh.Sid() && b.groupKeys == ExportKeys(c.groupKeys);
    hide Export, FoldedOk, CacheOk, LogOk, T.Judge, T.Signed, T.KeyTable, T.EpochTable, T.Ordered, Fold, FoundHonest;
    MessageFound(sh, T.KeyTable(b.members), T.EpochTable(b.groupKeys), i);
  }

  lemma HeadAgrees(sh: Shared, c: Client, b: T.Bundle)
    requires Ready(sh, c) && b.sessionId == sh.Sid()
    requires T.Ordered(b) == sh.s.log[..|c.log|] && |c.log| <= |sh.s.log|
    requires T.Signed(sh.Sid(), T.Ordered(b)[..|c.log|]) == sh.Links()[..|c.log|]
    ensures c.head == Fold(T.Signed(b.sessionId, T.Ordered(b)))
    ensures c.fetchedSeq == T.LastSeq(T.Ordered(b))
  {
    hide *;
    var ordered := T.Ordered(b);
    ReadyParts(sh, c);
    FoldedHead(sh, c);
    assert ordered[..|c.log|] == ordered;
    LastNumbered(sh.s.log, |c.log|);
  }

  lemma ReadyParts(sh: Shared, c: Client)
    requires Ready(sh, c)
    ensures |sh.sent| == |sh.s.log| == |sh.Links()| && FoldedOk(sh, c) && Numbered(sh.s.log)
  {
    hide MessageOk, FoldedOk, CacheOk, Numbered, T.Signed;
  }

  lemma LastNumbered(log: seq<Entry>, n: nat)
    requires Numbered(log) && n <= |log|
    ensures T.LastSeq(log[..n]) == n
  {
  }

  lemma SignedHeadMatches(c: Client, b: T.Bundle)
    requires b == Export(c)
    requires c.MemberId() in T.KeyTable(b.members) && T.KeyTable(b.members)[c.MemberId()] == c.identity
    requires c.head == Fold(T.Signed(b.sessionId, T.Ordered(b)))
    requires c.fetchedSeq == T.LastSeq(T.Ordered(b))
    ensures b.head.Some? && T.HeadMatches(b, b.head.value)
  {
    hide T.Signed, T.Ordered, Fold, T.KeyTable, T.LastSeq, ExportMembers, ExportKeys, Wires, Sort;
  }

  lemma ExportedHead(sh: Shared, c: Client)
    requires Ready(sh, c)
    ensures Export(c).head.Some? && T.HeadMatches(Export(c), Export(c).head.value)
  {
    ExportedMembers(sh, c);
    ExportedOrder(sh, c);
    ExportedLinks(sh, c, |c.log|);
    assert c.MemberId() == Fingerprint(sh.joined[0]) && c.identity == sh.joined[0];
    assert Get(c.membersById, Fingerprint(sh.joined[0])).Some?;
    hide Ready, Export, T.HeadMatches, T.KeyTable, T.Ordered, T.Signed, Fold, T.LastSeq, T.MembersValid;
    HeadAgrees(sh, c, Export(c));
    SignedHeadMatches(c, Export(c));
  }

  /** In an honest bundle members and head always check out, and each message is found as it was sent. */
  lemma HonestBundle(sh: Shared, c: Client)
    requires Ready(sh, c)
    ensures |Export(c).messages| == |c.log| <= |sh.sent| == |sh.s.log|
    ensures T.MembersValid(Export(c)) && Export(c).head.Some? && T.HeadMatches(Export(c), Export(c).head.value)
    ensures forall i {:trigger T.Verdicts(Export(c))[i]} :: 0 <= i < |c.log| ==>
              FoundHonest(T.Verdicts(Export(c))[i], sh.s.log[i], sh.sent[i], i)
  {
    ExportedMembers(sh, c);
    ExportedOrder(sh, c);
    ExportedHead(sh, c);
    assert |sh.sent| == |sh.s.log|;
    forall i | 0 <= i < |c.log| ensures FoundHonest(T.Verdicts(Export(c))[i], sh.s.log[i], sh.sent[i], i) {
      VerdictHonest(sh, c, i);
      hide FoundHonest, Ready, Export, T.VerdictAt, T.KeyTable;
    }
    hide Ready, FoundHonest, Export;
  }

  lemma ValidIffChained(b: T.Bundle, sent: seq<Sent>, log: seq<Entry>)
    requires |b.messages| <= |sent| == |log|
    requires T.MembersValid(b) && b.head.Some? && T.HeadMatches(b, b.head.value)
    requires forall i :: 0 <= i < |b.messages| ==> FoundHonest(T.Verdicts(b)[i], log[i], sent[i], i)
    ensures T.Valid(b) <==> forall i :: 0 <= i < |b.messages| ==> sent[i].base == i
  {
    hide T.HeadMatches, T.MembersValid, T.Verdicts;
    var verdicts := T.Verdicts(b);
    if T.Valid(b) {
      forall i | 0 <= i < |b.messages| ensures sent[i].base == i {
        assert verdicts[i] in verdicts;
      }
    }
  }

  /** What the verifier finds in the export of a creator that has fetched `n` messages. */
  ghost predicate HonestExport(w: World, b: T.Bundle, n: nat) {
    && w.relay.Some? && n <= |w.relay.value.log| == |w.sent|
    && |b.messages| == n && T.Ordered(b) == w.relay.value.log[..n]
    && T.MembersValid(b) && b.head.Some? && T.HeadMatches(b, b.head.value)
    && (forall i {:trigger T.Verdicts(b)[i]} :: 0 <= i < n ==>
          FoundHonest(T.Verdicts(b)[i], w.relay.value.log[i], w.sent[i], i))
    && (T.Valid(b) <==> forall i :: 0 <= i < n ==> w.sent[i].base == i)
  }

  /**
   * For every run, whatever the interleaving: the creator's export has valid members and a valid head, lists the
   * relay log it has fetched in order, recovers every sender's plaintext, and is valid as a whole exactly when no
   * message was appended between any sender's pull and its post.
   */
  lemma CreatorTranscript(sc: Scenario)
    requires Fits(Final(sc)) && Final(sc).joined != []
    ensures
      var w := Final(sc);
      && w.joined[0] in w.procs
      && var c := w.procs[w.joined[0]].client;
      c.fetchedSeq == |c.log| && HonestExport(w, Export(c), |c.log|)
  {
    hide *;
    var w := Final(sc);
    FinalOk(sc, w.joined[0]);
    StartedFacts(w);
    CreatorReady(SharedOf(w), w.procs[w.joined[0]]);
    ReadyFetched(SharedOf(w), w.procs[w.joined[0]].client);
    ReadyExport(w, SharedOf(w), w.procs[w.joined[0]].client);
  }

  lemma ReadyExport(w: World, sh: Shared, c: Client)
    requires Ready(sh, c) && w.relay == Some(sh.s) && w.sent == sh.sent
    ensures HonestExport(w, Export(c), |c.log|)
  {
    hide Ready, Export, FoundHonest, T.Verdicts, T.Ordered, T.MembersValid, T.HeadMatches, T.Valid;
    HonestBundle(sh, c);
    ExportedOrder(sh, c);
    ValidIffChained(Export(c), sh.sent, sh.s.log);
    assert forall i {:trigger T.Verdicts(Export(c))[i]} :: 0 <= i < |c.log| ==>
             FoundHonest(T.Verdicts(Export(c))[i], w.relay.value.log[i], w.sent[i], i);
  }

  /**
   * The export call itself, in every reachable state in which the creator is between calls: it pulls first, so its
   * bundle is the relay's whole log, and it is valid exactly when no message at all was overtaken.
   */
  lemma CreatorExport(sc: Scenario)
    requires Fits(Final(sc)) && Final(sc).joined != []
    requires Final(sc).joined[0] in Final(sc).procs && Final(sc).procs[Final(sc).joined[0]].phase.Idle?
    ensures
      var w, v := Final(sc), Step(Final(sc), BeginExport(Final(sc).joined[0]));
      && w.relay.Some? && w.joined[0] in v.procs
      && HonestExport(w, Export(v.procs[w.joined[0]].client), |w.relay.value.log|)
  {
    hide *;
    var w := Final(sc);
    var e := BeginExport(w.joined[0]);
    var all := sc.(events := sc.events + [e]);
    OneMore(sc, e);
    ExportPulls(sc);
    PulledMessagesRead(sc, e, w.joined[0]);
    CreatorTranscript(all);
    SameHistory(Final(sc), Final(all), Export(Final(all).procs[w.joined[0]].client), |w.relay.value.log|);
  }

  lemma ExportPulls(sc: Scenario)
    requires Fits(Final(sc)) && Final(sc).joined != []
    requires Final(sc).joined[0] in Final(sc).procs && Final(sc).procs[Final(sc).joined[0]].phase.Idle?
    ensures
      var w, v := Final(sc), Step(Final(sc), BeginExport(Final(sc).joined[0]));
      && Pulls(w, BeginExport(w.joined[0]), w.joined[0])
      && v.relay == w.relay && v.sent == w.sent && v.joined == w.joined && Fits(v)
  {
    hide *;
    var w := Final(sc);
    FinalOk(sc, w.joined[0]);
    StartedFacts(w);
    SharedParts(SharedOf(w));
    FirstIsMember(w);
    ExportIsPull(w, w.joined[0]);
    var call := StepIsPull(w, BeginExport(w.joined[0]), w.joined[0]);
    PullKeepsRelay(w, w.joined[0], call);
  }

  lemma FirstIsMember(w: World)
    requires Started(w) && RelayOk(SharedOf(w))
    ensures IsMember(w, w.joined[0])
  {
    hide S.Inv, Fingerprint;
    assert w.joined[0] in SharedOf(w).joined;
  }

  lemma ExportIsPull(w: World, k: PublicKey)
    requires IsMember(w, k) && k in w.procs && w.procs[k].phase.Idle?
    ensures Pulls(w, BeginExport(k), k)
  {
  }

  lemma PullKeepsRelay(w: World, k: PublicKey, call: Call)
    requires w.relay.Some? && k in w.procs
    ensures
      var v := StepPull(w, w.procs[k], k, call);
      v.relay == w.relay && v.sent == w.sent && v.joined == w.joined && (Fits(w) ==> Fits(v))
  {
    hide Pull, AfterPull, S.Fetch, Power10;
  }

  lemma SameHistory(w: World, v: World, b: T.Bundle, n: nat)
    requires v.relay == w.relay && v.sent == w.sent && HonestExport(v, b, n)
    ensures HonestExport(w, b, n)
  {
    hide FoundHonest, T.Ordered, T.MembersValid, T.HeadMatches, T.Valid, T.Verdicts;
  }

  lemma ReadyFetched(sh: Shared, c: Client)
    requires Ready(sh, c)
    ensures c.fetchedSeq == |c.log|
  {
  }
}
