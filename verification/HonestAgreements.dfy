/** Agreements in an honest session: every acceptance that nothing overtook is reported, with the offer it accepts. */
module HonestAgreements {
  import opened Prelude
  import opened Sequences
  import opened Crypto
  import opened Message
  import opened Client
  import opened Protocol
  import opened ProtocolInvariant
  import opened ProtocolSteps
  import opened ProtocolPull
  import opened ProtocolRuns
  import opened Guarantees
  import opened HonestTranscript
  import V = VerdictMeaning
  import T = Transcript
  import I = Integrity

  /** Messages with one content id have one sender and one plaintext. */
  lemma SameIdSameContent(sh: Shared, i: nat, j: nat)
    requires LogOk(sh) && i < |sh.s.log| && j < |sh.s.log|
    requires Decode(sh.Sid(), sh.s.log[i]).Some? && Decode(sh.Sid(), sh.s.log[j]).Some?
    requires SigningBytes(Decode(sh.Sid(), sh.s.log[i]).value) == SigningBytes(Decode(sh.Sid(), sh.s.log[j]).value)
    ensures sh.sent[i].draft.body == sh.sent[j].draft.body && sh.s.log[i].senderId == sh.s.log[j].senderId
  {
    hide T.Signed, Fold, SigningBytes, AssociatedData, Fingerprint, Decode;
    assert MessageOk(sh, sh.s.log[i], sh.sent[i]) && MessageOk(sh, sh.s.log[j], sh.sent[j]);
    var a, b := sh.s.log[i], sh.s.log[j];
    SigningBytesBindChain(Decode(sh.Sid(), a).value, Decode(sh.Sid(), b).value);
    AssociatedDataBinds(sh.Sid(), a.epoch, a.senderId, sh.Sid(), b.epoch, b.senderId);
  }

  /** The caller asked for an acceptance of that id, and nothing overtook it. */
  ghost predicate Accepting(x: Sent, i: nat, id: Text) {
    x.draft.messageType == "accept" && x.draft.ref == Some(id) && id != [] && x.base == i
  }

  lemma AcceptsWhenAsked(w: World, b: T.Bundle, n: nat, i: nat)
    requires HonestExport(w, b, n) && i < n
    ensures V.Accepts(b, i) <==> w.sent[i].draft.ref.Some? && Accepting(w.sent[i], i, w.sent[i].draft.ref.value)
  {
    hide T.Ordered, T.Verdicts, T.MembersValid, T.HeadMatches, T.Valid, V.SignedAs, V.HeadBefore, Decode, Fingerprint;
    V.AcceptanceMeans(b, i);
    V.VerdictsExpected(b);
    assert FoundHonest(T.Verdicts(b)[i], w.relay.value.log[i], w.sent[i], i);
  }

  /** The verdict an id leads to is that of a message with this id. */
  lemma TargetFound(w: World, sh: Shared, b: T.Bundle, n: nat, j: nat)
    requires HonestExport(w, b, n) && j < n && LogOk(sh) && w.relay == Some(sh.s) && w.sent == sh.sent
    requires b.sessionId == sh.Sid() && Decode(sh.Sid(), sh.s.log[j]).Some?
    ensures
      var id := MessageId(Decode(sh.Sid(), sh.s.log[j]).value);
      var table := T.IdTable(T.Verdicts(b));
      && id != [] && id in table && table[id].senderId == Fingerprint(w.sent[j].sender) && table[id].body == Some(w.sent[j].draft.body)
  {
    hide T.Verdicts, T.IdTable, T.Ordered, T.MembersValid, T.HeadMatches, T.Valid, Decode, SigningBytes, LogOk, Fingerprint;
    var id := MessageId(Decode(sh.Sid(), sh.s.log[j]).value);
    V.IdIsHex(Decode(sh.Sid(), sh.s.log[j]).value);
    V.VerdictsExpected(b);
    VerdictId(w, sh, b, n, j);
    I.IdTableFinds(T.Verdicts(b), id);
    assert T.Verdicts(b)[j] in T.Verdicts(b);
    var k: nat :| k < |T.Verdicts(b)| && T.Verdicts(b)[k] == T.IdTable(T.Verdicts(b))[id];
    VerdictId(w, sh, b, n, k);
    assert FoundHonest(T.Verdicts(b)[k], w.relay.value.log[k], w.sent[k], k);
    assert FoundHonest(T.Verdicts(b)[j], w.relay.value.log[j], w.sent[j], j);
    V.IdIsHex(Decode(sh.Sid(), sh.s.log[k]).value);
    SameIdSameContent(sh, k, j);
  }

  lemma VerdictId(w: World, sh: Shared, b: T.Bundle, n: nat, k: nat)
    requires HonestExport(w, b, n) && k < n && LogOk(sh) && w.relay == Some(sh.s) && w.sent == sh.sent && b.sessionId == sh.Sid()
    ensures |T.Verdicts(b)| == n && Decode(sh.Sid(), sh.s.log[k]).Some?
    ensures T.Verdicts(b)[k].id == MessageId(Decode(sh.Sid(), sh.s.log[k]).value)
  {
    hide T.Verdicts, T.Ordered, T.MembersValid, T.HeadMatches, T.Valid, Decode, SigningBytes, V.SignedAs, V.ReadsAs, V.HeadBefore, Fingerprint;
    LogDecodes(sh, k);
    V.VerdictsExpected(b);
    V.VerdictMeans(b, k);
    V.IdIsHex(Decode(sh.Sid(), sh.s.log[k]).value);
  }

  /** What is reported of an honest bundle: each acceptance of a message in it, with that message's sender and plaintext. */
  lemma AcceptanceReported(w: World, sh: Shared, b: T.Bundle, n: nat, i: nat, j: nat)
    requires HonestExport(w, b, n) && i < n && j < n && LogOk(sh) && w.relay == Some(sh.s) && w.sent == sh.sent
    requires b.sessionId == sh.Sid() && Decode(sh.Sid(), sh.s.log[j]).Some?
    requires Accepting(w.sent[i], i, MessageId(Decode(sh.Sid(), sh.s.log[j]).value))
    ensures T.Agreement(Fingerprint(w.sent[i].sender), w.sent[i].draft.ref.value,
                        Some(Fingerprint(w.sent[j].sender)), Some(w.sent[j].draft.body)) in T.Expected(b).agreements
  {
    hide T.Verdicts, T.IdTable, T.Ordered, T.MembersValid, T.HeadMatches, T.Valid, T.Expected, Decode, SigningBytes, LogOk, V.Accepts, Fingerprint;
    AcceptsWhenAsked(w, b, n, i);
    TargetFound(w, sh, b, n, j);
    V.VerdictsExpected(b);
    V.AcceptanceMeans(b, i);
    var v := T.Verdicts(b)[i];
    assert v in T.Verdicts(b) && FoundHonest(v, w.relay.value.log[i], w.sent[i], i);
    assert T.Resolve(T.IdTable(T.Verdicts(b)), v) in T.Expected(b).agreements;
  }

  /** A reported agreement comes from the verdict on some acceptance. */
  lemma ReportedFrom(b: T.Bundle, a: T.Agreement) returns (i: nat)
    requires a in T.Expected(b).agreements
    ensures i < |T.Verdicts(b)| && T.IsAcceptance(T.Verdicts(b)[i]) && a == T.Resolve(T.IdTable(T.Verdicts(b)), T.Verdicts(b)[i])
  {
    hide T.Verdicts, T.IdTable, T.Expected, T.IsAcceptance, T.Resolve;
    V.VerdictsExpected(b);
    var v :| v in T.Verdicts(b) && T.IsAcceptance(v) && a == T.Resolve(T.IdTable(T.Verdicts(b)), v);
    i :| i < |T.Verdicts(b)| && T.Verdicts(b)[i] == v;
  }

  lemma ReportedAccepted(w: World, b: T.Bundle, n: nat, a: T.Agreement)
    requires HonestExport(w, b, n) && a in T.Expected(b).agreements
    ensures exists i: nat :: i < n && i < |w.sent| && Accepting(w.sent[i], i, a.acceptsId) && a.accepter == Fingerprint(w.sent[i].sender)
  {
    hide T.Verdicts, T.IdTable, T.Ordered, T.MembersValid, T.HeadMatches, T.Valid, T.Expected, V.Accepts, Fingerprint;
    var i := ReportedFrom(b, a);
    AcceptedBy(w, b, n, i);
    var m: nat := i;
    assert Accepting(w.sent[m], m, a.acceptsId);
  }

  lemma AcceptedBy(w: World, b: T.Bundle, n: nat, i: nat)
    requires HonestExport(w, b, n) && i < |T.Verdicts(b)| && T.IsAcceptance(T.Verdicts(b)[i])
    ensures i < n && i < |w.sent| && T.Verdicts(b)[i].ref.Some? && Accepting(w.sent[i], i, T.Verdicts(b)[i].ref.value)
    ensures T.Verdicts(b)[i].senderId == Fingerprint(w.sent[i].sender)
  {
    hide T.Verdicts, T.Ordered, T.MembersValid, T.HeadMatches, T.Valid, V.Accepts, Fingerprint;
    V.VerdictsExpected(b);
    V.AcceptanceMeans(b, i);
    AcceptsWhenAsked(w, b, n, i);
    assert FoundHonest(T.Verdicts(b)[i], w.relay.value.log[i], w.sent[i], i);
  }

  /**
   * In every reachable state in which the creator is between calls, the agreements the verifier reports of its export are
   * exactly the acceptances callers asked to send and nothing overtook: each one that refers to a message of the session
   * is reported with that message's sender and plaintext, and nothing else is reported.
   */
  lemma AgreementsAreAcceptances(sc: Scenario, i: nat, j: nat)
    requires Fits(Final(sc)) && Final(sc).joined != []
    requires Final(sc).joined[0] in Final(sc).procs && Final(sc).procs[Final(sc).joined[0]].phase.Idle?
    ensures
      var w, v := Final(sc), Step(Final(sc), BeginExport(Final(sc).joined[0]));
      && w.relay.Some? && w.joined[0] in v.procs
      && var agreements := T.Expected(Export(v.procs[w.joined[0]].client)).agreements;
      var sid, log, sent := w.relay.value.meta.sessionId, w.relay.value.log, w.sent;
      && (i < |log| && j < |log| && |log| == |sent| && Decode(sid, log[j]).Some?
            && Accepting(sent[i], i, MessageId(Decode(sid, log[j]).value)) ==>
            T.Agreement(Fingerprint(sent[i].sender), sent[i].draft.ref.value,
                        Some(Fingerprint(sent[j].sender)), Some(sent[j].draft.body)) in agreements)
      && forall a <- agreements :: exists k: nat ::
           k < |sent| && Accepting(sent[k], k, a.acceptsId) && a.accepter == Fingerprint(sent[k].sender)
  {
    hide *;
    var w, v := Final(sc), Step(Final(sc), BeginExport(Final(sc).joined[0]));
    CreatorExport(sc);
    FinalOk(sc, w.joined[0]);
    StartedFacts(w);
    SharedParts(SharedOf(w));
    var b := Export(v.procs[w.joined[0]].client);
    ExportSession(sc);
    SidIs(SharedOf(w));
    if i < |w.relay.value.log| && j < |w.relay.value.log| && Decode(w.relay.value.meta.sessionId, w.relay.value.log[j]).Some? {
      if Accepting(w.sent[i], i, MessageId(Decode(w.relay.value.meta.sessionId, w.relay.value.log[j]).value)) {
        AcceptanceReported(w, SharedOf(w), b, |w.relay.value.log|, i, j);
      }
    }
    forall a | a in T.Expected(b).agreements
      ensures exists k: nat :: k < |w.sent| && Accepting(w.sent[k], k, a.acceptsId) && a.accepter == Fingerprint(w.sent[k].sender)
    {
      ReportedAccepted(w, b, |w.relay.value.log|, a);
    }
  }

  lemma ExportSession(sc: Scenario)
    requires Fits(Final(sc)) && Final(sc).joined != []
    requires Final(sc).joined[0] in Final(sc).procs && Final(sc).procs[Final(sc).joined[0]].phase.Idle?
    ensures
      var w, v := Final(sc), Step(Final(sc), BeginExport(Final(sc).joined[0]));
      && w.relay.Some? && w.joined[0] in v.procs
      && Export(v.procs[w.joined[0]].client).sessionId == w.relay.value.meta.sessionId
  {
    hide *;
    var w := Final(sc);
    var e := BeginExport(w.joined[0]);
    var all := sc.(events := sc.events + [e]);
    OneMore(sc, e);
    ExportPulls(sc);
    FinalOk(all, w.joined[0]);
    StartedFacts(Final(all));
    SessionOf(SharedOf(Final(all)), Final(all).procs[w.joined[0]]);
  }

  lemma SessionOf(sh: Shared, p: Proc)
    requires SharedOk(sh) && ProcOk(sh, sh.joined[0], p)
    ensures Export(p.client).sessionId == sh.s.meta.sessionId
  {
    hide RelayOk, KeysOk, LogOk, FoldedOk, TableOk, VaultOk, CreatorOk, PhaseOk, InboxOk, ExportMembers, ExportKeys, Wires;
  }
}
