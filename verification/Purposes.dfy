/** What is signed for one purpose is never what is signed for another, and each says all of what it is about. */
module Purposes {
  import opened Prelude
  import opened Decimals
  import opened Sequences
  import opened Crypto
  import opened Message
  import Client
  import Credential
  import Dispatch
  import T = Transcript

  /** The text opens with this tag. */
  ghost predicate Tagged(text: Text, tag: string) {
    |tag| <= |text| && forall i :: 0 <= i < |tag| ==> text[i] == Ch(tag[i])
  }

  const MESSAGE := "randevu/msg/v1|"
  const GROUP_KEY := "randevu/groupkey/v1|"
  const REQUEST := "randevu/req/v1|"
  const HEAD := "randevu/transcript-head/v1|"
  const CIPHER := "randevu/v1|"

  /** No two purposes share a tag, nor is one tag the start of another. */
  lemma TagsDiffer(text: Text)
    ensures !(Tagged(text, MESSAGE) && Tagged(text, GROUP_KEY)) && !(Tagged(text, MESSAGE) && Tagged(text, REQUEST))
    ensures !(Tagged(text, GROUP_KEY) && Tagged(text, REQUEST)) && !(Tagged(text, HEAD) && Tagged(text, CIPHER))
    ensures !(Tagged(text, HEAD) && Tagged(text, MESSAGE)) && !(Tagged(text, HEAD) && Tagged(text, GROUP_KEY))
    ensures !(Tagged(text, HEAD) && Tagged(text, REQUEST))
  {
    assert MESSAGE[8] == 'm' && GROUP_KEY[8] == 'g' && REQUEST[8] == 'r' && HEAD[8] == 't' && CIPHER[8] == 'v';
  }

  lemma LiftTagged(tag: string, rest: string, more: Text)
    ensures Tagged(Lift(tag + rest) + more, tag)
  {
    forall i | 0 <= i < |tag| ensures (Lift(tag + rest) + more)[i] == Ch(tag[i]) {
      assert (tag + rest)[i] == tag[i];
    }
  }

  lemma MessageTagged(env: Envelope)
    ensures Tagged(Canonical(env), MESSAGE)
  {
    var tag := Lift("randevu/msg/v1");
    var fields := Fields(env);
    assert fields[0] == tag && fields == [tag] + fields[1..];
    JoinCons(tag, fields[1..], PIPE);
    hide Join, Lift;
    var text := Canonical(env);
    assert text[..|tag| + 1] == tag + [PIPE];
    forall i | 0 <= i < |MESSAGE| ensures text[i] == Ch(MESSAGE[i]) {
      assert text[..|tag| + 1][i] == text[i];
      TagSpelled(i);
    }
  }

  lemma TagSpelled(i: nat)
    requires i < |MESSAGE|
    ensures |Lift("randevu/msg/v1")| == 14 && (Lift("randevu/msg/v1") + [PIPE])[i] == Ch(MESSAGE[i])
  {
    assert "randevu/msg/v1" + "|" == MESSAGE;
  }

  lemma OtherTags(sid: string, epoch: int, commitment: Text, verb: string, path: string, ts: string, lastSeq: int, hash: Text, senderId: string)
    ensures Tagged(Lift("randevu/groupkey/v1|" + sid + "|" + IntText(epoch) + "|") + commitment, GROUP_KEY)
    ensures Tagged(Lift(Dispatch.RequestCanonical(verb, path, ts)), REQUEST)
    ensures Tagged(T.HeadCanonical(sid, lastSeq, hash), HEAD)
    ensures Tagged(AssociatedData(sid, epoch, senderId), CIPHER)
  {
    hide IntText, Tagged, Lift;
    LiftTagged(GROUP_KEY, sid + "|" + IntText(epoch) + "|", commitment);
    assert "randevu/groupkey/v1|" + sid + "|" + IntText(epoch) + "|" == GROUP_KEY + (sid + "|" + IntText(epoch) + "|");
    LiftTagged(REQUEST, verb + "|" + path + "|" + ts, []);
    assert Dispatch.RequestCanonical(verb, path, ts) == REQUEST + (verb + "|" + path + "|" + ts);
    assert Lift(REQUEST + (verb + "|" + path + "|" + ts)) + [] == Lift(REQUEST + (verb + "|" + path + "|" + ts));
    LiftTagged(HEAD, sid + "|" + IntText(lastSeq) + "|", hash);
    assert "randevu/transcript-head/v1|" + sid + "|" + IntText(lastSeq) + "|" == HEAD + (sid + "|" + IntText(lastSeq) + "|");
    LiftTagged(CIPHER, sid + "|" + IntText(epoch) + "|" + senderId, []);
    assert "randevu/v1|" + sid + "|" + IntText(epoch) + "|" + senderId == CIPHER + (sid + "|" + IntText(epoch) + "|" + senderId);
    assert Lift(CIPHER + (sid + "|" + IntText(epoch) + "|" + senderId)) + [] == Lift(CIPHER + (sid + "|" + IntText(epoch) + "|" + senderId));
  }

  /** A message, a group key, a request and a transcript head are signed as different bytes, whatever is in them. */
  lemma SignedForOnePurpose(env: Envelope, sid: string, epoch: int, commitment: Text,
                            verb: string, path: string, ts: string, lastSeq: int, hash: Text)
    ensures
      var message, key := SigningBytes(env), Client.KeyDistribution(sid, epoch, commitment);
      var request, head := Dispatch.RequestBytes(Dispatch.RequestCanonical(verb, path, ts)), Utf8(T.HeadCanonical(sid, lastSeq, hash));
      message != key && message != request && message != head && key != request && key != head && request != head
  {
    MessageTagged(env);
    OtherTags(sid, epoch, commitment, verb, path, ts, lastSeq, hash, "");
    hide Tagged, Canonical, Dispatch.RequestCanonical, T.HeadCanonical, IntText, Lift;
    TagsDiffer(Canonical(env));
    TagsDiffer(Lift(Dispatch.RequestCanonical(verb, path, ts)));
    var message, key := SigningBytes(env), Client.KeyDistribution(sid, epoch, commitment);
    var request := Dispatch.RequestBytes(Dispatch.RequestCanonical(verb, path, ts));
    assert message.parts[0].text == Canonical(env);
    assert key.parts[0].text == Lift("randevu/groupkey/v1|" + sid + "|" + IntText(epoch) + "|") + commitment;
    assert request.parts[0].text == Lift(Dispatch.RequestCanonical(verb, path, ts));
  }

  /** No member's signature on a message, group key, request or head is one on a credential. */
  lemma CredentialsApart(header: Text, payload: Text, env: Envelope, sid: string, epoch: int, commitment: Text,
                         verb: string, path: string, ts: string, lastSeq: int, hash: Text)
    requires header != [] && header[0].Base64?
    ensures
      var signed := Credential.SigningInput(header, payload);
      && signed != SigningBytes(env) && signed != Client.KeyDistribution(sid, epoch, commitment)
      && signed != Dispatch.RequestBytes(Dispatch.RequestCanonical(verb, path, ts))
      && signed != Utf8(T.HeadCanonical(sid, lastSeq, hash))
  {
    OtherTags(sid, epoch, commitment, verb, path, ts, lastSeq, hash, "");
    hide T.HeadCanonical, IntText, Lift, Canonical;
    assert (header + [Credential.DOT] + payload)[0] == header[0];
    assert T.HeadCanonical(sid, lastSeq, hash)[0] == Ch(HEAD[0]);
  }

  /** A signed head is about one session, one last number and one hash. */
  lemma HeadBinds(sid: string, lastSeq: int, hash: Text, sid': string, lastSeq': int, hash': Text)
    requires '|' !in sid && '|' !in sid'
    requires T.HeadCanonical(sid, lastSeq, hash) == T.HeadCanonical(sid', lastSeq', hash')
    ensures sid == sid' && lastSeq == lastSeq' && hash == hash'
  {
    hide IntText;
    var rest, rest' := Lift(IntText(lastSeq)) + [PIPE] + hash, Lift(IntText(lastSeq')) + [PIPE] + hash';
    HeadText(sid, lastSeq, hash);
    HeadText(sid', lastSeq', hash');
    var tag := Lift(HEAD);
    var whole, whole' := Lift(sid) + [PIPE] + rest, Lift(sid') + [PIPE] + rest';
    assert whole == (tag + whole)[|tag|..] && whole' == (tag + whole')[|tag|..];
    CutFirst(Lift(sid), rest, Lift(sid'), rest', PIPE);
    NumeralHasNoPipe(lastSeq);
    NumeralHasNoPipe(lastSeq');
    CutFirst(Lift(IntText(lastSeq)), hash, Lift(IntText(lastSeq')), hash', PIPE);
    LiftInjective(sid, sid');
    LiftInjective(IntText(lastSeq), IntText(lastSeq'));
    IntTextInjective(lastSeq, lastSeq');
  }

  lemma LiftAppends(a: string, b: string)
    ensures Lift(a + b) == Lift(a) + Lift(b)
  {
  }

  lemma HeadText(sid: string, lastSeq: int, hash: Text)
    ensures T.HeadCanonical(sid, lastSeq, hash) == Lift(HEAD) + (Lift(sid) + [PIPE] + (Lift(IntText(lastSeq)) + [PIPE] + hash))
  {
    hide IntText;
    var n := IntText(lastSeq);
    LiftAppends(HEAD + sid + "|" + n, "|");
    LiftAppends(HEAD + sid + "|", n);
    LiftAppends(HEAD + sid, "|");
    LiftAppends(HEAD, sid);
    assert Lift("|") == [PIPE];
    hide Lift;
    assert ((((Lift(HEAD) + Lift(sid)) + [PIPE]) + Lift(n)) + [PIPE]) + hash == Lift(HEAD) + (Lift(sid) + [PIPE] + (Lift(n) + [PIPE] + hash));
  }
}
