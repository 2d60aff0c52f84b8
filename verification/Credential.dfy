/** Verifiable credentials: a JWS over the canonical text of the claims. */
module Credential {
  import opened Prelude
  import opened Decimals
  import opened Sequences
  import opened Sorting
  import opened Crypto
  import opened CanonicalJson
  import R = JsonReader

  type Claims = JsMap<string, Json>

  /** A credential document: every top-level field but `proof`, and the proof's JWS if there is one. */
  datatype Verifiable = Verifiable(claims: Claims, jws: Option<Text>)

  const DOT := Ch('.')

  function Encode64(b: Bytes): Text {
    if b == Raw([]) then [] else [Base64(b)]
  }

  /** `base64urlnopad.decode`: `None` where it throws. */
  function Decode64(t: Text): Option<Bytes> {
    if t == [] then Some(Raw([]))
    else if |t| == 1 && t[0].Base64? then Some(t[0].bytes)
    else None
  }

  /** `delete credential["proof"]`. */
  function Without(fields: Claims, key: string): (r: Claims)
    ensures forall k :: Get(r, k) == if k == key then None else Get(fields, k)
    ensures forall e <- r :: e in fields && e.0 != key
  {
    if fields == [] then []
    else if fields[0].0 == key then Without(fields[1..], key)
    else [fields[0]] + Without(fields[1..], key)
  }

  function Header(issuerDid: string): Text {
    Encode64(Utf8(Lift("{\"alg\":\"EdDSA\",\"kid\":" + Quote(issuerDid) + "}")))
  }

  function Payload(claims: Claims): Text { Encode64(Utf8(Lift(Jcs(Obj(claims))))) }

  function SigningInput(header: Text, payload: Text): Bytes { Utf8(header + [DOT] + payload) }

  /** The signature covers the document as given; an existing `proof` field is then replaced. */
  function SignCredential(credential: Claims, issuerDid: string, privateKey: PublicKey): Verifiable {
    var header, payload := Header(issuerDid), Payload(credential);
    var signature := Encode64(Sign(SigningInput(header, payload), privateKey));
    Verifiable(Without(credential, "proof"), Some(header + [DOT] + payload + [DOT] + signature))
  }

  predicate VerifyCredential(vc: Verifiable, publicKey: PublicKey) {
    if vc.jws.None? || vc.jws.value == [] then false
    else
      var parts := Split(vc.jws.value, DOT);
      if |parts| != 3 then false
      else
        var signature := Decode64(parts[2]);
        && Decode64(parts[1]) == Some(Utf8(Lift(Jcs(Obj(vc.claims)))))
        && signature.Some? && Verify(signature.value, SigningInput(parts[0], parts[1]), publicKey)
  }

  lemma JwsSplits(h: Text, p: Text, s: Text)
    requires DOT !in h && DOT !in p && DOT !in s
    ensures Split(h + [DOT] + p + [DOT] + s, DOT) == [h, p, s]
  {
    assert h + [DOT] + p + [DOT] + s == h + [DOT] + (p + [DOT] + s);
    SplitFirst(h, DOT, p + [DOT] + s);
    SplitFirst(p, DOT, s);
    SplitOne(s, DOT);
  }

  /** A text that splits into three parts is those parts, and no part holds a dot. */
  lemma JwsJoins(jws: Text)
    requires |Split(jws, DOT)| == 3
    ensures
      var parts := Split(jws, DOT);
      jws == parts[0] + [DOT] + parts[1] + [DOT] + parts[2] && DOT !in parts[0]
  {
    hide Split;
    var parts := Split(jws, DOT);
    JoinUndoesSplit(jws, DOT);
    PartsAreFree(jws, DOT);
    assert parts == [parts[0], parts[1], parts[2]] && parts[1..] == [parts[1], parts[2]] && parts[1..][1..] == [parts[2]];
    assert Join(parts[1..], DOT) == parts[1] + [DOT] + parts[2];
  }

  lemma {:induction false} WithoutWellFormed(fields: Claims, key: string)
    requires WellFormed(Obj(fields))
    ensures WellFormed(Obj(Without(fields, key)))
  {
    hide WellFormed, Get;
    if fields != [] {
      RestWellFormed(fields);
      WithoutWellFormed(fields[1..], key);
      FrontWellFormed(fields, Without(fields[1..], key));
    }
  }

  lemma RestWellFormed(fields: Claims)
    requires fields != [] && WellFormed(Obj(fields))
    ensures WellFormed(Obj(fields[1..]))
  {
  }

  lemma FrontWellFormed(fields: Claims, rest: Claims)
    requires fields != [] && WellFormed(Obj(fields)) && WellFormed(Obj(rest))
    requires forall e <- rest :: e in fields[1..]
    ensures WellFormed(Obj([fields[0]] + rest))
  {
    forall i | 0 <= i < |rest| ensures rest[i].0 != fields[0].0 {
      assert rest[i] in fields[1..];
      var j :| 0 < j < |fields| && fields[j] == rest[i];
    }
  }

  lemma {:induction false} WithoutAbsent(fields: Claims, key: string)
    requires Get(fields, key).None?
    ensures Without(fields, key) == fields
  {
    if fields != [] {
      WithoutAbsent(fields[1..], key);
    }
  }

  /** A freshly signed credential verifies under the issuer's key alone, and only if it had no top-level proof already. */
  lemma SignedVerifies(credential: Claims, issuerDid: string, issuer: PublicKey, key: PublicKey)
    requires WellFormed(Obj(credential))
    ensures VerifyCredential(SignCredential(credential, issuerDid, issuer), key) <==>
            key == issuer && Get(credential, "proof").None?
  {
    hide *;
    SignedOpens(credential, issuerDid, issuer, key);
    PayloadIsValue(credential, Without(credential, "proof")) by { WithoutWellFormed(credential, "proof"); }
    if Get(credential, "proof").Some? {
      WithoutDiffers(credential, "proof");
    } else {
      WithoutAbsent(credential, "proof");
      SameIsReflexive(credential);
    }
  }

  /** A fresh signature opens under the issuer's key exactly over the text that was signed. */
  lemma SignedOpens(credential: Claims, issuerDid: string, issuer: PublicKey, key: PublicKey)
    ensures VerifyCredential(SignCredential(credential, issuerDid, issuer), key) <==>
            key == issuer && Payload(credential) == Payload(Without(credential, "proof"))
  {
    hide Jcs, Quote, Without, Split;
    var header, payload := Header(issuerDid), Payload(credential);
    JwsSplits(header, payload, Encode64(Sign(SigningInput(header, payload), issuer)));
  }

  lemma PayloadIsValue(a: Claims, b: Claims)
    requires WellFormed(Obj(a)) && WellFormed(Obj(b))
    ensures Payload(a) == Payload(b) <==> Same(Obj(a), Obj(b))
  {
    hide WellFormed, Same, Jcs;
    CanonicalTextIsValue(Obj(a), Obj(b));
    if Payload(a) == Payload(b) {
      assert Payload(a)[0] == Payload(b)[0];
      LiftInjective(Jcs(Obj(a)), Jcs(Obj(b)));
    }
  }

  lemma SameIsReflexive(a: Claims)
    requires WellFormed(Obj(a))
    ensures Same(Obj(a), Obj(a))
  {
    hide WellFormed, Same;
    CanonicalTextIsValue(Obj(a), Obj(a));
  }

  /** A document without a field it had is a different value. */
  lemma WithoutDiffers(fields: Claims, key: string)
    requires Get(fields, key).Some?
    ensures !Same(Obj(fields), Obj(Without(fields, key)))
  {
    hide Get, Without;
    GetIsEntry(fields, key);
    var i :| 0 <= i < |fields| && fields[i] == (key, Get(fields, key).value);
    assert Get(Without(fields, key), fields[i].0).None?;
  }

  /** One proof fits one document: it still verifies after the claims changed exactly if they are the same value. */
  lemma ProofFitsOneDocument(vc: Verifiable, claims: Claims, key: PublicKey)
    requires WellFormed(Obj(vc.claims)) && WellFormed(Obj(claims))
    requires VerifyCredential(vc, key)
    ensures VerifyCredential(vc.(claims := claims), key) <==> Same(Obj(vc.claims), Obj(claims))
  {
    CanonicalTextIsValue(Obj(vc.claims), Obj(claims));
    if VerifyCredential(vc.(claims := claims), key) {
      LiftInjective(Jcs(Obj(vc.claims)), Jcs(Obj(claims)));
    }
  }

  /** What the protected header says: the algorithm and the issuer. */
  function HeaderClaims(issuerDid: string): Claims { [("alg", Str("EdDSA")), ("kid", Str(issuerDid))] }

  /** A fresh proof opens with a header that any JSON reader takes for the algorithm and the issuer. */
  lemma SignedNamesIssuer(credential: Claims, issuerDid: string, issuer: PublicKey) returns (text: string)
    ensures SignCredential(credential, issuerDid, issuer).jws.Some?
    ensures Split(SignCredential(credential, issuerDid, issuer).jws.value, DOT)[0] == [Base64(Utf8(Lift(text)))]
    ensures R.ReadValue(text).Some? && R.ReadValue(text).value.1 == []
    ensures Same(Obj(HeaderClaims(issuerDid)), R.ReadValue(text).value.0)
  {
    hide Jcs, Quote, Without, Split, R.ReadValue, Same, WellFormed, Lift;
    text := "{\"alg\":\"EdDSA\",\"kid\":" + Quote(issuerDid) + "}";
    HeaderIsCanonical(issuerDid);
    R.CanonicalReadsBack(Obj(HeaderClaims(issuerDid)));
    var header, payload := Header(issuerDid), Payload(credential);
    JwsSplits(header, payload, Encode64(Sign(SigningInput(header, payload), issuer)));
  }

  lemma HeaderIsCanonical(issuerDid: string)
    ensures WellFormed(Obj(HeaderClaims(issuerDid)))
    ensures Jcs(Obj(HeaderClaims(issuerDid))) == "{\"alg\":\"EdDSA\",\"kid\":" + Quote(issuerDid) + "}"
  {
    hide Quote, Sort, KeysOf, JcsFields, Join, Members;
    var fields := HeaderClaims(issuerDid);
    HeaderKeys(fields);
    HeaderFields(issuerDid);
    TwoMembers(JcsFields(fields), "alg", "kid");
    TwoJoined(Member(JcsFields(fields), "alg"), Member(JcsFields(fields), "kid"));
    AlgorithmIs(JcsFields(fields));
    HeaderSpelling(Quote(issuerDid));
    assert Quote("kid") == "\"kid\"" by { PlainQuote("kid"); }
  }

  lemma HeaderSpelling(kid: string)
    ensures "{" + ("\"alg\":\"EdDSA\"" + [','] + ("\"kid\"" + ":" + kid)) + "}" == "{\"alg\":\"EdDSA\",\"kid\":" + kid + "}"
  {
    var a, b := "{" + "\"alg\":\"EdDSA\"", [','] + ("\"kid\"" + ":");
    assert a == "{\"alg\":\"EdDSA\"";
    assert b == ",\"kid\":";
    assert a + b == "{\"alg\":\"EdDSA\",\"kid\":";
    assert "{" + ("\"alg\":\"EdDSA\"" + [','] + ("\"kid\"" + ":" + kid)) == a + b + kid;
  }

  lemma AlgorithmIs(printed: JsMap<string, string>)
    requires Get(printed, "alg") == Some(Quote("EdDSA"))
    ensures Member(printed, "alg") == "\"alg\":\"EdDSA\""
  {
    hide Quote, Get;
    assert Quote("alg") == "\"alg\"" by { PlainQuote("alg"); }
    assert Quote("EdDSA") == "\"EdDSA\"" by { PlainQuote("EdDSA"); }
    AlgorithmSpelling();
  }

  lemma AlgorithmSpelling()
    ensures "\"alg\"" + ":" + "\"EdDSA\"" == "\"alg\":\"EdDSA\""
  {
  }

  lemma TwoMembers(printed: JsMap<string, string>, a: string, b: string)
    ensures Members(printed, [a, b]) == [Member(printed, a), Member(printed, b)]
  {
    hide Member;
    assert [a, b][1..] == [b] && [b][1..] == [];
  }

  lemma TwoJoined(a: string, b: string)
    ensures Join([a, b], ',') == a + [','] + b
  {
    assert [a, b][1..] == [b];
  }

  lemma HeaderKeys(fields: Claims)
    requires |fields| == 2 && fields[0].0 == "alg" && fields[1].0 == "kid"
    ensures Sort(AtMost, KeysOf(fields)) == ["alg", "kid"]
  {
    assert KeysOf(fields) == ["alg", "kid"];
    FirstCharDecides("alg", "kid");
    hide AtMost, Less, KeysOf;
    assert ["alg", "kid"][1..] == ["kid"] && ["kid"][1..] == [];
    assert Sort(AtMost, ["kid"]) == Insert(AtMost, "kid", []) == ["kid"];
    assert Insert(AtMost, "alg", ["kid"]) == ["alg"] + ["kid"];
  }

  lemma FirstCharDecides(a: string, b: string)
    requires a != [] && b != [] && a[0] < b[0]
    ensures AtMost(a, b)
  {
  }

  lemma HeaderFields(issuerDid: string)
    ensures Get(JcsFields(HeaderClaims(issuerDid)), "alg") == Some(Quote("EdDSA"))
    ensures Get(JcsFields(HeaderClaims(issuerDid)), "kid") == Some(Quote(issuerDid))
  {
    hide Quote;
    var fields := HeaderClaims(issuerDid);
    PrintedField(fields, "alg");
    PrintedField(fields, "kid");
    assert "alg"[0] == 'a' && "kid"[0] == 'k';
    assert Get(fields[1..], "kid") == Some(Str(issuerDid));
  }

  predicate Letters(s: string) { forall i :: 0 <= i < |s| ==> 'A' <= s[i] <= 'Z' || 'a' <= s[i] <= 'z' }

  lemma PlainQuote(s: string)
    requires Letters(s)
    ensures Quote(s) == "\"" + s + "\""
  {
    PlainEscape(s);
  }

  lemma {:induction false} PlainEscape(s: string)
    requires Letters(s)
    ensures EscapeAll(s) == s
  {
    if s != [] {
      PlainEscape(s[1..]);
      assert s == [s[0]] + s[1..];
    }
  }

  /** A verifying credential was signed by the key's owner over exactly its canonical claims. */
  lemma VerifiedMeansSigned(vc: Verifiable, key: PublicKey)
    ensures VerifyCredential(vc, key) <==>
              exists header: Text ::
                && DOT !in header
                && vc.jws == Some(header + [DOT] + Payload(vc.claims) + [DOT] + [Base64(Sign(SigningInput(header, Payload(vc.claims)), key))])
  {
    hide Jcs, Split;
    if VerifyCredential(vc, key) {
      var parts := Split(vc.jws.value, DOT);
      JwsJoins(vc.jws.value);
      assert parts[1] == Payload(vc.claims) && parts[2] == [Base64(Sign(SigningInput(parts[0], parts[1]), key))];
    }
    if header: Text :| DOT !in header && vc.jws == Some(header + [DOT] + Payload(vc.claims) + [DOT] + [Base64(Sign(SigningInput(header, Payload(vc.claims)), key))]) {
      JwsSplits(header, Payload(vc.claims), [Base64(Sign(SigningInput(header, Payload(vc.claims)), key))]);
    }
  }
}
