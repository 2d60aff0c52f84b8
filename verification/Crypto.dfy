/**
 * Cryptography as a free term algebra. A digest, signature, sealed box or ciphertext is a constructor over
 * what went into it, so it equals another one exactly when all of that agrees. Key pairs are numbered: the
 * number stands for the private key, and every byte string that decodes as a public key is some number.
 */
module Crypto {
  import opened Prelude
  import opened Decimals

  type PublicKey = nat

  datatype Bytes =
    | Raw(octets: seq<nat>)
    | Utf8(text: Text)
    | Sha256(parts: seq<Bytes>)
    | Signature(signer: PublicKey, message: Bytes)
    | Sealed(recipient: PublicKey, payload: Bytes)
    | Cipher(key: Bytes, nonce: Bytes, associated: Text, plaintext: string)

  /** One character, or the whole hex or base64url spelling of some bytes, which contains no separator. */
  datatype Symbol = Ch(c: char) | Hex(bytes: Bytes) | Base64(bytes: Bytes)

  type Text = seq<Symbol>

  function Lift(s: string): (t: Text)
    ensures |t| == |s|
    ensures forall i :: 0 <= i < |s| ==> t[i] == Ch(s[i])
  {
    seq(|s|, i requires 0 <= i < |s| => Ch(s[i]))
  }

  lemma LiftInjective(a: string, b: string)
    requires Lift(a) == Lift(b)
    ensures a == b
  {
    assert forall i :: 0 <= i < |a| ==> Lift(a)[i] == Lift(b)[i];
  }

  /** `bytesToHex`. */
  function HexOf(b: Bytes): Text {
    if b == Raw([]) then [] else [Hex(b)]
  }

  /** A wire field that should be hex, as `hexToBytes` sees it: the decoded bytes, or undecodable. */
  datatype HexField = HexField(bytes: Bytes) | NotHex

  /** An injective stand-in for the truncated BLAKE2b of a public key; like hex, it has no separators in it. */
  function Fingerprint(key: PublicKey): string { Digits(key) }

  lemma FingerprintInjective(a: PublicKey, b: PublicKey)
    requires Fingerprint(a) == Fingerprint(b)
    ensures a == b
  {
    ValueOfDigits(a);
    ValueOfDigits(b);
  }

  function DidKey(key: PublicKey): string { "did:key:z" + Digits(key) }

  lemma DidKeyInjective(a: PublicKey, b: PublicKey)
    requires DidKey(a) == DidKey(b)
    ensures a == b
  {
    assert Digits(a) == DidKey(a)[9..] && Digits(b) == DidKey(b)[9..];
    ValueOfDigits(a);
    ValueOfDigits(b);
  }

  function Sign(message: Bytes, privateKey: PublicKey): Bytes { Signature(privateKey, message) }

  predicate Verify(signature: Bytes, message: Bytes, publicKey: PublicKey) {
    signature == Signature(publicKey, message)
  }

  function Seal(recipient: PublicKey, payload: Bytes): Bytes { Sealed(recipient, payload) }

  /** `openSealed`: `None` where the library throws. */
  function Open(sealed: Bytes, recipient: PublicKey): Option<Bytes> {
    if sealed.Sealed? && sealed.recipient == recipient then Some(sealed.payload) else None
  }

  function Encrypt(key: Bytes, nonce: Bytes, associated: Text, plaintext: string): Bytes {
    Cipher(key, nonce, associated, plaintext)
  }

  /** AEAD opening: `None` where the tag or the associated data does not verify. */
  function Decrypt(key: Bytes, nonce: Bytes, associated: Text, ciphertext: Bytes): Option<string> {
    if ciphertext.Cipher? && ciphertext.key == key && ciphertext.nonce == nonce && ciphertext.associated == associated
    then Some(ciphertext.plaintext) else None
  }

  /** How deeply digests are nested inside a term: a digest is deeper than anything in its pre-image. */
  function Depth(b: Bytes): nat
    decreases b, 0
  {
    match b
    case Raw(_) => 0
    case Utf8(text) => 1 + TextDepth(text)
    case Sha256(parts) => 1 + PartsDepth(parts)
    case Signature(_, message) => 1 + Depth(message)
    case Sealed(_, payload) => 1 + Depth(payload)
    case Cipher(key, nonce, associated, _) => 1 + Max(Depth(key), Max(Depth(nonce), TextDepth(associated)))
  }

  function SymbolDepth(s: Symbol): nat
    decreases s, 0
  {
    match s
    case Ch(_) => 0
    case Hex(bytes) => Depth(bytes)
    case Base64(bytes) => Depth(bytes)
  }

  function TextDepth(t: Text): nat
    decreases t, 1
  {
    if t == [] then 0 else Max(SymbolDepth(t[0]), TextDepth(t[1..]))
  }

  function PartsDepth(parts: seq<Bytes>): nat
    decreases parts, 1
  {
    if parts == [] then 0 else Max(Depth(parts[0]), PartsDepth(parts[1..]))
  }

  function Max(a: nat, b: nat): nat { if a > b then a else b }

  lemma {:induction false} SymbolInText(s: Symbol, t: Text)
    requires s in t
    ensures SymbolDepth(s) <= TextDepth(t)
  {
    if t[0] != s {
      SymbolInText(s, t[1..]);
    }
  }
}
