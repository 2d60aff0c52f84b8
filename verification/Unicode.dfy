/** UTF-8, by section 3 of RFC 3629. */
module Unicode {
  import opened Prelude

  predicate Scalar(n: nat) { n < 0xD800 || 0xE000 <= n < 0x110000 }

  function CodePoint(c: char): (n: nat)
    ensures Scalar(n) && n as char == c
  {
    c as int
  }

  function Utf8(n: nat): (octets: seq<Octet>)
    requires n < 0x110000
    ensures 1 <= |octets| <= 4
  {
    if n < 0x80 then [n]
    else if n < 0x800 then [0xC0 + n / 64, 0x80 + n % 64]
    else if n < 0x10000 then [0xE0 + n / 4096, 0x80 + n / 64 % 64, 0x80 + n % 64]
    else [0xF0 + n / 262144, 0x80 + n / 4096 % 64, 0x80 + n / 64 % 64, 0x80 + n % 64]
  }

  /** How many octets a leading octet announces; 0 for one that cannot lead. */
  function Announced(first: Octet): (k: nat)
    ensures k <= 4
  {
    if first < 0x80 then 1
    else if 0xC0 <= first < 0xE0 then 2
    else if 0xE0 <= first < 0xF0 then 3
    else if 0xF0 <= first < 0xF8 then 4
    else 0
  }

  function Above(octet: Octet, base: int): int { octet - base }

  /** The payload bits of an octet sequence. */
  function Payload(octets: seq<Octet>): int {
    if |octets| == 1 then octets[0]
    else if |octets| == 2 then 64 * Above(octets[0], 0xC0) + Above(octets[1], 0x80)
    else if |octets| == 3 then 4096 * Above(octets[0], 0xE0) + 64 * Above(octets[1], 0x80) + Above(octets[2], 0x80)
    else if |octets| == 4 then
      262144 * Above(octets[0], 0xF0) + 4096 * Above(octets[1], 0x80) + 64 * Above(octets[2], 0x80) + Above(octets[3], 0x80)
    else -1
  }

  /** The character whose one encoding these octets are: over-long forms, surrogates and excess values are refused. */
  function CharOf(octets: seq<Octet>): Option<char> {
    var n := Payload(octets);
    if 0 <= n && Scalar(n) && Utf8(n) == octets then Some(n as char) else None
  }

  lemma PayloadOfUtf8(n: nat)
    requires n < 0x110000
    ensures Payload(Utf8(n)) == n && Announced(Utf8(n)[0]) == |Utf8(n)|
  {
    assert n / 4096 == n / 64 / 64 && n / 262144 == n / 64 / 64 / 64;
  }

  // ---- Strings ----

  /** `utf8ToBytes`. */
  function OctetsOf(s: string): seq<Octet> {
    if s == [] then [] else Utf8(CodePoint(s[0])) + OctetsOf(s[1..])
  }

  /** A character's octets tell where they end. */
  lemma Utf8IsPrefixCode(c: char, x: seq<Octet>, d: char, y: seq<Octet>)
    requires Utf8(CodePoint(c)) + x == Utf8(CodePoint(d)) + y
    ensures c == d && x == y
  {
    var m, n := CodePoint(c), CodePoint(d);
    PayloadOfUtf8(m);
    PayloadOfUtf8(n);
    hide Utf8, Payload, Announced;
    var s := Utf8(m) + x;
    assert s[0] == Utf8(m)[0] == Utf8(n)[0];
    assert Utf8(m) == s[..|Utf8(m)|] == Utf8(n);
    assert x == s[|Utf8(m)|..] == y;
    assert m as char == n as char;
  }

  /** Strings with the same octets are the same. */
  lemma {:induction false} OctetsInjective(a: string, b: string)
    requires OctetsOf(a) == OctetsOf(b)
    ensures a == b
  {
    if a != [] && b != [] {
      Utf8IsPrefixCode(a[0], OctetsOf(a[1..]), b[0], OctetsOf(b[1..]));
      OctetsInjective(a[1..], b[1..]);
      assert a == [a[0]] + a[1..] && b == [b[0]] + b[1..];
    }
  }

  lemma {:induction false} OctetsAppend(a: string, b: string)
    ensures OctetsOf(a + b) == OctetsOf(a) + OctetsOf(b)
  {
    hide Utf8;
    if a == [] {
      assert a + b == b;
    } else {
      assert (a + b)[1..] == a[1..] + b;
      OctetsAppend(a[1..], b);
    }
  }
}
