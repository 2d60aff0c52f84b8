/** The short authentication string: an order-free digest of the members' keys, cut down to a few digits. */
module Sas {
  import opened Prelude
  import opened Decimals
  import opened Sequences
  import opened Sorting
  import opened Unicode

  // ---- Comparing keys ----

  /** Lexicographic order, a proper prefix first. */
  predicate Before(a: seq<Octet>, b: seq<Octet>) {
    b != [] && (a == [] || a[0] < b[0] || (a[0] == b[0] && Before(a[1..], b[1..])))
  }

  predicate NotAfter(a: seq<Octet>, b: seq<Octet>) { a == b || Before(a, b) }

  lemma {:induction false} BeforeTrichotomy(a: seq<Octet>, b: seq<Octet>)
    ensures (Before(a, b) && a != b && !Before(b, a)) || (a == b && !Before(a, b)) || (Before(b, a) && a != b && !Before(a, b))
  {
    if a != [] && b != [] {
      BeforeTrichotomy(a[1..], b[1..]);
      assert a == [a[0]] + a[1..] && b == [b[0]] + b[1..];
    }
  }

  lemma {:induction false} BeforeTransitive(a: seq<Octet>, b: seq<Octet>, c: seq<Octet>)
    requires Before(a, b) && Before(b, c)
    ensures Before(a, c)
  {
    if a != [] && b[0] == a[0] && c[0] == b[0] {
      BeforeTransitive(a[1..], b[1..], c[1..]);
    }
  }

  lemma {:induction false} BeforeSkipsCommon(a: seq<Octet>, b: seq<Octet>, n: nat)
    requires n <= |a| && n <= |b| && a[..n] == b[..n]
    ensures Before(a, b) <==> Before(a[n..], b[n..])
  {
    if n > 0 {
      assert a[0] == a[..n][0] && b[0] == b[..n][0];
      assert a[1..][..n - 1] == a[..n][1..] && b[1..][..n - 1] == b[..n][1..];
      BeforeSkipsCommon(a[1..], b[1..], n - 1);
      assert a[1..][n - 1..] == a[n..] && b[1..][n - 1..] == b[n..];
    } else {
      assert a[0..] == a && b[0..] == b;
    }
  }

  /** The comparator's sign is the order, and it is zero for equal keys only. */
  method CompareBytes(a: seq<Octet>, b: seq<Octet>) returns (d: int)
    ensures d < 0 <==> Before(a, b)
    ensures d == 0 <==> a == b
    ensures d > 0 <==> Before(b, a)
  {
    BeforeTrichotomy(a, b);
    var len := if |a| < |b| then |a| else |b|;
    for i := 0 to len
      invariant a[..i] == b[..i]
    {
      BeforeSkipsCommon(a, b, i);
      BeforeSkipsCommon(b, a, i);
      var x: int, y: int := a[i], b[i];
      d := x - y;
      if d != 0 {
        return;
      }
      PrefixStep(a, i);
      PrefixStep(b, i);
    }
    BeforeSkipsCommon(a, b, len);
    BeforeSkipsCommon(b, a, len);
    d := |a| - |b|;
    assert d == 0 ==> a[..len] == a && b[..len] == b;
  }

  lemma NotAfterIsOrder()
    ensures TotalPreorder(NotAfter)
    ensures forall a, b :: NotAfter(a, b) && NotAfter(b, a) ==> a == b
  {
    forall a: seq<Octet>, b: seq<Octet> ensures NotAfter(a, b) || NotAfter(b, a) {
      BeforeTrichotomy(a, b);
    }
    forall a: seq<Octet>, b: seq<Octet>, c: seq<Octet> | NotAfter(a, b) && NotAfter(b, c) ensures NotAfter(a, c) {
      if a != b && b != c {
        BeforeTransitive(a, b, c);
      }
    }
    forall a: seq<Octet>, b: seq<Octet> | NotAfter(a, b) && NotAfter(b, a) ensures a == b {
      BeforeTrichotomy(a, b);
    }
  }

  // ---- The 32-bit word ----

  /** Bitwise or on naturals. */
  function Or(a: nat, b: nat): nat {
    if a == 0 && b == 0 then 0
    else 2 * Or(a / 2, b / 2) + if a % 2 == 1 || b % 2 == 1 then 1 else 0
  }

  function PowerTwo(k: nat): (p: nat)
    ensures p >= 1
  {
    if k == 0 then 1 else 2 * PowerTwo(k - 1)
  }

  /** `x << k` on 32-bit patterns. */
  function ShiftLeft(x: nat, k: nat): nat { x * PowerTwo(k) % 0x1_0000_0000 }

  lemma {:induction false} OrWithZero(b: nat)
    ensures Or(0, b) == b && Or(b, 0) == b
  {
    if b > 0 {
      OrWithZero(b / 2);
    }
  }

  /** Or-ing into empty low bits is adding. */
  lemma {:induction false} OrIntoLowBits(x: nat, k: nat, y: nat)
    requires y < PowerTwo(k)
    ensures Or(x * PowerTwo(k), y) == x * PowerTwo(k) + y
  {
    if k == 0 {
      OrWithZero(x);
    } else {
      var p := PowerTwo(k - 1);
      var high := x * PowerTwo(k);
      assert high == 2 * (x * p);
      assert high / 2 == x * p && high % 2 == 0;
      OrIntoLowBits(x, k - 1, y / 2);
    }
  }

  /** `((h0 << 24) | (h1 << 16) | (h2 << 8) | h3) >>> 0`. */
  function Word(h: seq<Octet>): nat
    requires |h| >= 4
  {
    Or(Or(Or(ShiftLeft(h[0], 24), ShiftLeft(h[1], 16)), ShiftLeft(h[2], 8)), h[3])
  }

  function BigEndian(h: seq<Octet>): nat {
    if h == [] then 0 else 256 * BigEndian(h[..|h| - 1]) + h[|h| - 1]
  }

  lemma PowersOfTwo()
    ensures PowerTwo(8) == 0x100 && PowerTwo(16) == 0x1_0000 && PowerTwo(24) == 0x100_0000
  {
    assert PowerTwo(4) == 16;
    assert PowerTwo(8) == 0x100;
    assert PowerTwo(12) == 0x1000;
    assert PowerTwo(16) == 0x1_0000;
    assert PowerTwo(20) == 0x10_0000;
  }

  /** The word is the big-endian value of the first four octets. */
  lemma WordIsBigEndian(h: seq<Octet>)
    requires |h| >= 4
    ensures Word(h) == BigEndian(h[..4]) < 0x1_0000_0000
  {
    var a: nat, b: nat, c: nat, d: nat := h[0], h[1], h[2], h[3];
    ShiftedOctets(a, b, c);
    PowersOfTwo();
    OrIntoLowBits(a, 24, b * 0x1_0000);
    OrIntoLowBits(a * 0x100 + b, 16, c * 0x100);
    OrIntoLowBits((a * 0x100 + b) * 0x100 + c, 8, d);
    FourOctets(h, a, b, c, d);
  }

  lemma ShiftedOctets(a: nat, b: nat, c: nat)
    requires a < 256 && b < 256 && c < 256
    ensures ShiftLeft(a, 24) == a * 0x100_0000 && ShiftLeft(b, 16) == b * 0x1_0000 && ShiftLeft(c, 8) == c * 0x100
  {
    hide PowerTwo;
    PowersOfTwo();
    ShiftedBy(a, 24, 0x100_0000);
    ShiftedBy(b, 16, 0x1_0000);
    ShiftedBy(c, 8, 0x100);
  }

  lemma ShiftedBy(x: nat, k: nat, p: nat)
    requires PowerTwo(k) == p && x * p < 0x1_0000_0000
    ensures ShiftLeft(x, k) == x * p
  {
    hide PowerTwo;
  }

  lemma FourOctets(h: seq<Octet>, a: nat, b: nat, c: nat, d: nat)
    requires |h| >= 4 && h[0] == a && h[1] == b && h[2] == c && h[3] == d
    ensures BigEndian(h[..4]) == ((a * 0x100 + b) * 0x100 + c) * 0x100 + d
  {
    assert h[..4][..3] == h[..3] && h[..3][..2] == h[..2] && h[..2][..1] == h[..1] && h[..1][..0] == [];
    assert BigEndian(h[..1]) == h[0];
    assert BigEndian(h[..2]) == 256 * BigEndian(h[..1]) + h[1];
    assert BigEndian(h[..3]) == 256 * BigEndian(h[..2]) + h[2];
    assert BigEndian(h[..4]) == 256 * BigEndian(h[..3]) + h[3];
  }

  // ---- The string ----

  /** `Math.trunc`. */
  function Trunc(x: real): int { if x >= 0.0 then x.Floor else -((-x).Floor) }

  function DigitCount(digits: real): (d: nat)
    ensures 1 <= d <= 9
  {
    var n := Trunc(digits);
    if n < 1 then 1 else if n > 9 then 9 else n
  }

  function Concat(parts: seq<seq<Octet>>): seq<Octet> {
    if parts == [] then [] else parts[0] + Concat(parts[1..])
  }

  /** SHA-256, of which only the digest's length matters here. */
  ghost predicate IsHash(sha256: seq<Octet> -> seq<Octet>) {
    forall m: seq<Octet> :: |sha256(m)| == 32
  }

  /** What is digested: the domain tag with the session id, and the members' identity keys in order. */
  function Digested(sessionId: string, keys: seq<seq<Octet>>): seq<Octet> {
    OctetsOf("randevu/sas/v1|" + sessionId) + Concat(Sort(NotAfter, keys))
  }

  function ComputeSas(sha256: seq<Octet> -> seq<Octet>, sessionId: string, keys: seq<seq<Octet>>, digits: real): string
    requires |sha256(Digested(sessionId, keys))| == 32
  {
    var d := DigitCount(digits);
    Padded(Word(sha256(Digested(sessionId, keys))) % Power10(d), d)
  }

  /** Whatever order the members' keys come in, the same octets are digested. */
  lemma DigestIgnoresOrder(sessionId: string, keys: seq<seq<Octet>>, other: seq<seq<Octet>>)
    requires multiset(other) == multiset(keys)
    ensures Digested(sessionId, other) == Digested(sessionId, keys)
  {
    NotAfterIsOrder();
    SortIgnoresOrder(NotAfter, keys, other);
  }

  /** Whatever order the members' keys come in, the string is the same. */
  lemma SasIgnoresOrder(sha256: seq<Octet> -> seq<Octet>, sessionId: string, keys: seq<seq<Octet>>, other: seq<seq<Octet>>, digits: real)
    requires IsHash(sha256) && multiset(other) == multiset(keys)
    ensures ComputeSas(sha256, sessionId, other, digits) == ComputeSas(sha256, sessionId, keys, digits)
  {
    DigestIgnoresOrder(sessionId, keys, other);
  }

  /**
   * The digits asked for, cut off to a whole number between one and nine, spell the leading 32 bits, modulo that power of
   * ten, of the digest of the tagged session id and the keys in ascending order.
   */
  lemma SasIsNumber(sha256: seq<Octet> -> seq<Octet>, sessionId: string, keys: seq<seq<Octet>>, ascending: seq<seq<Octet>>, digits: real)
    requires IsHash(sha256) && multiset(ascending) == multiset(keys)
    requires forall i, j :: 0 <= i < j < |ascending| ==> ascending[i] == ascending[j] || Before(ascending[i], ascending[j])
    ensures
      var sas := ComputeSas(sha256, sessionId, keys, digits);
      && |sas| == (if digits < 2.0 then 1 else if digits >= 9.0 then 9 else digits.Floor)
      && (forall c <- sas :: IsDigit(c))
      && Value(sas) == BigEndian(sha256(OctetsOf("randevu/sas/v1|" + sessionId) + Concat(ascending))[..4]) % Power10(|sas|)
  {
    hide OctetsOf, Concat, Word, BigEndian, Before;
    DigestIgnoresOrder(sessionId, keys, ascending);
    SortKeepsSorted(NotAfter, ascending);
    var h, d := sha256(Digested(sessionId, keys)), DigitCount(digits);
    WordIsBigEndian(h);
    var n := Word(h) % Power10(d);
    DigitsLength(n, d);
    ValueOfPadded(n, d);
  }

  ghost predicate AreKeys(keys: seq<seq<Octet>>) { forall i :: 0 <= i < |keys| ==> |keys[i]| == 32 }

  lemma {:induction false} ConcatReads(a: seq<seq<Octet>>, b: seq<seq<Octet>>)
    requires AreKeys(a) && AreKeys(b) && Concat(a) == Concat(b)
    ensures a == b
  {
    ConcatLength(a);
    ConcatLength(b);
    if a != [] {
      var s := Concat(a);
      assert a[0] == s[..32] == b[0] && Concat(a[1..]) == s[32..] == Concat(b[1..]);
      ConcatReads(a[1..], b[1..]);
      assert a == [a[0]] + a[1..] && b == [b[0]] + b[1..];
    }
  }

  lemma {:induction false} ConcatLength(a: seq<seq<Octet>>)
    requires AreKeys(a)
    ensures |Concat(a)| == 32 * |a|
  {
    if a != [] {
      ConcatLength(a[1..]);
    }
  }

  lemma SortKeepsKeys(keys: seq<seq<Octet>>)
    requires AreKeys(keys)
    ensures AreKeys(Sort(NotAfter, keys))
  {
    assert forall k <- keys :: |k| == 32;
    assert forall i :: 0 <= i < |keys| ==> Sort(NotAfter, keys)[i] in keys;
  }

  /**
   * Two parties that see equally many members digest the same octets exactly when they are in the same session and hold
   * the same keys, each equally often: one substituted key changes what is digested.
   */
  lemma DigestBinds(sessionId: string, keys: seq<seq<Octet>>, otherId: string, other: seq<seq<Octet>>)
    requires AreKeys(keys) && AreKeys(other) && |keys| == |other|
    ensures Digested(sessionId, keys) == Digested(otherId, other) <==>
            sessionId == otherId && multiset(keys) == multiset(other)
  {
    hide Sort, AreKeys, Concat, OctetsOf;
    var a, b := Sort(NotAfter, keys), Sort(NotAfter, other);
    SortKeepsKeys(keys);
    SortKeepsKeys(other);
    ConcatLength(a);
    ConcatLength(b);
    if Digested(sessionId, keys) == Digested(otherId, other) {
      var s, x, y := Digested(sessionId, keys), OctetsOf("randevu/sas/v1|" + sessionId), OctetsOf("randevu/sas/v1|" + otherId);
      assert x == s[..|x|] && y == s[..|y|] && Concat(a) == s[|x|..] && Concat(b) == s[|y|..];
      ConcatReads(a, b);
      OctetsInjective("randevu/sas/v1|" + sessionId, "randevu/sas/v1|" + otherId);
      assert sessionId == ("randevu/sas/v1|" + sessionId)[15..] && otherId == ("randevu/sas/v1|" + otherId)[15..];
    }
    if sessionId == otherId && multiset(keys) == multiset(other) {
      DigestIgnoresOrder(sessionId, other, keys);
    }
  }
}
