/** `encodeURIComponent` and `decodeURIComponent` on well-formed strings. */
module Uri {
  import opened Prelude
  import opened Decimals
  import opened Unicode

  // ---- Escapes ----

  function HexUpper(n: nat): char
    requires n < 16
  {
    if n < 10 then ('0' as nat + n) as char else ('A' as nat + n - 10) as char
  }

  function Escape(b: Octet): string
  {
    ['%', HexUpper(b / 16), HexUpper(b % 16)]
  }

  function EscapeAll(octets: seq<Octet>): string
  {
    if octets == [] then [] else Escape(octets[0]) + EscapeAll(octets[1..])
  }

  /** The octet of one escape at the front. */
  function ReadEscape(s: string): Option<Octet> {
    if |s| < 3 || s[0] != '%' || HexValue(s[1]).None? || HexValue(s[2]).None? then None
    else Some(16 * HexValue(s[1]).value + HexValue(s[2]).value)
  }

  /** The octets of `k` escapes at the front. */
  function ReadEscapes(s: string, k: nat): (r: Option<seq<Octet>>)
    ensures r.Some? ==> |r.value| == k && 3 * k <= |s|
  {
    if k == 0 then Some([])
    else
      var first := ReadEscape(s);
      if first.None? then None
      else
        var rest := ReadEscapes(s[3..], k - 1);
        if rest.None? then None else Some([first.value] + rest.value)
  }

  lemma ReadsOwnEscape(b: Octet, rest: string)
    ensures ReadEscape(Escape(b) + rest) == Some(b) && (Escape(b) + rest)[3..] == rest
  {
  }

  lemma FirstEscape(octets: seq<Octet>, rest: string)
    requires octets != []
    ensures EscapeAll(octets) + rest == Escape(octets[0]) + (EscapeAll(octets[1..]) + rest)
  {
    hide Escape;
  }

  lemma {:induction false} ReadsOwnEscapes(octets: seq<Octet>, rest: string)
    ensures |EscapeAll(octets)| == 3 * |octets|
    ensures ReadEscapes(EscapeAll(octets) + rest, |octets|) == Some(octets)
    ensures (EscapeAll(octets) + rest)[3 * |octets|..] == rest
  {
    if octets != [] {
      var s, later := EscapeAll(octets) + rest, EscapeAll(octets[1..]) + rest;
      FirstEscape(octets, rest);
      ReadsOwnEscape(octets[0], later);
      assert |EscapeAll(octets)| == 3 + |EscapeAll(octets[1..])|;
      ReadsOwnEscapes(octets[1..], rest);
      hide Escape, ReadEscape, EscapeAll;
      assert s[3..] == later && [octets[0]] + octets[1..] == octets;
      assert s[3 * |octets|..] == later[3 * |octets[1..]|..];
    }
  }

  // ---- Components ----

  predicate Unreserved(c: char) {
    'A' <= c <= 'Z' || 'a' <= c <= 'z' || IsDigit(c) || c in "-_.!~*'()"
  }

  function EncodeChar(c: char): string {
    if Unreserved(c) then [c] else EscapeAll(Utf8(CodePoint(c)))
  }

  function Encode(s: string): string {
    if s == [] then [] else EncodeChar(s[0]) + Encode(s[1..])
  }

  /** `decodeURIComponent`: `None` where it throws. */
  function Decode(s: string): Option<string>
    decreases |s|
  {
    if s == [] then Some([])
    else if s[0] != '%' then
      var rest := Decode(s[1..]);
      if rest.None? then None else Some([s[0]] + rest.value)
    else
      var first := ReadEscape(s);
      if first.None? || Announced(first.value) == 0 then None
      else
        var k := Announced(first.value);
        var octets := ReadEscapes(s, k);
        if octets.None? || CharOf(octets.value).None? then None
        else
          var rest := Decode(s[3 * k..]);
          if rest.None? then None else Some([CharOf(octets.value).value] + rest.value)
  }

  lemma EscapedCharReads(c: char, rest: string)
    requires !Unreserved(c)
    ensures
      var octets, s := Utf8(CodePoint(c)), EncodeChar(c) + rest;
      && s != [] && s[0] == '%' && ReadEscape(s) == Some(octets[0]) && Announced(octets[0]) == |octets|
      && ReadEscapes(s, |octets|) == Some(octets) && CharOf(octets) == Some(c) && s[3 * |octets|..] == rest
  {
    hide Payload, Utf8;
    var octets := Utf8(CodePoint(c));
    PayloadOfUtf8(CodePoint(c));
    ReadsOwnEscapes(octets, rest);
    ReadsOwnEscape(octets[0], EscapeAll(octets[1..]) + rest);
    assert EscapeAll(octets) + rest == Escape(octets[0]) + (EscapeAll(octets[1..]) + rest);
  }

  lemma DecodeStep(c: char, rest: string)
    ensures Decode(EncodeChar(c) + rest) == match Decode(rest) case None => None case Some(t) => Some([c] + t)
  {
    if Unreserved(c) {
      assert ([c] + rest)[1..] == rest;
    } else {
      EscapedCharReads(c, rest);
      hide EncodeChar, Utf8, CharOf, ReadEscape, ReadEscapes, Announced;
    }
  }

  /** Percent-encoding is inverted, for every string. */
  lemma {:induction false} DecodeUndoesEncode(s: string)
    ensures Decode(Encode(s)) == Some(s)
  {
    if s != [] {
      DecodeStep(s[0], Encode(s[1..]));
      DecodeUndoesEncode(s[1..]);
      hide EncodeChar, Decode;
      assert [s[0]] + s[1..] == s;
    }
  }

  lemma {:induction false} DecodeShortens(s: string)
    ensures Decode(s).Some? ==> |Decode(s).value| <= |s|
    ensures Decode(s).Some? && '%' in s ==> |Decode(s).value| < |s|
    decreases |s|
  {
    if s != [] {
      if s[0] != '%' {
        DecodeShortens(s[1..]);
      } else if ReadEscape(s).Some? && Announced(ReadEscape(s).value) > 0 {
        var k := Announced(ReadEscape(s).value);
        hide CharOf, ReadEscape, Announced;
        if ReadEscapes(s, k).Some? {
          DecodeShortens(s[3 * k..]);
        }
      }
    }
  }

  lemma {:induction false} DecodePlain(s: string)
    requires '%' !in s
    ensures Decode(s) == Some(s)
  {
    if s != [] {
      DecodePlain(s[1..]);
      assert [s[0]] + s[1..] == s;
    }
  }

  /** Decoding leaves exactly the strings without a percent sign alone. */
  lemma DecodesToItself(s: string)
    ensures Decode(s) == Some(s) <==> '%' !in s
  {
    DecodeShortens(s);
    if '%' !in s {
      DecodePlain(s);
    }
  }

  /** Encoded text is made of unreserved characters and escapes: nothing to trim, no line break in it. */
  lemma {:induction false} EncodedIsPlain(s: string)
    ensures forall c <- Encode(s) :: Unreserved(c) || c == '%'
    ensures s != [] ==> Encode(s) != []
  {
    if s != [] {
      EncodedIsPlain(s[1..]);
      if !Unreserved(s[0]) {
        EscapesArePlain(Utf8(CodePoint(s[0])));
      }
      hide Utf8, EncodeChar;
    }
  }

  lemma {:induction false} EscapesArePlain(octets: seq<Octet>)
    ensures forall c <- EscapeAll(octets) :: Unreserved(c) || c == '%'
    ensures octets != [] ==> EscapeAll(octets) != []
  {
    if octets != [] {
      EscapesArePlain(octets[1..]);
      assert forall c <- Escape(octets[0]) :: Unreserved(c) || c == '%';
    }
  }

  // ---- How encoded text is spelled ----

  const HEX_DIGITS := "0123456789ABCDEF"

  predicate IsEscape(s: string, octet: Octet) {
    s == ['%', HEX_DIGITS[octet / 16], HEX_DIGITS[octet % 16]]
  }

  lemma EscapeSpelled(octet: Octet)
    ensures IsEscape(Escape(octet), octet)
  {
    DigitSpelled(octet / 16);
    DigitSpelled(octet % 16);
  }

  lemma DigitSpelled(n: nat)
    requires n < 16
    ensures HexUpper(n) == HEX_DIGITS[n]
  {
  }

  lemma {:induction false} EscapesSpelled(octets: seq<Octet>)
    ensures |EscapeAll(octets)| == 3 * |octets|
    ensures forall i: nat :: i < |octets| ==> IsEscape(EscapeAll(octets)[3 * i..3 * i + 3], octets[i])
  {
    hide IsEscape;
    if octets != [] {
      EscapesSpelled(octets[1..]);
      EscapeSpelled(octets[0]);
      var s, rest := EscapeAll(octets), EscapeAll(octets[1..]);
      assert s[0..3] == Escape(octets[0]);
      forall i: nat | i < |octets| ensures IsEscape(s[3 * i..3 * i + 3], octets[i]) {
        if i > 0 {
          var j: nat := i - 1;
          assert s[3 * i..3 * i + 3] == rest[3 * j..3 * j + 3] && octets[i] == octets[1..][j];
        }
      }
    }
  }

  /**
   * Letters, digits and nine marks stand for themselves; every other character becomes one escape with upper-case digits
   * for each octet of its UTF-8 form.
   */
  lemma CharSpelled(c: char)
    ensures
      var kept := 'A' <= c <= 'Z' || 'a' <= c <= 'z' || '0' <= c <= '9' || c == '-' || c == '_' || c == '.' || c == '!'
                  || c == '~' || c == '*' || c == '\'' || c == '(' || c == ')';
      var text, octets := Encode([c]), Utf8(c as int);
      if kept then text == [c]
      else |text| == 3 * |octets| && forall i: nat :: i < |octets| ==> IsEscape(text[3 * i..3 * i + 3], octets[i])
  {
    hide IsEscape, Utf8;
    EscapesSpelled(Utf8(CodePoint(c)));
    assert [c][1..] == [] && Encode([]) == [];
    assert Encode([c]) == EncodeChar(c) + [] == EncodeChar(c);
  }

  lemma {:induction false} EncodeAppends(a: string, b: string)
    ensures Encode(a + b) == Encode(a) + Encode(b)
  {
    hide EncodeChar;
    if a == [] {
      assert a + b == b;
    } else {
      assert (a + b)[1..] == a[1..] + b;
      EncodeAppends(a[1..], b);
    }
  }
}
