/** Exactly which printed header lines the room parser reads back. */
module RoomHeader {
  import opened Prelude
  import opened Decimals
  import opened Sequences
  import opened RoomText

  /** The printed line behind the name: the type if any, a colon, a space, the first line of text. */
  function Behind(messageType: string, first: string): string {
    (if messageType == "" then "" else " (" + messageType + ")") + ": " + first
  }

  function HeaderLine(m: RoomMessage, first: string): string {
    "#" + Digits(m.seqNo) + " " + (m.from + Behind(m.messageType, first))
  }

  function TypeOf(messageType: string): Option<string> {
    if messageType == "" then None else Some(messageType)
  }

  /** The line opens a message with this number, name and type. */
  predicate Opens(line: string, m: RoomMessage) {
    var p := ParseHeader(line);
    p.Some? && p.value.seqNo == m.seqNo && p.value.from == m.from && p.value.messageType == TypeOf(m.messageType)
  }

  /** No name ends before this one does, neither inside it nor behind the blanks it starts with. */
  ghost predicate NoEarlierName(from: string, behind: string) {
    && (forall n :: 1 <= n < |from| ==> EndingOf((from + behind)[n..]).None?)
    && (forall j :: 1 <= j <= BlankRun(from + behind) ==> NameAndEnding((from + behind)[j..]).None?)
  }

  ghost predicate SafeHeader(m: RoomMessage, first: string) {
    m.from != "" && ')' !in m.messageType && NoEarlierName(m.from, Behind(m.messageType, first))
  }

  // ---- Taking the line apart ----

  lemma {:induction false} DigitRunOf(digits: string, rest: string)
    requires (forall c <- digits :: IsDigit(c)) && rest != [] && !IsDigit(rest[0])
    ensures DigitRun(digits + rest) == |digits|
  {
    if digits == [] {
      assert digits + rest == rest;
    } else {
      assert (digits + rest)[1..] == digits[1..] + rest;
      DigitRunOf(digits[1..], rest);
    }
  }

  lemma HeaderSplits(m: RoomMessage, first: string)
    ensures
      var line, n := HeaderLine(m, first), m.from + Behind(m.messageType, first);
      && line != [] && line[0] == '#'
      && var digits := DigitRun(line[1..]);
      && digits > 0 && Value(line[1..][..digits]) == m.seqNo
      && line[1 + digits..] == " " + n
      && BlankRun(line[1 + digits..]) == 1 + BlankRun(n)
  {
    var line, n := HeaderLine(m, first), m.from + Behind(m.messageType, first);
    var d := Digits(m.seqNo);
    assert line[1..] == d + (" " + n);
    DigitRunOf(d, " " + n);
    assert line[1..][..|d|] == d && line[1 + |d|..] == " " + n;
    assert (" " + n)[1..] == n;
    ValueOfDigits(m.seqNo);
  }

  /** What the parser makes of a printed header depends on the search for a name alone. */
  lemma HeaderIsSearched(m: RoomMessage, first: string)
    ensures
      var n := m.from + Behind(m.messageType, first);
      ParseHeader(HeaderLine(m, first)) ==
      match AfterBlanks(" " + n, 1 + BlankRun(n))
      case None => None
      case Some((from, ending)) =>
        Some(Pending(m.seqNo, from, if ending.messageType == Some("") then None else ending.messageType, [ending.body]))
  {
    hide HeaderLine, Behind, AfterBlanks, DigitRun, BlankRun;
    HeaderSplits(m, first);
  }

  lemma {:induction false} IndexOfFirst(s: string, c: char, rest: string)
    requires c !in s
    ensures IndexOf(s + [c] + rest, c) == |s|
  {
    if s != [] {
      assert s[0] in s && (s + [c] + rest)[1..] == s[1..] + [c] + rest;
      IndexOfFirst(s[1..], c, rest);
    }
  }

  lemma PlainEnding(first: string)
    ensures EndingOf(Behind("", first)) == Some(Ending(None, first))
  {
    assert Behind("", first)[1..] == " " + first;
    assert (" " + first)[1..] == first;
  }

  lemma TypedShape(messageType: string, first: string)
    requires messageType != ""
    ensures
      var behind := Behind(messageType, first);
      && |behind| > 2 && behind[0] == ' ' && behind[1] == '(' && BlankRun(behind) == 1
      && behind[2..] == messageType + [')'] + (": " + first)
  {
    var behind := Behind(messageType, first);
    assert behind[1..][0] == '(';
    assert behind[2..] == messageType + [')'] + (": " + first);
  }

  lemma TypedEnding(messageType: string, first: string)
    requires messageType != "" && ')' !in messageType
    ensures EndingOf(Behind(messageType, first)) == Some(Ending(Some(messageType), first))
  {
    TypedShape(messageType, first);
    IndexOfFirst(messageType, ')', ": " + first);
    var inside := Behind(messageType, first)[2..];
    assert inside[..|messageType|] == messageType && inside[|messageType| + 1] == ':';
    assert inside[|messageType| + 2..] == " " + first && (" " + first)[1..] == first;
  }

  /** Any type read back is free of closing parentheses. */
  lemma EndingTypeIsClosed(rest: string)
    ensures EndingOf(rest).Some? && EndingOf(rest).value.messageType.Some? ==> ')' !in EndingOf(rest).value.messageType.value
  {
  }

  // ---- The search ----

  lemma {:induction false} AfterBlanksPicks(rest: string, blanks: nat) returns (j: nat)
    requires blanks <= |rest| && AfterBlanks(rest, blanks).Some?
    ensures 1 <= j <= blanks && AfterBlanks(rest, blanks) == NameAndEnding(rest[j..])
    ensures forall i :: j < i <= blanks ==> NameAndEnding(rest[i..]).None?
  {
    hide NameAndEnding;
    if NameAndEnding(rest[blanks..]).Some? {
      j := blanks;
    } else {
      j := AfterBlanksPicks(rest, blanks - 1);
    }
  }

  lemma {:induction false} AfterBlanksLast(rest: string, blanks: nat)
    requires 1 <= blanks <= |rest| && NameAndEnding(rest[1..]).Some?
    ensures AfterBlanks(rest, blanks).Some?
    ensures (forall i :: 1 < i <= blanks ==> NameAndEnding(rest[i..]).None?) ==> AfterBlanks(rest, blanks) == NameAndEnding(rest[1..])
  {
    hide NameAndEnding;
    if blanks > 1 {
      AfterBlanksLast(rest, blanks - 1);
    }
  }

  lemma SafeNameFound(from: string, behind: string)
    requires from != "" && EndingOf(behind).Some? && NoEarlierName(from, behind)
    ensures NameAndEnding(from + behind) == Some((from, EndingOf(behind).value))
  {
    hide EndingOf;
    var n := from + behind;
    assert n[|from|..] == behind && n[..|from|] == from;
    NameIsShortest(n, 1, |from|);
  }

  lemma OneBlankSkipped(n: string)
    requires NameAndEnding(n).Some?
    requires forall j :: 1 <= j <= BlankRun(n) ==> NameAndEnding(n[j..]).None?
    ensures AfterBlanks(" " + n, 1 + BlankRun(n)) == NameAndEnding(n)
  {
    hide NameAndEnding;
    var rest := " " + n;
    forall i | 1 < i <= 1 + BlankRun(n) ensures NameAndEnding(rest[i..]).None? {
      assert rest[i..] == n[i - 1..];
    }
    assert rest[1..] == n;
    AfterBlanksLast(rest, 1 + BlankRun(n));
  }

  /** A safe header opens its message, its first line of text included. */
  lemma SafeHeaderOpens(m: RoomMessage, first: string)
    requires SafeHeader(m, first)
    ensures ParseHeader(HeaderLine(m, first)) == Some(Pending(m.seqNo, m.from, TypeOf(m.messageType), [first]))
  {
    var behind := Behind(m.messageType, first);
    hide EndingOf, AfterBlanks, NameAndEnding, HeaderLine;
    if m.messageType == "" { PlainEnding(first); } else { TypedEnding(m.messageType, first); }
    SafeNameFound(m.from, behind);
    OneBlankSkipped(m.from + behind);
    hide Behind, NoEarlierName, SafeHeader;
    HeaderIsSearched(m, first);
    hide ParseHeader;
  }

  // ---- Nothing else opens it ----

  lemma {:induction false} PeriodicBlanks(n: string, j: nat, k: nat)
    requires j + k <= |n| && 1 <= j
    requires forall i :: 0 <= i < j ==> IsBlank(n[i])
    requires forall i :: 0 <= i < k ==> n[i + j] == n[i]
    ensures forall i :: 0 <= i < j + k ==> IsBlank(n[i])
  {
    if k > 0 {
      PeriodicBlanks(n, j, k - 1);
      assert n[j + k - 1] == n[k - 1];
    }
  }

  lemma {:induction false} BlankRunReaches(s: string, k: nat)
    requires k <= |s| && forall i :: 0 <= i < k ==> IsBlank(s[i])
    ensures k <= BlankRun(s)
  {
    if k > 0 {
      BlankRunReaches(s[1..], k - 1);
    }
  }

  lemma {:induction false} BlankRunStops(s: string, at: nat)
    requires at < |s| && !IsBlank(s[at])
    ensures BlankRun(s) <= at
  {
    if at > 0 {
      BlankRunStops(s[1..], at - 1);
    }
  }

  /** A copy of the front of the line further along its blanks is itself all blank. */
  lemma BlankShift(n: string, j: nat, k: nat)
    requires 1 <= j <= BlankRun(n) && j + k <= |n|
    ensures n[j..][..k] == n[..k] ==> j + k <= BlankRun(n)
  {
    if n[j..][..k] == n[..k] {
      assert forall i :: 0 <= i < k ==> n[i + j] == n[j..][..k][i] == n[..k][i] == n[i];
      assert forall i :: 0 <= i < j ==> n[i] in n[..BlankRun(n)];
      PeriodicBlanks(n, j, k);
      BlankRunReaches(n, j + k);
    }
  }

  lemma BlanksBeforeEnding(from: string, messageType: string, first: string)
    ensures
      var n := from + Behind(messageType, first);
      && (messageType == "" ==> BlankRun(n) <= |from|)
      && (messageType != "" ==> BlankRun(n) <= |from| + 1 < |n| && n[|from| + 1] == '(')
  {
    var n := from + Behind(messageType, first);
    if messageType == "" {
      BlankRunStops(n, |from|);
    } else {
      TypedShape(messageType, first);
      assert n[|from| + 1] == Behind(messageType, first)[1];
      BlankRunStops(n, |from| + 1);
    }
  }

  lemma NoEndingAtParenthesis(rest: string)
    ensures rest != [] && rest[0] == '(' ==> EndingOf(rest).None?
  {
  }

  /** A name read from behind further blanks is never the printed one. */
  lemma LaterStartDiffers(from: string, messageType: string, first: string, j: nat)
    requires 1 <= j <= BlankRun(from + Behind(messageType, first))
    requires NameAndEnding((from + Behind(messageType, first))[j..]).Some?
    ensures NameAndEnding((from + Behind(messageType, first))[j..]).value.0 != from
  {
    hide EndingOf, Behind;
    var n := from + Behind(messageType, first);
    var k := NameLength(n[j..], 1).value;
    assert n[..|from|] == from;
    BlankShift(n, j, k);
    BlanksBeforeEnding(from, messageType, first);
    NoEndingAtParenthesis(n[j..][k..]);
  }

  lemma OpenedEnding(rest: string, from: string, behind: string)
    requires rest == from + behind && NameAndEnding(rest).Some? && NameAndEnding(rest).value.0 == from
    ensures from != "" && EndingOf(behind) == Some(NameAndEnding(rest).value.1)
    ensures forall n :: 1 <= n < |from| ==> EndingOf(rest[n..]).None?
  {
    hide EndingOf;
    var k := NameLength(rest, 1).value;
    assert rest[..k] == from && rest[k..] == behind;
    forall n | 1 <= n < |from| ensures EndingOf(rest[n..]).None? {
      NameIsShortest(rest, 1, n);
    }
  }

  /** The printed header opens its own message exactly when it is safe. */
  lemma HeaderReadsBack(m: RoomMessage, first: string)
    ensures Opens(HeaderLine(m, first), m) <==> SafeHeader(m, first)
  {
    if SafeHeader(m, first) {
      SafeHeaderOpens(m, first);
    }
    if Opens(HeaderLine(m, first), m) {
      OpensMeansSafe(m, first);
    }
  }

  /** What the parser read came from behind exactly one blank, or from behind more. */
  lemma NameStart(n: string) returns (j: nat)
    requires AfterBlanks(" " + n, 1 + BlankRun(n)).Some?
    ensures j <= BlankRun(n) && NameAndEnding(n[j..]) == AfterBlanks(" " + n, 1 + BlankRun(n))
    ensures forall i :: j < i <= BlankRun(n) ==> NameAndEnding(n[i..]).None?
  {
    hide NameAndEnding;
    var rest := " " + n;
    var i := AfterBlanksPicks(rest, 1 + BlankRun(n));
    j := i - 1;
    BehindBlank(n, j);
    forall i | j < i <= BlankRun(n) ensures NameAndEnding(n[i..]).None? {
      BehindBlank(n, i);
    }
  }

  lemma BehindBlank(n: string, i: nat)
    requires i <= |n|
    ensures (" " + n)[i + 1..] == n[i..]
  {
  }

  lemma OpensMeansSafe(m: RoomMessage, first: string)
    requires Opens(HeaderLine(m, first), m)
    ensures SafeHeader(m, first)
  {
    hide ParseHeader, EndingOf, NameAndEnding, Behind, HeaderLine, AfterBlanks;
    var behind := Behind(m.messageType, first);
    var n := m.from + behind;
    HeaderIsSearched(m, first);
    var j := NameStart(n);
    assert NameAndEnding(n[j..]).value.0 == m.from;
    var kind := NameAndEnding(n[j..]).value.1.messageType;
    assert TypeOf(m.messageType) == if kind == Some("") then None else kind;
    if j > 0 {
      LaterStartDiffers(m.from, m.messageType, first, j);
    }
    assert n[0..] == n;
    OpenedEnding(n, m.from, behind);
    EndingTypeIsClosed(behind);
  }

  /** The colon of a printed header ends some name. */
  lemma SomeNameEnds(from: string, messageType: string, first: string)
    requires from != ""
    ensures NameAndEnding(from + Behind(messageType, first)).Some?
  {
    var n := from + Behind(messageType, first);
    var colon := |from| + if messageType == "" then 0 else |messageType| + 3;
    assert n[colon] == ':';
    hide Behind;
    assert n[colon..][0] == ':';
    NameIsShortest(n, 1, colon);
  }

  lemma SomeBlankSkipped(n: string)
    requires NameAndEnding(n).Some?
    ensures AfterBlanks(" " + n, 1 + BlankRun(n)).Some?
  {
    hide NameAndEnding;
    assert (" " + n)[1..] == n;
    AfterBlanksLast(" " + n, 1 + BlankRun(n));
  }

  /** A non-empty name always leads to some header, if not to the right one. */
  lemma NamedHeaderIsHeader(m: RoomMessage, first: string)
    requires m.from != ""
    ensures ParseHeader(HeaderLine(m, first)).Some?
  {
    hide EndingOf, Behind, HeaderLine, NameAndEnding, AfterBlanks, ParseHeader;
    var n := m.from + Behind(m.messageType, first);
    SomeNameEnds(m.from, m.messageType, first);
    SomeBlankSkipped(n);
    HeaderIsSearched(m, first);
  }

  /** Ordinary names are safe: no colon, no opening parenthesis, and no blank at either end. */
  lemma PlainNameIsSafe(m: RoomMessage, first: string)
    requires m.from != "" && ':' !in m.from && '(' !in m.from && ')' !in m.messageType
    requires !IsBlank(m.from[0]) && !IsBlank(m.from[|m.from| - 1])
    ensures SafeHeader(m, first)
  {
    var behind := Behind(m.messageType, first);
    var n := m.from + behind;
    assert n[0] == m.from[0];
    forall i | 1 <= i < |m.from| ensures EndingOf(n[i..]).None? {
      NoEndingInside(m.from, behind, i);
    }
  }

  lemma NoEndingInside(from: string, behind: string, i: nat)
    requires i < |from| && ':' !in from && '(' !in from && !IsBlank(from[|from| - 1])
    ensures EndingOf((from + behind)[i..]).None?
  {
    var rest := (from + behind)[i..];
    assert rest[0] == from[i] && from[i] in from;
    var last := |from| - 1 - i;
    assert rest[last] == from[|from| - 1];
    BlankRunStops(rest, last);
    assert rest[BlankRun(rest)] == from[i + BlankRun(rest)];
  }

  /** A parenthesis left open after a blank in the name swallows a printed type: such a header is never safe. */
  lemma UnclosedNameIsUnsafe(before: string, inside: string, m: RoomMessage, first: string)
    requires before != "" && m.from == before + " (" + inside
    requires ')' !in inside && m.messageType != "" && ')' !in m.messageType
    ensures !SafeHeader(m, first)
  {
    var n := m.from + Behind(m.messageType, first);
    var group := inside + " (" + m.messageType;
    GroupSwallowed(n, before, group, first);
  }

  /** A blank, an open parenthesis and its partner before the colon end a name early. */
  lemma GroupSwallowed(n: string, before: string, group: string, first: string)
    requires ')' !in group && n == before + " (" + group + ")" + ": " + first
    ensures |before| <= |n| && EndingOf(n[|before|..]).Some?
  {
    var rest := n[|before|..];
    assert rest == " (" + (group + [')'] + (": " + first));
    assert rest[1..][0] == '(' && BlankRun(rest) == 1;
    IndexOfFirst(group, ')', ": " + first);
    assert rest[2..] == group + [')'] + (": " + first);
    assert rest[2..][|group| + 1] == ':';
  }
}
