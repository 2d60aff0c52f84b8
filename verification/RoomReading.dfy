/** What any text says to the reply parser, told by its lines instead of the parser's steps. */
module RoomReading {
  import opened Prelude
  import opened Decimals
  import opened Sequences
  import opened RoomText
  import opened RoomHeader
  import opened RoomRoundTrip

  // ---- Messages ----

  /** How many lines go by before the next header, pause or cursor. */
  function TextRun(lines: seq<string>): (n: nat)
    ensures n <= |lines|
  {
    if lines == [] || Special(lines[0]) then 0 else 1 + TextRun(lines[1..])
  }

  /** The header's message: its own text and the plain lines behind it, without white space at the ends. */
  function MessageOf(header: Pending, behind: seq<string>): Parsed {
    Parsed(header.seqNo, header.from, header.messageType, Trim(Join(header.lines + behind[..TextRun(behind)], '\n'), IsWhite))
  }

  /** One message for each header line, in order. */
  function MessagesOf(lines: seq<string>): seq<Parsed> {
    if lines == [] then []
    else
      var header := ParseHeader(lines[0]);
      (if header.Some? then [MessageOf(header.value, lines[1..])] else []) + MessagesOf(lines[1..])
  }

  function OpenMessage(st: Parsing, lines: seq<string>): seq<Parsed> {
    if st.pending.None? then [] else [MessageOf(st.pending.value, lines)]
  }

  lemma TextRunStep(p: Pending, lines: seq<string>)
    requires lines != []
    ensures Special(lines[0]) ==> MessageOf(p, lines) == Finished(p)
    ensures !Special(lines[0]) ==> MessageOf(p, lines) == MessageOf(p.(lines := p.lines + [lines[0]]), lines[1..])
  {
    hide Special, Join, Trim;
    if Special(lines[0]) {
      assert p.lines + lines[..0] == p.lines;
    } else {
      var n := TextRun(lines[1..]);
      assert p.lines + lines[..n + 1] == (p.lines + [lines[0]]) + lines[1..][..n];
    }
  }

  lemma NoTextLeft(p: Pending)
    ensures MessageOf(p, []) == Finished(p)
  {
    assert p.lines + [][..0] == p.lines;
  }

  /** One line, seen from the messages that are finished in the end. */
  lemma LineMessages(st: Parsing, lines: seq<string>)
    requires lines != []
    ensures st.messages + OpenMessage(st, lines) + MessagesOf(lines) ==
            ParseLine(st, lines[0]).messages + OpenMessage(ParseLine(st, lines[0]), lines[1..]) + MessagesOf(lines[1..])
  {
    hide ParseHeader, ParseCursor, IsPause, Finished, MessageOf, MessagesOf;
    MessagesStep(lines);
    var next := ParseLine(st, lines[0]);
    if st.pending.Some? {
      TextRunStep(st.pending.value, lines);
    }
    if Special(lines[0]) {
      assert next.messages == st.messages + OpenMessage(st, lines);
    } else {
      assert next.messages == st.messages && OpenMessage(next, lines[1..]) == OpenMessage(st, lines);
    }
  }

  lemma MessagesStep(lines: seq<string>)
    requires lines != []
    ensures MessagesOf(lines) ==
            (match ParseHeader(lines[0]) case Some(p) => [MessageOf(p, lines[1..])] case None => []) + MessagesOf(lines[1..])
  {
    hide ParseHeader, MessageOf;
  }

  lemma {:induction false} FinishedMessages(st: Parsing, lines: seq<string>)
    ensures Conclude(ParseLines(st, lines)).messages == st.messages + OpenMessage(st, lines) + MessagesOf(lines)
    decreases |lines|
  {
    hide ParseLine, Finished, MessageOf;
    if lines == [] {
      if st.pending.Some? {
        NoTextLeft(st.pending.value);
      }
    } else {
      FinishedMessages(ParseLine(st, lines[0]), lines[1..]);
      LineMessages(st, lines);
    }
  }

  // ---- Pauses and cursors ----

  predicate PauseLineAt(lines: seq<string>, i: nat)
    requires i < |lines|
  {
    ParseHeader(lines[i]).None? && IsPause(lines[i])
  }

  /** The number on a cursor line. */
  function CursorAt(lines: seq<string>, i: nat): Option<int>
    requires i < |lines|
  {
    if ParseHeader(lines[i]).Some? || IsPause(lines[i]) then None else ParseCursor(lines[i])
  }

  lemma {:induction false} PausesSeen(st: Parsing, lines: seq<string>)
    ensures Flush(ParseLines(st, lines)).awaitingHuman <==>
            st.awaitingHuman || exists i: nat :: i < |lines| && PauseLineAt(lines, i)
    decreases |lines|
  {
    hide ParseHeader, ParseCursor, IsPause, Finished;
    if lines != [] {
      var rest := lines[1..];
      PausesSeen(ParseLine(st, lines[0]), rest);
      assert PauseLineAt(lines, 0) <==> ParseHeader(lines[0]).None? && IsPause(lines[0]);
      forall i: nat | i < |rest| ensures PauseLineAt(rest, i) <==> PauseLineAt(lines, i + 1) {
        assert rest[i] == lines[i + 1];
      }
      if exists i: nat :: i < |lines| && PauseLineAt(lines, i) {
        var i: nat :| i < |lines| && PauseLineAt(lines, i);
        if i > 0 {
          var j: nat := i - 1;
          assert PauseLineAt(rest, j) <==> PauseLineAt(lines, j + 1);
        }
      }
    }
  }

  /** The cursor is the number on the last cursor line, or what it was if there is none. */
  ghost predicate CursorIs(lines: seq<string>, start: int, cursor: int) {
    || (cursor == start && forall i: nat :: i < |lines| ==> CursorAt(lines, i).None?)
    || exists i: nat :: i < |lines| && CursorAt(lines, i) == Some(cursor)
                        && forall j: nat :: i < j < |lines| ==> CursorAt(lines, j).None?
  }

  lemma CursorLater(lines: seq<string>, start: int, cursor: int)
    requires lines != [] && CursorIs(lines[1..], if CursorAt(lines, 0).Some? then CursorAt(lines, 0).value else start, cursor)
    ensures CursorIs(lines, start, cursor)
  {
    hide ParseHeader, ParseCursor, IsPause;
    var rest := lines[1..];
    forall i: nat | 0 < i < |lines| ensures CursorAt(lines, i) == CursorAt(rest, i - 1) {
      assert rest[i - 1] == lines[i];
    }
    hide CursorAt;
    if i: nat :| i < |rest| && CursorAt(rest, i) == Some(cursor) && forall j: nat :: i < j < |rest| ==> CursorAt(rest, j).None? {
      var k: nat := i + 1;
      assert CursorAt(lines, k) == Some(cursor);
      forall j: nat | k < j < |lines| ensures CursorAt(lines, j).None? {
        var m: nat := j - 1;
        assert CursorAt(rest, m).None?;
      }
    } else {
      forall j: nat | 0 < j < |lines| ensures CursorAt(lines, j).None? {
        var m: nat := j - 1;
        assert CursorAt(rest, m).None?;
      }
    }
  }

  lemma {:induction false} CursorSeen(st: Parsing, lines: seq<string>)
    ensures CursorIs(lines, st.cursor, Flush(ParseLines(st, lines)).cursor)
    decreases |lines|
  {
    hide ParseHeader, ParseCursor, IsPause, Finished, CursorIs;
    if lines == [] {
      NoCursor(st.cursor);
    } else {
      CursorSeen(ParseLine(st, lines[0]), lines[1..]);
      assert ParseLine(st, lines[0]).cursor == if CursorAt(lines, 0).Some? then CursorAt(lines, 0).value else st.cursor;
      CursorLater(lines, st.cursor, Flush(ParseLines(st, lines)).cursor);
    }
  }

  lemma NoCursor(start: int)
    ensures CursorIs([], start, start)
  {
  }

  /**
   * Any text reads as one message per header line, each with the plain lines up to the next header, pause or cursor; it
   * awaits a human exactly if some line is a pause; and its cursor is the last one printed, or the fallback, but never
   * behind the last message.
   */
  lemma ReadingMeans(raw: string, fallbackCursor: int) returns (printed: int)
    ensures
      var lines, t := Lines(raw), ParsedReply(raw, fallbackCursor);
      && t.messages == MessagesOf(lines)
      && (t.awaitingHuman <==> exists i: nat :: i < |lines| && PauseLineAt(lines, i))
      && CursorIs(lines, fallbackCursor, printed)
      && t.cursor == if t.messages != [] && t.messages[|t.messages| - 1].seqNo > printed
                     then t.messages[|t.messages| - 1].seqNo else printed
  {
    hide ParseLines, MessagesOf, Lines, Flush, CursorIs, PauseLineAt;
    var lines, st := Lines(raw), Parsing([], fallbackCursor, false, None);
    FinishedMessages(st, lines);
    PausesSeen(st, lines);
    CursorSeen(st, lines);
    printed := Flush(ParseLines(st, lines)).cursor;
    assert [] + OpenMessage(st, lines) + MessagesOf(lines) == MessagesOf(lines);
  }

  // ---- Header lines ----

  ghost predicate AllBlank(s: string) { s != "" && forall c <- s :: IsBlank(c) }

  /** A colon, or blanks, a type in parentheses and a colon. */
  ghost predicate EndingSpelled(text: string, messageType: Option<string>) {
    match messageType
    case None => text == ":"
    case Some(t) => ')' !in t && exists blanks :: AllBlank(blanks) && text == blanks + "(" + t + "):"
  }

  function WithoutBlank(rest: string): string { if rest != "" && rest[0] == ' ' then rest[1..] else rest }

  lemma EndingIsSpelled(rest: string) returns (text: string, behind: string)
    requires EndingOf(rest).Some?
    ensures rest == text + behind && EndingSpelled(text, EndingOf(rest).value.messageType)
    ensures EndingOf(rest).value.body == WithoutBlank(behind)
  {
    if rest[0] == ':' {
      text, behind := ":", rest[1..];
    } else {
      var open := BlankRun(rest);
      var inside := rest[open + 1..];
      var close := IndexOf(inside, ')');
      text, behind := rest[..open] + "(" + inside[..close] + "):", inside[close + 2..];
      hide IsBlank, IndexOf, BlankRun;
      assert AllBlank(rest[..open]);
      AroundType(rest, open, close);
    }
  }

  lemma AroundType(rest: string, open: nat, close: nat)
    requires open < |rest| && rest[open] == '(' && open + close + 2 < |rest| && rest[open + 1 + close] == ')' && rest[open + close + 2] == ':'
    ensures rest == rest[..open] + "(" + rest[open + 1..][..close] + "):" + rest[open + 1..][close + 2..]
  {
    var inside := rest[open + 1..];
    assert rest == rest[..open] + "(" + inside;
    assert inside == inside[..close] + "):" + inside[close + 2..];
  }

  lemma BlanksEnd(blanks: string, rest: string)
    requires AllBlank(blanks)
    ensures |blanks| <= BlankRun(blanks + rest)
    ensures rest != "" && !IsBlank(rest[0]) ==> BlankRun(blanks + rest) == |blanks|
  {
    hide IsBlank, BlankRun;
    var s := blanks + rest;
    forall i | 0 <= i < |blanks| ensures IsBlank(s[i]) {
      assert blanks[i] in blanks;
    }
    BlankRunReaches(s, |blanks|);
    if rest != "" && !IsBlank(rest[0]) {
      BlankRunStops(s, |blanks|);
    }
  }

  lemma SpelledEnds(text: string, messageType: Option<string>, behind: string)
    requires EndingSpelled(text, messageType)
    ensures EndingOf(text + behind).Some?
  {
    if messageType.Some? {
      var blanks :| AllBlank(blanks) && text == blanks + "(" + messageType.value + "):";
      TypeEnds(blanks, messageType.value, behind);
    }
  }

  lemma TypeEnds(blanks: string, t: string, behind: string)
    requires AllBlank(blanks) && ')' !in t
    ensures EndingOf(blanks + "(" + t + "):" + behind).Some?
  {
    var inside := t + [')'] + (":" + behind);
    var rest := blanks + ("(" + inside);
    assert blanks + "(" + t + "):" + behind == rest by {
      assert "):" == [')'] + ":";
    }
    BlanksEnd(blanks, "(" + inside);
    assert rest[0] == blanks[0] && blanks[0] in blanks;
    IndexOfFirst(t, ')', ":" + behind);
    hide IndexOf, BlankRun;
    assert rest[|blanks|] == '(' && rest[|blanks| + 1..] == inside;
    assert inside[|t| + 1] == ':';
  }

  /** `#`, a number, blanks, a name, its ending, and whatever follows. */
  ghost predicate HeaderSpelled(line: string, digits: string, blanks: string, name: string, ending: string, messageType: Option<string>, behind: string) {
    && digits != "" && (forall c <- digits :: IsDigit(c)) && AllBlank(blanks) && name != ""
    && EndingSpelled(ending, messageType)
    && line == "#" + digits + blanks + name + ending + behind
  }

  lemma NameIsSpelled(rest: string) returns (text: string, behind: string)
    requires NameAndEnding(rest).Some?
    ensures
      var (name, e) := NameAndEnding(rest).value;
      name != "" && rest == name + text + behind && EndingSpelled(text, e.messageType) && e.body == WithoutBlank(behind)
  {
    hide EndingOf, EndingSpelled;
    var n := NameLength(rest, 1).value;
    text, behind := EndingIsSpelled(rest[n..]);
    assert rest == rest[..n] + rest[n..];
  }

  lemma {:induction false} AnyBlanks(rest: string, n: nat, k: nat)
    requires 1 <= k <= n <= |rest| && NameAndEnding(rest[k..]).Some?
    ensures AfterBlanks(rest, n).Some?
  {
    hide NameAndEnding;
    if k < n {
      AnyBlanks(rest, n - 1, k);
    }
  }

  /** What a header line is read as is spelled on it. */
  lemma HeaderIsSpelled(line: string)
    returns (digits: string, blanks: string, ending: string, messageType: Option<string>, behind: string)
    requires ParseHeader(line).Some?
    ensures
      var p := ParseHeader(line).value;
      && HeaderSpelled(line, digits, blanks, p.from, ending, messageType, behind)
      && p.seqNo == Value(digits) && p.lines == [WithoutBlank(behind)]
      && p.messageType == if messageType == Some("") then None else messageType
  {
    hide NameAndEnding, EndingOf, EndingSpelled, IsBlank, BlankRun, DigitRun;
    var n := DigitRun(line[1..]);
    var rest := line[1 + n..];
    digits := line[1..][..n];
    var k := AfterBlanksPicks(rest, BlankRun(rest));
    ending, behind := NameIsSpelled(rest[k..]);
    messageType := NameAndEnding(rest[k..]).value.1.messageType;
    blanks := rest[..k];
    FewerBlanks(rest, k);
    Respelled(line, n, k, NameAndEnding(rest[k..]).value.0 + ending + behind);
  }

  lemma FewerBlanks(rest: string, k: nat)
    requires 1 <= k <= BlankRun(rest)
    ensures AllBlank(rest[..k])
  {
    hide IsBlank;
    forall c | c in rest[..k] ensures IsBlank(c) {
      assert c in rest[..BlankRun(rest)];
    }
  }

  lemma Respelled(line: string, n: nat, k: nat, named: string)
    requires line != "" && line[0] == '#' && 1 + n + k <= |line| && line[1 + n..][k..] == named
    ensures line == "#" + line[1..][..n] + line[1 + n..][..k] + named
  {
    assert line == "#" + line[1..][..n] + line[1 + n..];
    assert line[1 + n..] == line[1 + n..][..k] + named;
  }

  lemma SpelledName(name: string, ending: string, messageType: Option<string>, behind: string)
    requires name != "" && EndingSpelled(ending, messageType)
    ensures NameAndEnding(name + ending + behind).Some?
  {
    hide EndingOf, EndingSpelled;
    var rest := name + ending + behind;
    SpelledEnds(ending, messageType, behind);
    assert rest[|name|..] == ending + behind;
    NameIsShortest(rest, 1, |name|);
  }

  /** A line is a header exactly if it is spelled like one. */
  lemma HeaderMeans(line: string)
    ensures ParseHeader(line).Some? <==>
            exists digits, blanks, name, ending, messageType, behind ::
              HeaderSpelled(line, digits, blanks, name, ending, messageType, behind)
  {
    hide NameAndEnding, EndingSpelled;
    if ParseHeader(line).Some? {
      var digits, blanks, ending, messageType, behind := HeaderIsSpelled(line);
    }
    if digits, blanks, name, ending, messageType, behind :| HeaderSpelled(line, digits, blanks, name, ending, messageType, behind) {
      SpelledHeader(line, digits, blanks, name, ending, messageType, behind);
    }
  }

  lemma SpelledHeader(line: string, digits: string, blanks: string, name: string, ending: string, messageType: Option<string>, behind: string)
    requires HeaderSpelled(line, digits, blanks, name, ending, messageType, behind)
    ensures ParseHeader(line).Some?
  {
    hide NameAndEnding, EndingSpelled;
    var rest := blanks + (name + ending + behind);
    assert line == "#" + (digits + rest) && line[1..] == digits + rest;
    assert blanks[0] in blanks && rest[0] == blanks[0];
    DigitRunOf(digits, rest);
    assert line[1 + |digits|..] == rest;
    BlanksEnd(blanks, name + ending + behind);
    assert rest[|blanks|..] == name + ending + behind;
    SpelledName(name, ending, messageType, behind);
    AnyBlanks(rest, BlankRun(rest), |blanks|);
  }

  // ---- Cursor lines ----

  predicate AllDigits(s: string) { s != "" && forall c <- s :: IsDigit(c) }

  /** Digits, perhaps behind a sign, that denote the number. */
  predicate Numeral(s: string, n: int) {
    || (AllDigits(s) && n == Value(s))
    || (s != "" && s[0] == '-' && AllDigits(s[1..]) && n + Value(s[1..]) == 0)
    || (s != "" && s[0] == '+' && AllDigits(s[1..]) && n == Value(s[1..]))
  }

  lemma AllDigitsRun(s: string)
    ensures DigitRun(s) == |s| <==> s == "" || AllDigits(s)
  {
    if AllDigits(s) {
      assert forall i :: 0 <= i < |s| ==> s[i] in s;
    }
    if DigitRun(s) == |s| {
      assert s[..|s|] == s;
    }
  }

  lemma NumeralMeans(s: string, n: int)
    ensures ToInt(s) == Some(n) <==> Numeral(s, n)
  {
    hide DigitRun, Value;
    AllDigitsRun(s);
    if s != "" {
      AllDigitsRun(s[1..]);
      if s[0] == '-' || s[0] == '+' {
        assert s[0] in s && !IsDigit(s[0]);
      }
    }
  }

  /** `cursor:` and a numeral, with blanks around either. */
  ghost predicate CursorSpelled(line: string, n: int) {
    exists a, b, z, numeral ::
      && AllWhite(a, IsBlank) && AllWhite(b, IsBlank) && AllWhite(z, IsBlank) && Numeral(numeral, n)
      && line == a + ("cursor:" + b + numeral) + z
  }

  lemma DigitEnds(s: string)
    requires AllDigits(s)
    ensures IsDigit(s[0]) && IsDigit(s[|s| - 1])
  {
    assert s[0] in s && s[|s| - 1] in s;
  }

  lemma NumeralIsTight(s: string, n: int)
    requires Numeral(s, n)
    ensures s != "" && !IsBlank(s[0]) && !IsBlank(s[|s| - 1])
  {
    hide Value;
    if AllDigits(s) {
      DigitEnds(s);
    } else {
      DigitEnds(s[1..]);
      assert s[|s| - 1] == s[1..][|s[1..]| - 1];
    }
  }

  /** A line holds a cursor exactly if it is spelled so. */
  lemma CursorMeans(line: string, n: int)
    ensures ParseCursor(line) == Some(n) <==> CursorSpelled(line, n)
  {
    if ParseCursor(line) == Some(n) {
      CursorIsSpelled(line, n);
    }
    if a, b, z, numeral :| AllWhite(a, IsBlank) && AllWhite(b, IsBlank) && AllWhite(z, IsBlank) && Numeral(numeral, n)
                           && line == a + ("cursor:" + b + numeral) + z {
      SpelledCursor(line, n, a, b, z, numeral);
    }
  }

  lemma CursorIsSpelled(line: string, n: int)
    requires ParseCursor(line) == Some(n)
    ensures CursorSpelled(line, n)
  {
    hide IsBlank, ToInt, Numeral, Around, Trim;
    var trimmed := Trim(line, IsBlank);
    TrimMeans(line, trimmed, IsBlank);
    var rest := trimmed[|CURSOR|..];
    var numeral := Trim(rest, IsBlank);
    NumeralMeans(numeral, n);
    NumeralIsTight(numeral, n);
    TrimMeans(rest, numeral, IsBlank);
    assert trimmed == "cursor:" + rest;
    CursorRegrouped(line, trimmed, rest, numeral, n);
  }

  lemma CursorRegrouped(line: string, trimmed: string, rest: string, numeral: string, n: int)
    requires Around(line, trimmed, IsBlank) && Around(rest, numeral, IsBlank) && trimmed == "cursor:" + rest && Numeral(numeral, n)
    ensures CursorSpelled(line, n)
  {
    hide IsBlank, Numeral, AllWhite;
    var a, z :| AllWhite(a, IsBlank) && AllWhite(z, IsBlank) && line == a + trimmed + z;
    var b, y :| AllWhite(b, IsBlank) && AllWhite(y, IsBlank) && rest == b + numeral + y;
    WhiteTogether(y, z);
    assert line == a + ("cursor:" + b + numeral) + (y + z);
  }

  lemma WhiteTogether(a: string, b: string)
    requires AllWhite(a, IsBlank) && AllWhite(b, IsBlank)
    ensures AllWhite(a + b, IsBlank)
  {
    hide IsBlank;
  }

  lemma SpelledCursor(line: string, n: int, a: string, b: string, z: string, numeral: string)
    requires AllWhite(a, IsBlank) && AllWhite(b, IsBlank) && AllWhite(z, IsBlank) && Numeral(numeral, n)
    requires line == a + ("cursor:" + b + numeral) + z
    ensures ParseCursor(line) == Some(n)
  {
    NumeralIsTight(numeral, n);
    var core, rest := "cursor:" + b + numeral, b + numeral;
    assert !IsBlank(core[0]);
    hide IsBlank, ToInt, Numeral;
    assert core[|core| - 1] == numeral[|numeral| - 1];
    assert Around(line, core, IsBlank);
    TrimMeans(line, core, IsBlank);
    assert core == "cursor:" + rest && core[|CURSOR|..] == rest && core[..|CURSOR|] == CURSOR;
    assert rest == b + numeral + "" && AllWhite("", IsBlank);
    assert Around(rest, numeral, IsBlank);
    TrimMeans(rest, numeral, IsBlank);
    NumeralMeans(numeral, n);
  }

  // ---- The pause note ----

  /** Minutes are rounded to the nearest, halves up, and never none. */
  lemma MinutesAreNearest(seconds: nat)
    ensures seconds < 90 ==> Minutes(seconds) == 1
    ensures seconds >= 90 ==> 60 * Minutes(seconds) - 30 <= seconds < 60 * Minutes(seconds) + 30
  {
  }
}
