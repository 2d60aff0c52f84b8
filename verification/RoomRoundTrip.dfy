/** Exactly which room replies the client's parser reads back as the messages they were printed from. */
module RoomRoundTrip {
  import opened Prelude
  import opened Decimals
  import opened Sequences
  import opened RoomText
  import opened RoomHeader

  /** A line the parser does not take for text. */
  predicate Special(line: string) {
    ParseHeader(line).Some? || IsPause(line) || ParseCursor(line).Some?
  }

  /** Name and type fit on the header line, the header is safe, and no later line of the text is special. */
  ghost predicate Clean(m: RoomMessage) {
    && OneLine(m.from) && OneLine(m.messageType)
    && SafeHeader(m, Lines(m.text)[0])
    && forall l <- Lines(m.text)[1..] :: !Special(l)
  }

  function Opened(m: RoomMessage): Pending { Pending(m.seqNo, m.from, TypeOf(m.messageType), Lines(m.text)) }

  /** The message as the reader should get it: line breaks unified, surrounding white space trimmed. */
  function Expected(m: RoomMessage): Parsed { Finished(Opened(m)) }

  function ExpectedAll(ms: seq<RoomMessage>): (r: seq<Parsed>)
    ensures |r| == |ms| && forall i :: 0 <= i < |r| ==> r[i] == Expected(ms[i])
  {
    seq(|ms|, i requires 0 <= i < |ms| => Expected(ms[i]))
  }

  // ---- The lines of a reply ----

  function LinesOfAll(ms: seq<RoomMessage>): seq<string> {
    if ms == [] then [] else LinesOfAll(ms[..|ms| - 1]) + Lines(RenderMessage(ms[|ms| - 1]))
  }

  lemma {:induction false} BodyLines(ms: seq<RoomMessage>)
    requires ms != []
    ensures Lines(Join(RenderAll(ms), '\n')) == LinesOfAll(ms)
  {
    var n := |ms| - 1;
    var printed := RenderAll(ms);
    if n == 0 {
      assert printed == [RenderMessage(ms[0])];
      assert ms[..0] == [];
    } else {
      BodyLines(ms[..n]);
      assert printed == RenderAll(ms[..n]) + [RenderMessage(ms[n])];
      JoinLast(RenderAll(ms[..n]), RenderMessage(ms[n]), '\n');
      LinesBreak(Join(RenderAll(ms[..n]), '\n'), '\n', RenderMessage(ms[n]));
    }
  }

  lemma {:induction false} LinesOfAllAppends(a: seq<RoomMessage>, b: seq<RoomMessage>)
    ensures LinesOfAll(a + b) == LinesOfAll(a) + LinesOfAll(b)
  {
    hide Lines, RenderMessage;
    if b == [] {
      assert a + b == a;
    } else {
      LinesOfAllAppends(a, b[..|b| - 1]);
      assert (a + b)[..|a + b| - 1] == a + b[..|b| - 1];
    }
  }

  lemma HeadIsOneLine(m: RoomMessage)
    requires OneLine(m.from) && OneLine(m.messageType)
    ensures OneLine(HeadText(m))
  {
    DigitsAreOneLine(m.seqNo);
    assert !IsNewline('#') && !IsNewline(' ') && !IsNewline('(') && !IsNewline(')') && !IsNewline(':');
    hide IsNewline, Digits;
  }

  lemma MessageLines(m: RoomMessage)
    requires OneLine(m.from) && OneLine(m.messageType)
    ensures Lines(RenderMessage(m)) == [HeaderLine(m, Lines(m.text)[0])] + Lines(m.text)[1..]
  {
    hide OneLine, HeadText, Lines, HeaderLine;
    HeadIsOneLine(m);
    HeadIsHeader(m, Lines(m.text)[0]);
    LinesAfterHead(HeadText(m), m.text);
  }

  lemma HeadIsHeader(m: RoomMessage, first: string)
    ensures HeadText(m) + first == HeaderLine(m, first)
  {
    hide Digits;
  }

  lemma DigitsAreOneLine(n: nat)
    ensures OneLine(Digits(n))
  {
  }

  // ---- Reading line by line ----

  lemma {:induction false} ParseLinesAppends(st: Parsing, a: seq<string>, b: seq<string>)
    ensures ParseLines(st, a + b) == ParseLines(ParseLines(st, a), b)
    decreases |a|
  {
    hide ParseLine;
    if a == [] {
      assert a + b == b;
    } else {
      assert (a + b)[1..] == a[1..] + b;
      ParseLinesAppends(ParseLine(st, a[0]), a[1..], b);
    }
  }

  /** Ordinary lines pile up behind the pending header. */
  lemma {:induction false} TextLinesPile(st: Parsing, p: Pending, lines: seq<string>)
    requires st.pending == Some(p) && forall l <- lines :: !Special(l)
    ensures ParseLines(st, lines) == st.(pending := Some(p.(lines := p.lines + lines)))
    decreases |lines|
  {
    hide Special, ParseLine;
    if lines == [] {
      assert p.lines + lines == p.lines;
    } else {
      var q := p.(lines := p.lines + [lines[0]]);
      TextLine(st, p, lines[0]);
      TextLinesPile(st.(pending := Some(q)), q, lines[1..]);
      assert q.lines + lines[1..] == p.lines + lines;
    }
  }

  lemma TextLine(st: Parsing, p: Pending, line: string)
    requires st.pending == Some(p) && !Special(line)
    ensures ParseLine(st, line) == st.(pending := Some(p.(lines := p.lines + [line])))
  {
    hide ParseHeader, ParseCursor, IsPause;
  }

  lemma CleanMessageRead(st: Parsing, m: RoomMessage)
    requires Clean(m)
    ensures ParseLines(st, Lines(RenderMessage(m))) == Flush(st).(pending := Some(Opened(m)))
  {
    hide ParseHeader, HeaderLine, SafeHeader, RenderMessage, Special;
    var lines := Lines(m.text);
    MessageLines(m);
    SafeHeaderOpens(m, lines[0]);
    var first := Pending(m.seqNo, m.from, TypeOf(m.messageType), [lines[0]]);
    var head := HeaderLine(m, lines[0]);
    assert ParseLine(st, head) == Flush(st).(pending := Some(first));
    ParseLinesOne(st, head, lines[1..]);
    TextLinesPile(Flush(st).(pending := Some(first)), first, lines[1..]);
    assert [lines[0]] + lines[1..] == lines;
  }

  lemma ParseLinesOne(st: Parsing, line: string, rest: seq<string>)
    ensures ParseLines(st, [line] + rest) == ParseLines(ParseLine(st, line), rest)
  {
    assert ([line] + rest)[1..] == rest;
  }

  const NOTHING := Parsing([], 0, false, None)

  /** The state after clean messages: all but the last are done, the last is pending. */
  function ReadSoFar(start: Parsing, ms: seq<RoomMessage>): Parsing {
    if ms == [] then start
    else start.(messages := ExpectedAll(ms[..|ms| - 1]), pending := Some(Opened(ms[|ms| - 1])))
  }

  lemma {:induction false} CleanMessagesRead(start: Parsing, ms: seq<RoomMessage>)
    requires start.messages == [] && start.pending == None
    requires forall m <- ms :: Clean(m)
    ensures ParseLines(start, LinesOfAll(ms)) == ReadSoFar(start, ms)
  {
    if ms != [] {
      var n := |ms| - 1;
      hide Clean, Expected, Opened;
      assert forall m <- ms[..n] :: m in ms;
      CleanMessagesRead(start, ms[..n]);
      ParseLinesAppends(start, LinesOfAll(ms[..n]), Lines(RenderMessage(ms[n])));
      CleanMessageRead(ReadSoFar(start, ms[..n]), ms[n]);
      FlushedSoFar(start, ms[..n]);
    }
  }

  lemma FlushedSoFar(start: Parsing, ms: seq<RoomMessage>)
    requires start.messages == [] && start.pending == None
    ensures Flush(ReadSoFar(start, ms)) == start.(messages := ExpectedAll(ms))
  {
    if ms != [] {
      assert ExpectedAll(ms) == ExpectedAll(ms[..|ms| - 1]) + [Expected(ms[|ms| - 1])];
    } else {
      assert ExpectedAll(ms) == [];
    }
  }

  // ---- Trimming keeps every visible character ----

  function Visible(s: string): nat {
    if s == [] then 0 else (if IsWhite(s[0]) then 0 else 1) + Visible(s[1..])
  }

  lemma {:induction false} VisibleAppends(a: string, b: string)
    ensures Visible(a + b) == Visible(a) + Visible(b)
  {
    if a == [] {
      assert a + b == b;
    } else {
      assert (a + b)[1..] == a[1..] + b;
      VisibleAppends(a[1..], b);
    }
  }

  lemma {:induction false} TrimStartKeeps(s: string, white: char -> bool)
    requires forall c: char :: white(c) ==> IsWhite(c)
    ensures Visible(TrimStart(s, white)) == Visible(s)
  {
    if s != [] && white(s[0]) {
      TrimStartKeeps(s[1..], white);
    }
  }

  lemma {:induction false} TrimEndKeeps(s: string, white: char -> bool)
    requires forall c: char :: white(c) ==> IsWhite(c)
    ensures Visible(TrimEnd(s, white)) == Visible(s)
  {
    if s != [] && white(s[|s| - 1]) {
      TrimEndKeeps(s[..|s| - 1], white);
      assert s == s[..|s| - 1] + [s[|s| - 1]];
      VisibleAppends(s[..|s| - 1], [s[|s| - 1]]);
      assert Visible([s[|s| - 1]]) == 0;
    }
  }

  lemma TrimKeepsVisible(s: string, white: char -> bool)
    requires forall c: char :: white(c) ==> IsWhite(c)
    ensures Visible(Trim(s, white)) == Visible(s)
  {
    TrimStartKeeps(s, white);
    TrimEndKeeps(TrimStart(s, white), white);
  }

  function VisibleIn(lines: seq<string>): nat {
    if lines == [] then 0 else Visible(lines[0]) + VisibleIn(lines[1..])
  }

  lemma {:induction false} VisibleInAppends(a: seq<string>, b: seq<string>)
    ensures VisibleIn(a + b) == VisibleIn(a) + VisibleIn(b)
  {
    if a == [] {
      assert a + b == b;
    } else {
      assert (a + b)[1..] == a[1..] + b;
      VisibleInAppends(a[1..], b);
    }
  }

  lemma {:induction false} VisibleInJoin(lines: seq<string>)
    ensures Visible(Join(lines, '\n')) == VisibleIn(lines)
  {
    if |lines| == 1 {
      assert lines[1..] == [];
    } else if |lines| > 1 {
      VisibleInJoin(lines[1..]);
      assert Join(lines, '\n') == lines[0] + (['\n'] + Join(lines[1..], '\n'));
      VisibleAppends(lines[0], ['\n'] + Join(lines[1..], '\n'));
      assert (['\n'] + Join(lines[1..], '\n'))[1..] == Join(lines[1..], '\n');
    }
  }

  lemma FinishedVisible(p: Pending)
    ensures Visible(Finished(p).text) == VisibleIn(p.lines)
  {
    VisibleInJoin(p.lines);
    TrimKeepsVisible(Join(p.lines, '\n'), IsWhite);
  }

  /** Every special line shows something. */
  lemma SpecialIsVisible(line: string)
    requires Special(line)
    ensures Visible(line) >= 1
  {
    hide AfterBlanks, DigitRun, ToInt;
    if ParseCursor(line).Some? {
      var trimmed := Trim(line, IsBlank);
      assert trimmed[..|CURSOR|][0] == 'c';
      hide Trim;
      assert Visible(trimmed) >= 1;
      TrimKeepsVisible(line, IsBlank);
    }
  }

  // ---- The lines after the messages ----

  function Trailer(ms: seq<RoomMessage>, cursor: int): string {
    (if Paused(ms) then "\n" + PauseLine(ms[|ms| - 1]) + "\n" else "") + "\n" + (CURSOR + " " + IntText(cursor))
  }

  function Body(tool: Tool, ms: seq<RoomMessage>): string {
    if ms != [] then Join(RenderAll(ms), '\n') else NothingNew(tool)
  }

  lemma RegroupPause(body: string, pause: string, last: string)
    ensures body + ("\n\n" + pause) + "\n\n" + last == body + ['\n'] + (("\n" + pause + "\n") + "\n" + last)
  {
  }

  lemma Regroup(body: string, last: string)
    ensures body + "" + "\n\n" + last == body + ['\n'] + ("" + "\n" + last)
  {
  }

  lemma ReplyIsBodyAndTrailer(tool: Tool, ms: seq<RoomMessage>, cursor: int)
    ensures Reply(tool, ms, cursor) == Body(tool, ms) + ['\n'] + Trailer(ms, cursor)
  {
    hide *;
    var last := CURSOR + " " + IntText(cursor);
    ReplyParts(tool, ms, cursor);
    TrailerParts(ms, cursor);
    if Paused(ms) {
      RegroupPause(Body(tool, ms), PauseLine(ms[|ms| - 1]), last);
    } else {
      Regroup(Body(tool, ms), last);
    }
  }

  lemma ReplyParts(tool: Tool, ms: seq<RoomMessage>, cursor: int)
    ensures Reply(tool, ms, cursor) == Body(tool, ms) + PauseNote(ms) + "\n\n" + (CURSOR + " " + IntText(cursor))
  {
    hide Join, RenderAll, NothingNew, IntText, PauseNote;
  }

  lemma TrailerParts(ms: seq<RoomMessage>, cursor: int)
    ensures Paused(ms) ==> ms != []
    ensures Paused(ms) ==> PauseNote(ms) == "\n\n" + PauseLine(ms[|ms| - 1])
    ensures Paused(ms) ==> Trailer(ms, cursor) == ("\n" + PauseLine(ms[|ms| - 1]) + "\n") + "\n" + (CURSOR + " " + IntText(cursor))
    ensures !Paused(ms) ==> PauseNote(ms) == "" && Trailer(ms, cursor) == "" + "\n" + (CURSOR + " " + IntText(cursor))
  {
    hide PauseLine, IntText;
  }

  lemma ReplyLines(tool: Tool, ms: seq<RoomMessage>, cursor: int)
    ensures Lines(Reply(tool, ms, cursor)) == Lines(Body(tool, ms)) + Lines(Trailer(ms, cursor))
  {
    hide *;
    ReplyIsBodyAndTrailer(tool, ms, cursor);
    LinesBreak(Body(tool, ms), '\n', Trailer(ms, cursor)) by { NewlineBreaks(); }
  }

  lemma NewlineBreaks()
    ensures IsNewline('\n')
  {
  }

  function TrailerLines(ms: seq<RoomMessage>, cursor: int): seq<string> {
    (if Paused(ms) then ["", PauseLine(ms[|ms| - 1])] else []) + ["", CURSOR + " " + IntText(cursor)]
  }

  lemma NumeralIsOneLine(n: int)
    ensures OneLine(CURSOR + " " + IntText(n))
  {
    assert OneLine(CURSOR + " ");
  }

  lemma OneLineJoins(a: string, b: string)
    requires OneLine(a) && OneLine(b)
    ensures OneLine(a + b)
  {
    hide IsNewline;
  }

  lemma Resume1IsOneLine()
    ensures OneLine(RESUME1)
  {
  }

  lemma Resume2IsOneLine()
    ensures OneLine(RESUME2)
  {
  }

  lemma Resume3IsOneLine()
    ensures OneLine(RESUME3)
  {
  }

  lemma TimedOut1IsOneLine()
    ensures OneLine(TIMED_OUT1)
  {
  }

  lemma TimedOut2IsOneLine()
    ensures OneLine(TIMED_OUT2)
  {
  }

  lemma TimedOut3IsOneLine()
    ensures OneLine(TIMED_OUT3)
  {
  }

  lemma BackSoonIsOneLine(n: nat)
    ensures OneLine(" (expects to be back in ~" + Digits(n) + " min)") && OneLine(" stepped away to consult their human")
  {
    hide Digits;
    DigitsAreOneLine(n);
    ExpectsIsOneLine();
    ClosingIsOneLine();
    SteppedAwayIsOneLine();
    OneLineJoins(" (expects to be back in ~", Digits(n));
    OneLineJoins(" (expects to be back in ~" + Digits(n), " min)");
  }

  lemma ExpectsIsOneLine()
    ensures OneLine(" (expects to be back in ~")
  {
  }

  lemma ClosingIsOneLine()
    ensures OneLine(" min)")
  {
  }

  lemma SteppedAwayIsOneLine()
    ensures OneLine(" stepped away to consult their human")
  {
  }

  lemma PauseIsOneLine(m: RoomMessage)
    requires OneLine(m.from)
    ensures OneLine(PauseLine(m)) && IsPause(PauseLine(m)) && ParseHeader(PauseLine(m)).None?
  {
    hide *;
    Resume1IsOneLine();
    Resume2IsOneLine();
    Resume3IsOneLine();
    BackSoonIsOneLine(if m.retryAfter.Some? then Minutes(m.retryAfter.value) else 0);
    PlainCharacters();
    PauseLineIs(m);
  }

  lemma PauseLineIs(m: RoomMessage)
    requires OneLine(m.from) && OneLine(RESUME1) && OneLine(RESUME2) && OneLine(RESUME3)
    requires OneLine(" stepped away to consult their human") && !IsNewline(PAUSE) && !IsNewline(' ')
    requires OneLine(" (expects to be back in ~" + Digits(if m.retryAfter.Some? then Minutes(m.retryAfter.value) else 0) + " min)")
    ensures OneLine(PauseLine(m)) && IsPause(PauseLine(m)) && ParseHeader(PauseLine(m)).None?
  {
    hide Digits, Minutes, AfterBlanks, IsNewline;
    var away := [PAUSE] + " " + m.from + " stepped away to consult their human";
    var back := if m.retryAfter.Some? && m.retryAfter.value != 0
      then " (expects to be back in ~" + Digits(Minutes(m.retryAfter.value)) + " min)" else "";
    assert PauseLine(m) == away + back + RESUME1 + RESUME2 + RESUME3;
    assert PauseLine(m)[0] == PAUSE;
    OneLineJoins([PAUSE] + " ", m.from);
    OneLineJoins([PAUSE] + " " + m.from, " stepped away to consult their human");
    OneLineJoins(away, back);
    OneLineJoins(away + back, RESUME1);
    OneLineJoins(away + back + RESUME1, RESUME2);
    OneLineJoins(away + back + RESUME1 + RESUME2, RESUME3);
  }

  lemma PlainCharacters()
    ensures !IsNewline(PAUSE) && !IsNewline(' ')
  {
  }

  lemma LinesOfPair(last: string)
    requires OneLine(last)
    ensures Lines("\n" + last) == ["", last]
  {
    LinesOfOne(last);
    LinesBreak("", '\n', last);
    assert "" + ['\n'] + last == "\n" + last;
    assert Lines("") == [""];
  }

  lemma LinesOfFour(pause: string, last: string)
    requires OneLine(pause) && OneLine(last)
    ensures Lines(("\n" + pause + "\n") + "\n" + last) == ["", pause, "", last]
  {
    LinesOfPair(pause);
    LinesOfPair(last);
    LinesBreak("\n" + pause, '\n', "\n" + last);
    assert ("\n" + pause) + ['\n'] + ("\n" + last) == ("\n" + pause + "\n") + "\n" + last;
  }

  lemma TrailerIs(ms: seq<RoomMessage>, cursor: int)
    requires Paused(ms) ==> OneLine(ms[|ms| - 1].from)
    ensures Lines(Trailer(ms, cursor)) == TrailerLines(ms, cursor)
  {
    hide Lines, OneLine, IntText, PauseLine;
    var last := CURSOR + " " + IntText(cursor);
    NumeralIsOneLine(cursor);
    if Paused(ms) {
      PauseIsOneLine(ms[|ms| - 1]);
      LinesOfFour(PauseLine(ms[|ms| - 1]), last);
    } else {
      LinesOfPair(last);
      assert Trailer(ms, cursor) == "\n" + last;
    }
  }

  lemma {:induction false} TrimStartAppends(s: string, c: char, white: char -> bool)
    requires white(c)
    ensures TrimStart(s + [c], white) == if TrimStart(s, white) == [] then [] else TrimStart(s, white) + [c]
  {
    if s == [] {
      assert s + [c] == [c];
      assert [c][1..] == [];
    } else if white(s[0]) {
      assert (s + [c])[1..] == s[1..] + [c];
      TrimStartAppends(s[1..], c, white);
    }
  }

  lemma TrimForgetsEnd(s: string, c: char, white: char -> bool)
    requires white(c)
    ensures Trim(s + [c], white) == Trim(s, white)
  {
    TrimStartAppends(s, c, white);
    var t := TrimStart(s, white);
    assert (t + [c])[..|t|] == t;
  }

  /** An empty line at the end of a message leaves no trace. */
  lemma EmptyLineLost(p: Pending)
    requires p.lines != []
    ensures Finished(p.(lines := p.lines + [""])) == Finished(p)
  {
    JoinLast(p.lines, "", '\n');
    assert Join(p.lines + [""], '\n') == Join(p.lines, '\n') + ['\n'];
    TrimForgetsEnd(Join(p.lines, '\n'), '\n', IsWhite);
  }

  lemma PlainTrim(s: string)
    requires s != [] && !IsBlank(s[0]) && !IsBlank(s[|s| - 1])
    ensures Trim(s, IsBlank) == s
  {
  }

  lemma DigitsAreVisible(n: int)
    ensures IntText(n) != [] && !IsBlank(IntText(n)[0]) && !IsBlank(IntText(n)[|IntText(n)| - 1])
  {
    assert n < 0 ==> IntText(n)[|IntText(n)| - 1] == Digits(-n)[|Digits(-n)| - 1];
    assert n < 0 ==> Digits(-n)[|Digits(-n)| - 1] in Digits(-n);
    assert n >= 0 ==> Digits(n)[0] in Digits(n) && Digits(n)[|Digits(n)| - 1] in Digits(n);
  }

  lemma {:induction false} DigitRunAll(s: string)
    requires forall c <- s :: IsDigit(c)
    ensures DigitRun(s) == |s|
  {
    if s != [] {
      assert s[0] in s;
      DigitRunAll(s[1..]);
    }
  }

  lemma IntReadsBack(n: int)
    ensures ToInt(IntText(n)) == Some(n)
  {
    hide Digits, Value;
    IntTextSign(n);
    if n < 0 {
      assert IntText(n)[1..] == Digits(-n);
      DigitRunAll(Digits(-n));
      ValueOfDigits(-n);
    } else {
      DigitRunAll(Digits(n));
      ValueOfDigits(n);
      assert Digits(n)[0] in Digits(n);
    }
  }

  /** The cursor line reads back as its number. */
  lemma CursorReadsBack(n: int)
    ensures ParseCursor(CURSOR + " " + IntText(n)) == Some(n)
    ensures ParseHeader(CURSOR + " " + IntText(n)).None? && !IsPause(CURSOR + " " + IntText(n))
  {
    hide IntText, ToInt, AfterBlanks;
    var line, digits := CURSOR + " " + IntText(n), IntText(n);
    DigitsAreVisible(n);
    IntReadsBack(n);
    assert line[|line| - 1] == digits[|digits| - 1] && line[0] == 'c';
    PlainTrim(line);
    assert line[..|CURSOR|] == CURSOR && line[|CURSOR|..] == " " + digits;
    assert (" " + digits)[1..] == digits;
    TrimSkipsBlank(digits);
  }

  lemma TrimSkipsBlank(s: string)
    requires s != [] && !IsBlank(s[0]) && !IsBlank(s[|s| - 1])
    ensures Trim(" " + s, IsBlank) == s
  {
    assert (" " + s)[1..] == s;
    assert TrimStart(" " + s, IsBlank) == TrimStart(s, IsBlank) == s;
  }

  // ---- Clean replies read back ----

  /** What the reader should make of a reply. */
  function Wanted(ms: seq<RoomMessage>, cursor: int): Transcript {
    Transcript(ExpectedAll(ms),
               if ms != [] && cursor < ms[|ms| - 1].seqNo then ms[|ms| - 1].seqNo else cursor,
               ms != [] && ms[|ms| - 1].messageType == "awaiting_human")
  }

  lemma ParseTwo(st: Parsing, a: string, b: string)
    ensures ParseLines(st, [a, b]) == ParseLine(ParseLine(st, a), b)
  {
    hide ParseLine;
    assert [a, b] == [a] + [b];
    ParseLinesOne(st, a, [b]);
    assert [b] == [b] + [];
    ParseLinesOne(ParseLine(st, a), b, []);
  }

  lemma EmptyLineRead(st: Parsing)
    requires st.pending.Some? ==> st.pending.value.lines != []
    ensures Flush(ParseLine(st, "")) == Flush(st)
    ensures ParseLine(st, "").pending.Some? ==> ParseLine(st, "").pending.value.lines != []
  {
    assert ParseCursor("").None? && ParseHeader("").None?;
    if st.pending.Some? {
      EmptyLineLost(st.pending.value);
    }
  }

  lemma TrailerRead(st: Parsing, ms: seq<RoomMessage>, cursor: int)
    requires st.pending.Some? ==> st.pending.value.lines != []
    requires Paused(ms) ==> OneLine(ms[|ms| - 1].from)
    ensures ParseLines(st, TrailerLines(ms, cursor)) ==
            Flush(st).(awaitingHuman := st.awaitingHuman || Paused(ms), cursor := cursor)
  {
    hide ParseHeader, ParseCursor, IntText, PauseLine, OneLine;
    var last := CURSOR + " " + IntText(cursor);
    CursorReadsBack(cursor);
    EmptyLineRead(st);
    if Paused(ms) {
      var pause := PauseLine(ms[|ms| - 1]);
      PauseIsOneLine(ms[|ms| - 1]);
      ParseTwo(st, "", pause);
      var noted := ParseLine(ParseLine(st, ""), pause);
      assert noted == Flush(st).(awaitingHuman := true);
      EmptyLineRead(noted);
      ParseTwo(noted, "", last);
      ParseLinesAppends(st, ["", pause], ["", last]);
    } else {
      ParseTwo(st, "", last);
      assert TrailerLines(ms, cursor) == ["", last];
    }
  }

  lemma NothingNewIsOneLine(tool: Tool)
    ensures OneLine(NothingNew(tool))
  {
    if tool == WaitForMessage {
      TimedOut1IsOneLine();
      TimedOut2IsOneLine();
      TimedOut3IsOneLine();
      hide OneLine;
      OneLineJoins(TIMED_OUT1, TIMED_OUT2);
      OneLineJoins(TIMED_OUT1 + TIMED_OUT2, TIMED_OUT3);
    }
  }

  lemma NothingNewIsText(tool: Tool)
    ensures !Special(NothingNew(tool))
  {
    var line := NothingNew(tool);
    assert line[0] == '(' && line[|line| - 1] == ')';
    hide NothingNew, AfterBlanks, ToInt;
    PlainTrim(line);
    assert line[0] != CURSOR[0];
  }

  lemma NothingNewRead(tool: Tool, st: Parsing)
    requires st.pending == None
    ensures ParseLines(st, Lines(NothingNew(tool))) == st
  {
    hide NothingNew, ParseHeader, ParseCursor, IsPause, OneLine;
    var line := NothingNew(tool);
    NothingNewIsOneLine(tool);
    NothingNewIsText(tool);
    LinesOfOne(line);
    ParseLinesOne(st, line, []);
    assert [line] + [] == [line];
  }

  lemma CleanReplyReads(tool: Tool, ms: seq<RoomMessage>, cursor: int, fallbackCursor: int)
    requires forall m <- ms :: Clean(m)
    ensures ParsedReply(Reply(tool, ms, cursor), fallbackCursor) == Wanted(ms, cursor)
  {
    var start := Parsing([], fallbackCursor, false, None);
    ReplyLines(tool, ms, cursor);
    assert Paused(ms) ==> OneLine(ms[|ms| - 1].from) by {
      assert Paused(ms) ==> Clean(ms[|ms| - 1]);
    }
    TrailerIs(ms, cursor);
    hide Clean, OneLine, Reply, Expected, TrailerLines, Trailer;
    ParseLinesAppends(start, Lines(Body(tool, ms)), TrailerLines(ms, cursor));
    if ms == [] {
      NothingNewRead(tool, start);
    } else {
      BodyLines(ms);
      CleanMessagesRead(start, ms);
    }
    var st := ReadSoFar(start, ms);
    assert ParseLines(start, Lines(Body(tool, ms))) == st;
    TrailerRead(st, ms, cursor);
    FlushedSoFar(start, ms);
    LastExpected(ms);
    hide *;
    ConcludeRead(start, ms, cursor);
  }

  lemma LastExpected(ms: seq<RoomMessage>)
    ensures ms != [] ==> ExpectedAll(ms)[|ms| - 1].seqNo == ms[|ms| - 1].seqNo
  {
  }

  lemma ConcludeRead(start: Parsing, ms: seq<RoomMessage>, cursor: int)
    requires start.messages == [] && start.pending == None && !start.awaitingHuman
    ensures Conclude(start.(messages := ExpectedAll(ms)).(awaitingHuman := start.awaitingHuman || Paused(ms), cursor := cursor)) == Wanted(ms, cursor)
  {
    hide Expected;
    LastExpected(ms);
  }

  // ---- Replies that read back are clean ----

  function Outcome(st: Parsing, lines: seq<string>): seq<Parsed> { Conclude(ParseLines(st, lines)).messages }

  /** One line either finishes the pending message or joins it; without one nothing already done changes. */
  lemma LineKeeps(st: Parsing, line: string)
    ensures
      var next := ParseLine(st, line);
      match st.pending
      case None => next.messages == st.messages
      case Some(p) =>
        || next.messages == st.messages + [Finished(p)]
        || (next.messages == st.messages && next.pending == Some(p.(lines := p.lines + [line])))
  {
    hide ParseHeader, ParseCursor, IsPause, Finished;
  }

  lemma OutcomeStep(st: Parsing, line: string, rest: seq<string>)
    ensures Outcome(st, [line] + rest) == Outcome(ParseLine(st, line), rest)
  {
    hide ParseLine, Conclude;
    ParseLinesOne(st, line, rest);
  }

  lemma OutcomeEnd(st: Parsing)
    ensures Outcome(st, []) == Flush(st).messages
  {
    hide Finished;
  }

  /** Messages once done stay, and a pending one comes right after them, with whatever lines it still gathers. */
  lemma {:induction false} OutcomeKeeps(st: Parsing, lines: seq<string>) returns (more: seq<string>)
    ensures st.messages <= Outcome(st, lines)
    ensures st.pending.Some? ==>
              |st.messages| < |Outcome(st, lines)|
              && Outcome(st, lines)[|st.messages|] == Finished(st.pending.value.(lines := st.pending.value.lines + more))
    decreases |lines|
  {
    hide Finished, ParseLine, Outcome;
    more := [];
    if lines == [] {
      OutcomeEnd(st);
      assert st.pending.Some? ==> st.pending.value.lines + [] == st.pending.value.lines;
    } else {
      LineKeeps(st, lines[0]);
      OutcomeStep(st, lines[0], lines[1..]);
      assert lines == [lines[0]] + lines[1..];
      var next := ParseLine(st, lines[0]);
      var rest := OutcomeKeeps(next, lines[1..]);
      if st.pending.Some? {
        var p := st.pending.value;
        assert p.lines + [] == p.lines && p.lines + [lines[0]] + rest == p.lines + ([lines[0]] + rest);
        if next.messages == st.messages {
          more := [lines[0]] + rest;
        }
      }
    }
  }

  /** Names and types that can come out of a line. */
  predicate FitsLine(from: string, messageType: Option<string>) {
    from != "" && OneLine(from) && (messageType.Some? ==> OneLine(messageType.value))
  }

  lemma PartOfLine(s: string, a: nat, b: nat)
    requires OneLine(s) && a <= b <= |s|
    ensures OneLine(s[a..b])
  {
    hide IsNewline;
    assert forall c <- s[a..b] :: c in s;
  }

  lemma EndingFits(rest: string)
    requires OneLine(rest)
    ensures EndingOf(rest).Some? && EndingOf(rest).value.messageType.Some? ==> OneLine(EndingOf(rest).value.messageType.value)
  {
    hide OneLine, IsBlank;
    var open := BlankRun(rest);
    if open < |rest| {
      var inside := rest[open + 1..];
      var close := IndexOf(inside, ')');
      assert inside[..close] == rest[open + 1..open + 1 + close];
      PartOfLine(rest, open + 1, open + 1 + close);
    }
  }

  lemma NameFits(rest: string)
    requires OneLine(rest) && NameAndEnding(rest).Some?
    ensures FitsLine(NameAndEnding(rest).value.0, NameAndEnding(rest).value.1.messageType)
  {
    hide EndingOf, OneLine;
    var n := NameLength(rest, 1).value;
    PartOfLine(rest, 0, n);
    PartOfLine(rest, n, |rest|);
    assert rest[0..n] == rest[..n] && rest[n..|rest|] == rest[n..];
    EndingFits(rest[n..]);
  }

  lemma HeaderFits(line: string)
    requires OneLine(line) && ParseHeader(line).Some?
    ensures FitsLine(ParseHeader(line).value.from, ParseHeader(line).value.messageType)
  {
    hide OneLine, NameAndEnding, DigitRun, FitsLine, AfterBlanks, BlankRun;
    var digits := DigitRun(line[1..]);
    var rest := line[1 + digits..];
    var j := AfterBlanksPicks(rest, BlankRun(rest));
    assert rest[j..] == line[1 + digits + j..|line|];
    PartOfLine(line, 1 + digits + j, |line|);
    NameFits(rest[j..]);
    FewerOptions(NameAndEnding(rest[j..]).value.0, NameAndEnding(rest[j..]).value.1.messageType);
  }

  lemma FewerOptions(from: string, messageType: Option<string>)
    requires FitsLine(from, messageType)
    ensures FitsLine(from, None) && FitsLine(from, if messageType == Some("") then None else messageType)
  {
  }

  ghost predicate AllFit(messages: seq<Parsed>) {
    forall p <- messages :: FitsLine(p.from, p.messageType)
  }

  lemma {:induction false} OutcomeFits(st: Parsing, lines: seq<string>)
    requires AllFit(st.messages) && (st.pending.Some? ==> FitsLine(st.pending.value.from, st.pending.value.messageType))
    requires forall l <- lines :: OneLine(l)
    ensures AllFit(Outcome(st, lines))
    decreases |lines|
  {
    hide FitsLine, OneLine;
    if lines != [] {
      if ParseHeader(lines[0]).Some? {
        HeaderFits(lines[0]);
      }
      hide ParseHeader, ParseCursor, IsPause;
      OutcomeFits(ParseLine(st, lines[0]), lines[1..]);
    }
  }

  lemma HeadHash(m: RoomMessage)
    ensures Lines(RenderMessage(m))[0] != "" && Lines(RenderMessage(m))[0][0] == '#'
  {
    var s := RenderMessage(m);
    assert s[0] == '#';
    hide RenderMessage;
  }

  /** A line that starts like a header but is none is taken for text. */
  lemma HashIsText(line: string)
    requires line != "" && line[0] == '#' && ParseHeader(line).None?
    ensures !Special(line)
  {
    hide ParseHeader;
    assert TrimStart(line, IsBlank)[0] == '#';
    TrimEndStarts(TrimStart(line, IsBlank), IsBlank);
  }

  lemma {:induction false} TrimEndStarts(s: string, white: char -> bool)
    requires s != [] && !white(s[0])
    ensures TrimEnd(s, white) != [] && TrimEnd(s, white)[0] == s[0]
  {
    if white(s[|s| - 1]) {
      TrimEndStarts(s[..|s| - 1], white);
    }
  }

  lemma OpenedIsOneLine(m: RoomMessage)
    requires Opens(Lines(RenderMessage(m))[0], m)
    ensures OneLine(m.from) && OneLine(m.messageType)
    ensures SafeHeader(m, Lines(m.text)[0])
  {
    hide RenderMessage, ParseHeader, Lines;
    var line := Lines(RenderMessage(m))[0];
    LinesAreSingle(RenderMessage(m));
    assert line in Lines(RenderMessage(m));
    HeaderFits(line);
    assert OneLine(m.from) && OneLine(m.messageType);
    MessageLines(m);
    HeaderReadsBack(m, Lines(m.text)[0]);
  }

  // The three ways a message fails to read back; `st` is the state after the clean messages before it.

  /** The header opens something else. */
  lemma WrongHeader(st: Parsing, m: RoomMessage, line: string, rest: seq<string>)
    requires ParseHeader(line).Some? && !Opens(line, m)
    ensures var at := |Flush(st).messages|;
            at < |Outcome(st, [line] + rest)| && Outcome(st, [line] + rest)[at] != Expected(m)
  {
    hide ParseHeader, Conclude, ParseLines;
    var next := ParseLine(st, line);
    ParseLinesOne(st, line, rest);
    var more := OutcomeKeeps(next, rest);
  }

  /** The header is taken for a line of the message before. */
  lemma SwallowedHeader(st: Parsing, p: Pending, line: string, rest: seq<string>)
    requires st.pending == Some(p) && line != "" && line[0] == '#' && ParseHeader(line).None?
    ensures |st.messages| < |Outcome(st, [line] + rest)| && Outcome(st, [line] + rest)[|st.messages|] != Finished(p)
  {
    hide ParseHeader, ParseCursor, Special, ParseLine, Conclude, ParseLines, Finished;
    HashIsText(line);
    var q := p.(lines := p.lines + [line]);
    TextLine(st, p, line);
    ParseLinesOne(st, line, rest);
    var more := OutcomeKeeps(st.(pending := Some(q)), rest);
    MoreIsVisible(p, [line] + more);
    assert q.lines + more == p.lines + ([line] + more);
  }

  lemma MoreIsVisible(p: Pending, more: seq<string>)
    requires more != [] && more[0] != "" && more[0][0] == '#'
    ensures Finished(p.(lines := p.lines + more)) != Finished(p)
  {
    hide Finished;
    FinishedVisible(p);
    FinishedVisible(p.(lines := p.lines + more));
    VisibleInAppends(p.lines, more);
    assert Visible(more[0]) >= 1;
  }

  lemma CutAround(lines: seq<string>, j: nat, rest: seq<string>)
    requires j < |lines|
    ensures lines + rest == lines[..j] + ([lines[j]] + (lines[j + 1..] + rest))
  {
  }

  /** The parse of a text up to and including its first special line. */
  lemma CutParse(st: Parsing, p: Pending, lines: seq<string>, j: nat, rest: seq<string>)
    requires st.pending == Some(p) && j < |lines| && forall l <- lines[..j] :: !Special(l)
    ensures
      var at := st.(pending := Some(p.(lines := p.lines + lines[..j])));
      Outcome(st, lines + rest) == Outcome(ParseLine(at, lines[j]), lines[j + 1..] + rest)
  {
    hide Special, ParseLine, ParseLines, Conclude;
    CutAround(lines, j, rest);
    TextLinesPile(st, p, lines[..j]);
    ParseLinesAppends(st, lines[..j], [lines[j]] + (lines[j + 1..] + rest));
    OutcomeStep(st.(pending := Some(p.(lines := p.lines + lines[..j]))), lines[j], lines[j + 1..] + rest);
  }

  lemma SpecialFlushes(st: Parsing, p: Pending, line: string)
    requires st.pending == Some(p) && Special(line)
    ensures ParseLine(st, line).messages == st.messages + [Finished(p)]
  {
    hide ParseHeader, ParseCursor, IsPause, Finished;
  }

  /** A later line ends the message early. */
  lemma CutText(st: Parsing, p: Pending, lines: seq<string>, j: nat, rest: seq<string>)
    requires st.pending == Some(p) && j < |lines| && Special(lines[j])
    requires forall l <- lines[..j] :: !Special(l)
    ensures
      var out := Outcome(st, lines + rest);
      |st.messages| < |out| && out[|st.messages|] != Finished(p.(lines := p.lines + lines))
  {
    hide Special, ParseLine, Outcome, Finished;
    CutParse(st, p, lines, j, rest);
    var q := p.(lines := p.lines + lines[..j]);
    var at := st.(pending := Some(q));
    SpecialFlushes(at, q, lines[j]);
    var more := OutcomeKeeps(ParseLine(at, lines[j]), lines[j + 1..] + rest);
    CutIsVisible(p, lines, j);
  }

  lemma CutIsVisible(p: Pending, lines: seq<string>, j: nat)
    requires j < |lines| && Special(lines[j])
    ensures Finished(p.(lines := p.lines + lines[..j])) != Finished(p.(lines := p.lines + lines))
  {
    hide Finished, Special, Visible;
    SpecialIsVisible(lines[j]);
    FinishedVisible(p.(lines := p.lines + lines[..j]));
    FinishedVisible(p.(lines := p.lines + lines));
    assert p.lines + lines == (p.lines + lines[..j]) + lines[j..];
    VisibleInAppends(p.lines + lines[..j], lines[j..]);
    assert lines[j..][0] == lines[j];
  }

  /** Without a header at the very start nothing can stand for the first message. */
  lemma LostFirst(start: Parsing, m: RoomMessage, line: string, rest: seq<string>)
    requires start.messages == [] && start.pending == None
    requires line == Lines(RenderMessage(m))[0] && ParseHeader(line).None? && forall l <- rest :: OneLine(l)
    ensures var out := Outcome(start, [line] + rest); out == [] || out[0] != Expected(m)
  {
    LinesAreSingle(RenderMessage(m));
    assert line in Lines(RenderMessage(m));
    var out := Outcome(start, [line] + rest);
    OutcomeFits(start, [line] + rest);
    assert !FitsLine(m.from, TypeOf(m.messageType)) by {
      if FitsLine(m.from, TypeOf(m.messageType)) {
        MessageLines(m);
        NamedHeaderIsHeader(m, Lines(m.text)[0]);
      }
    }
    hide FitsLine, Outcome;
    assert out != [] ==> out[0] in out;
  }

  function FirstOpened(m: RoomMessage): Pending { Pending(m.seqNo, m.from, TypeOf(m.messageType), [Lines(m.text)[0]]) }

  lemma SafeHeaderRead(st: Parsing, m: RoomMessage, rest: seq<string>)
    requires OneLine(m.from) && OneLine(m.messageType) && SafeHeader(m, Lines(m.text)[0])
    ensures Outcome(st, Lines(RenderMessage(m)) + rest) ==
            Outcome(Flush(st).(pending := Some(FirstOpened(m))), Lines(m.text)[1..] + rest)
  {
    var lines := Lines(m.text);
    MessageLines(m);
    SafeHeaderOpens(m, lines[0]);
    var head := HeaderLine(m, lines[0]);
    hide Lines, RenderMessage, HeaderLine, SafeHeader, OneLine, ParseHeader;
    assert ParseLine(st, head) == Flush(st).(pending := Some(FirstOpened(m)));
    hide ParseLine, ParseLines, Conclude, Flush, FirstOpened;
    RegroupedOne(head, lines[1..], rest);
    ParseLinesOne(st, head, lines[1..] + rest);
  }

  lemma RegroupedOne(head: string, lines: seq<string>, rest: seq<string>)
    ensures [head] + lines + rest == [head] + (lines + rest)
  {
  }

  /** A safe header followed by a text with a special line. */
  lemma SpecialText(st: Parsing, m: RoomMessage, rest: seq<string>)
    requires OneLine(m.from) && OneLine(m.messageType) && SafeHeader(m, Lines(m.text)[0])
    requires exists l <- Lines(m.text)[1..] :: Special(l)
    ensures
      var at, out := |Flush(st).messages|, Outcome(st, Lines(RenderMessage(m)) + rest);
      at < |out| && out[at] != Expected(m)
  {
    hide SafeHeader, RenderMessage, Special, Outcome, Lines, OneLine, Finished;
    SafeHeaderRead(st, m, rest);
    var lines, first := Lines(m.text), FirstOpened(m);
    var j := FirstSpecial(lines[1..]);
    CutText(Flush(st).(pending := Some(first)), first, lines[1..], j, rest);
    assert first.lines + lines[1..] == lines;
  }

  lemma FirstSpecial(lines: seq<string>) returns (j: nat)
    requires exists l <- lines :: Special(l)
    ensures j < |lines| && Special(lines[j]) && forall l <- lines[..j] :: !Special(l)
  {
    hide Special;
    j := 0;
    while !Special(lines[j])
      invariant j < |lines| && forall l <- lines[..j] :: !Special(l)
      invariant exists k :: j <= k < |lines| && Special(lines[k])
      decreases |lines| - j
    {
      PrefixStep(lines, j);
      j := j + 1;
    }
  }

  /** Read from `st`, the outcome lacks either the pending message as it stands or `m` in its place. */
  ghost predicate Shows(st: Parsing, m: RoomMessage, out: seq<Parsed>) {
    var at := |Flush(st).messages|;
    || |out| <= at
    || out[at] != Expected(m)
    || (st.pending.Some? && out[|st.messages|] != Finished(st.pending.value))
  }

  lemma UncleanMessage(st: Parsing, m: RoomMessage, rest: seq<string>)
    requires st.pending.Some? || st.messages == []
    requires !Clean(m) && forall l <- rest :: OneLine(l)
    ensures Shows(st, m, Outcome(st, Lines(RenderMessage(m)) + rest))
  {
    hide Outcome, Expected, Special, SafeHeader, RenderMessage, ParseHeader, Finished, Opens;
    var lines := Lines(RenderMessage(m));
    HeadHash(m);
    LinesAreSingle(RenderMessage(m));
    var line := lines[0];
    assert lines + rest == [line] + (lines[1..] + rest);
    assert forall l <- lines[1..] :: l in lines;
    if Opens(line, m) {
      OpenedIsOneLine(m);
      SpecialText(st, m, rest);
    } else if ParseHeader(line).Some? {
      WrongHeader(st, m, line, lines[1..] + rest);
    } else if st.pending.Some? {
      SwallowedHeader(st, st.pending.value, line, lines[1..] + rest);
    } else {
      LostFirst(st, m, line, lines[1..] + rest);
    }
  }

  /** The first message that is not clean shows in the outcome, whatever follows it. */
  lemma UncleanShows(start: Parsing, ms: seq<RoomMessage>, i: nat, rest: seq<string>)
    requires start.messages == [] && start.pending == None && i < |ms|
    requires (forall m <- ms[..i] :: Clean(m)) && !Clean(ms[i]) && forall l <- rest :: OneLine(l)
    ensures Outcome(start, LinesOfAll(ms[..i]) + (Lines(RenderMessage(ms[i])) + rest)) != ExpectedAll(ms)
  {
    hide Clean, Conclude, Expected, ParseLines, RenderMessage, Finished, OneLine;
    var st := ReadSoFar(start, ms[..i]);
    var lines := Lines(RenderMessage(ms[i]));
    CleanMessagesRead(start, ms[..i]);
    ParseLinesAppends(start, LinesOfAll(ms[..i]), lines + rest);
    FlushedSoFar(start, ms[..i]);
    UncleanMessage(st, ms[i], rest);
    if i > 0 {
      SwallowedShows(start, ms, i);
    }
  }

  lemma SwallowedShows(start: Parsing, ms: seq<RoomMessage>, i: nat)
    requires 0 < i < |ms|
    ensures |ReadSoFar(start, ms[..i]).messages| == i - 1
    ensures ReadSoFar(start, ms[..i]).pending == Some(Opened(ms[i - 1]))
    ensures ExpectedAll(ms)[i - 1] == Finished(Opened(ms[i - 1]))
  {
  }

  /**
   * The reply reads back as the messages it was printed from, with their multi-line texts, the cursor and the pause
   * flag, exactly when every message is clean.
   */
  lemma ReplyReadsBack(tool: Tool, ms: seq<RoomMessage>, cursor: int, fallbackCursor: int)
    ensures ParsedReply(Reply(tool, ms, cursor), fallbackCursor) == Wanted(ms, cursor) <==> forall m <- ms :: Clean(m)
  {
    if forall m <- ms :: Clean(m) {
      CleanReplyReads(tool, ms, cursor, fallbackCursor);
    } else {
      var i := FirstUnclean(ms);
      hide Clean, Reply, Conclude, ParseLines, RenderMessage, OneLine;
      var rest := ReplySplits(tool, ms, cursor, i);
      UncleanShows(Parsing([], fallbackCursor, false, None), ms, i, rest);
    }
  }

  lemma LinesOfAllOne(m: RoomMessage)
    ensures LinesOfAll([m]) == Lines(RenderMessage(m))
  {
    hide Lines, RenderMessage;
    assert [m][..0] == [] && LinesOfAll([]) == [];
  }

  lemma LinesOfAllThree(a: seq<RoomMessage>, m: RoomMessage, b: seq<RoomMessage>)
    ensures LinesOfAll(a + ([m] + b)) == LinesOfAll(a) + (Lines(RenderMessage(m)) + LinesOfAll(b))
  {
    hide *;
    LinesOfAllOne(m);
    LinesOfAllAppends([m], b);
    LinesOfAllAppends(a, [m] + b);
  }

  lemma AroundMessage(ms: seq<RoomMessage>, i: nat)
    requires i < |ms|
    ensures ms == ms[..i] + ([ms[i]] + ms[i + 1..])
  {
  }

  lemma LinesOfAllAt(ms: seq<RoomMessage>, i: nat)
    requires i < |ms|
    ensures LinesOfAll(ms) == LinesOfAll(ms[..i]) + (Lines(RenderMessage(ms[i])) + LinesOfAll(ms[i + 1..]))
  {
    hide *;
    AroundMessage(ms, i);
    LinesOfAllThree(ms[..i], ms[i], ms[i + 1..]);
  }

  lemma Regrouped(a: seq<string>, b: seq<string>, c: seq<string>, d: seq<string>)
    ensures (a + (b + c)) + d == a + (b + (c + d))
  {
  }

  lemma ReplySplits(tool: Tool, ms: seq<RoomMessage>, cursor: int, i: nat) returns (rest: seq<string>)
    requires i < |ms|
    ensures Lines(Reply(tool, ms, cursor)) == LinesOfAll(ms[..i]) + (Lines(RenderMessage(ms[i])) + rest)
    ensures forall l <- rest :: OneLine(l)
  {
    BodyLines(ms);
    assert Body(tool, ms) == Join(RenderAll(ms), '\n');
    hide *;
    ReplyLines(tool, ms, cursor);
    LinesOfAllAt(ms, i);
    var later, trailer := LinesOfAll(ms[i + 1..]), Lines(Trailer(ms, cursor));
    rest := later + trailer;
    Regrouped(LinesOfAll(ms[..i]), Lines(RenderMessage(ms[i])), later, trailer);
    LinesOfAllAreLines(ms[i + 1..]);
    LinesAreSingle(Trailer(ms, cursor));
  }

  lemma {:induction false} LinesOfAllAreLines(ms: seq<RoomMessage>)
    ensures forall l <- LinesOfAll(ms) :: OneLine(l)
  {
    hide OneLine;
    if ms != [] {
      LinesOfAllAreLines(ms[..|ms| - 1]);
      LinesAreSingle(RenderMessage(ms[|ms| - 1]));
    }
  }

  lemma FirstUnclean(ms: seq<RoomMessage>) returns (i: nat)
    requires exists m <- ms :: !Clean(m)
    ensures i < |ms| && !Clean(ms[i]) && forall m <- ms[..i] :: Clean(m)
  {
    hide Clean;
    i := 0;
    while Clean(ms[i])
      invariant i < |ms| && forall m <- ms[..i] :: Clean(m)
      invariant exists k :: i <= k < |ms| && !Clean(ms[k])
      decreases |ms| - i
    {
      PrefixStep(ms, i);
      i := i + 1;
    }
  }

  /** Plain names and texts whose lines do not look like headers, pauses or cursors make clean messages. */
  lemma PlainMessageIsClean(m: RoomMessage)
    requires OneLine(m.from) && OneLine(m.messageType) && m.from != ""
    requires ':' !in m.from && '(' !in m.from && ')' !in m.messageType
    requires !IsBlank(m.from[0]) && !IsBlank(m.from[|m.from| - 1])
    requires forall l <- Lines(m.text)[1..] :: !Special(l)
    ensures Clean(m)
  {
    PlainNameIsSafe(m, Lines(m.text)[0]);
  }
}
