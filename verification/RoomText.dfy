/** The hosted room's text replies and the line parser of the desktop client that reads them back. */
module RoomText {
  import opened Prelude
  import opened Decimals
  import opened Sequences

  datatype RoomMessage = RoomMessage(seqNo: nat, from: string, messageType: string, text: string, retryAfter: Option<nat>)

  /** A message as the client recovers it; an empty type is no type. */
  datatype Parsed = Parsed(seqNo: nat, from: string, messageType: Option<string>, text: string)

  datatype Transcript = Transcript(messages: seq<Parsed>, cursor: int, awaitingHuman: bool)

  // ---- Characters, trimming, lines ----

  /** Line breaks: U+000A to U+000D, U+0085, U+2028, U+2029. */
  predicate IsNewline(c: char) {
    '\U{A}' <= c <= '\U{D}' || c == '\U{85}' || c == '\U{2028}' || c == '\U{2029}'
  }

  /** Space separators and the tab. */
  predicate IsBlank(c: char) {
    || c == ' ' || c == '\U{9}' || c == '\U{A0}' || c == '\U{1680}' || '\U{2000}' <= c <= '\U{200A}'
    || c == '\U{202F}' || c == '\U{205F}' || c == '\U{3000}'
  }

  predicate IsWhite(c: char) { IsBlank(c) || IsNewline(c) }

  predicate OneLine(s: string) { forall c <- s :: !IsNewline(c) }

  /** `components(separatedBy: .newlines)`. */
  function Lines(s: string): (lines: seq<string>)
    ensures |lines| >= 1
  {
    if s == [] then [[]]
    else
      var rest := Lines(s[1..]);
      if IsNewline(s[0]) then [[]] + rest else [[s[0]] + rest[0]] + rest[1..]
  }

  /** No line contains a line break. */
  lemma {:induction false} LinesAreSingle(s: string)
    ensures forall l <- Lines(s) :: OneLine(l)
  {
    if s != [] {
      LinesAreSingle(s[1..]);
      var rest := Lines(s[1..]);
      assert forall l <- rest[1..] :: l in rest;
      assert OneLine(rest[0]);
    }
  }

  lemma {:induction false} LinesOfOne(s: string)
    requires OneLine(s)
    ensures Lines(s) == [s]
  {
    if s != [] {
      LinesOfOne(s[1..]);
      assert [s[0]] + s[1..] == s;
    }
  }

  lemma {:induction false} LinesBreak(a: string, c: char, b: string)
    requires IsNewline(c)
    ensures Lines(a + [c] + b) == Lines(a) + Lines(b)
  {
    hide Lines, IsNewline;
    if a == [] {
      LinesStep(c, b);
      NoLines();
      assert a + [c] + b == [c] + b;
    } else {
      LinesBreak(a[1..], c, b);
      LinesStep(a[0], a[1..]);
      LinesStep(a[0], a[1..] + [c] + b);
      assert a == [a[0]] + a[1..] && a + [c] + b == [a[0]] + (a[1..] + [c] + b);
      FrontExtends(a[0], Lines(a[1..]), Lines(b));
    }
  }

  lemma NoLines()
    ensures Lines([]) == [[]]
  {
  }

  /** One more character in front starts a line of its own or extends the first one. */
  lemma LinesStep(c: char, s: string)
    ensures Lines([c] + s) == if IsNewline(c) then [[]] + Lines(s) else [[c] + Lines(s)[0]] + Lines(s)[1..]
  {
    hide IsNewline;
    assert ([c] + s)[1..] == s;
  }

  lemma FrontExtends(c: char, lines: seq<string>, others: seq<string>)
    requires lines != []
    ensures [[c] + (lines + others)[0]] + (lines + others)[1..] == ([[c] + lines[0]] + lines[1..]) + others
    ensures [[]] + (lines + others) == ([[]] + lines) + others
  {
    assert (lines + others)[1..] == lines[1..] + others;
  }

  lemma {:induction false} LinesAfterHead(head: string, text: string)
    requires OneLine(head)
    ensures Lines(head + text) == [head + Lines(text)[0]] + Lines(text)[1..]
  {
    if head == [] {
      assert head + text == text && head + Lines(text)[0] == Lines(text)[0];
      assert Lines(text) == [Lines(text)[0]] + Lines(text)[1..];
    } else {
      assert (head + text)[1..] == head[1..] + text;
      LinesAfterHead(head[1..], text);
      assert [head[0]] + (head[1..] + Lines(text)[0]) == head + Lines(text)[0];
    }
  }

  // ---- The header pattern ----

  function DigitRun(s: string): (n: nat)
    ensures n <= |s| && (forall c <- s[..n] :: IsDigit(c)) && (n < |s| ==> !IsDigit(s[n]))
  {
    if s == [] || !IsDigit(s[0]) then 0
    else
      var n := DigitRun(s[1..]);
      assert s[..n + 1] == [s[0]] + s[1..][..n];
      1 + n
  }

  function BlankRun(s: string): (n: nat)
    ensures n <= |s| && (forall c <- s[..n] :: IsBlank(c)) && (n < |s| ==> !IsBlank(s[n]))
  {
    if s == [] || !IsBlank(s[0]) then 0
    else
      var n := BlankRun(s[1..]);
      assert s[..n + 1] == [s[0]] + s[1..][..n];
      1 + n
  }

  /** What can follow a name: a parenthesised type and a colon, or a colon. */
  datatype Ending = Ending(messageType: Option<string>, body: string)

  /** `[ ]?(.*)$` after the colon. */
  function BodyAfter(rest: string): string {
    if rest != [] && rest[0] == ' ' then rest[1..] else rest
  }

  /** `(?:\s+\(([^)]*)\))?:` at the front of the rest of the line. */
  function EndingOf(rest: string): Option<Ending> {
    if rest == [] then None
    else if rest[0] == ':' then Some(Ending(None, BodyAfter(rest[1..])))
    else
      var open := BlankRun(rest);
      if open == 0 || open == |rest| || rest[open] != '(' then None
      else
        var inside := rest[open + 1..];
        var close := IndexOf(inside, ')');
        if close + 1 < |inside| && inside[close + 1] == ':'
        then Some(Ending(Some(inside[..close]), BodyAfter(inside[close + 2..])))
        else None
  }

  /** `.+?`: the shortest name, at least `n` characters, with an ending behind it. */
  function NameLength(rest: string, n: nat): (length: Option<nat>)
    requires n <= |rest|
    ensures length.Some? ==> n <= length.value <= |rest| && EndingOf(rest[length.value..]).Some?
    decreases |rest| - n
  {
    if EndingOf(rest[n..]).Some? then Some(n)
    else if n == |rest| then None
    else NameLength(rest, n + 1)
  }

  lemma {:induction false} NameIsShortest(rest: string, n: nat, m: nat)
    requires n <= m <= |rest|
    ensures NameLength(rest, n).None? || m < NameLength(rest, n).value ==> EndingOf(rest[m..]).None?
    ensures EndingOf(rest[m..]).Some? ==> NameLength(rest, n).Some? && NameLength(rest, n).value <= m
    decreases m - n
  {
    hide EndingOf;
    if n < m && EndingOf(rest[n..]).None? {
      NameIsShortest(rest, n + 1, m);
    }
  }

  /** A name and its ending, with the name at the front of the rest of the line. */
  function NameAndEnding(rest: string): Option<(string, Ending)> {
    if rest == [] then None
    else
      var n := NameLength(rest, 1);
      if n.Some? then Some((rest[..n.value], EndingOf(rest[n.value..]).value)) else None
  }

  /** `\s+` greedy: skip as many blanks as possible, fewer only if nothing matches behind them. */
  function AfterBlanks(rest: string, blanks: nat): Option<(string, Ending)>
    requires blanks <= |rest|
  {
    if blanks == 0 then None
    else if NameAndEnding(rest[blanks..]).Some? then NameAndEnding(rest[blanks..])
    else AfterBlanks(rest, blanks - 1)
  }

  datatype Pending = Pending(seqNo: nat, from: string, messageType: Option<string>, lines: seq<string>)

  /** A header line opens a message; an empty type counts as none. */
  function ParseHeader(line: string): Option<Pending> {
    if line == [] || line[0] != '#' then None
    else
      var digits := DigitRun(line[1..]);
      if digits == 0 then None
      else
        var rest := line[1 + digits..];
        match AfterBlanks(rest, BlankRun(rest))
        case None => None
        case Some((from, ending)) =>
          Some(Pending(Value(line[1..][..digits]), from,
                       if ending.messageType == Some("") then None else ending.messageType, [ending.body]))
  }

  // ---- The cursor line ----

  /** `Int(_:)` on text: an optional sign and decimal digits. */
  function ToInt(s: string): Option<int> {
    if s == [] then None
    else if (s[0] == '-' || s[0] == '+') && |s| > 1 && DigitRun(s[1..]) == |s| - 1 then
      assert s[1..][..|s| - 1] == s[1..];
      var n: int := Value(s[1..]);
      Some(if s[0] == '-' then -n else n)
    else if DigitRun(s) == |s| then
      assert s[..|s|] == s;
      Some(Value(s))
    else None
  }

  const CURSOR := "cursor:"

  function ParseCursor(line: string): Option<int> {
    var trimmed := Trim(line, IsBlank);
    if |trimmed| < |CURSOR| || trimmed[..|CURSOR|] != CURSOR then None
    else ToInt(Trim(trimmed[|CURSOR|..], IsBlank))
  }

  const PAUSE := '\U{23F8}'

  predicate IsPause(line: string) { line != [] && line[0] == PAUSE }

  // ---- The parser ----

  datatype Parsing = Parsing(messages: seq<Parsed>, cursor: int, awaitingHuman: bool, pending: Option<Pending>)

  function Finished(p: Pending): Parsed {
    Parsed(p.seqNo, p.from, p.messageType, Trim(Join(p.lines, '\n'), IsWhite))
  }

  function Flush(st: Parsing): Parsing {
    if st.pending.None? then st else st.(messages := st.messages + [Finished(st.pending.value)], pending := None)
  }

  function ParseLine(st: Parsing, line: string): Parsing {
    var header := ParseHeader(line);
    if header.Some? then Flush(st).(pending := header)
    else if IsPause(line) then Flush(st).(awaitingHuman := true)
    else
      var cursor := ParseCursor(line);
      if cursor.Some? then Flush(st).(cursor := cursor.value)
      else if st.pending.Some? then st.(pending := Some(st.pending.value.(lines := st.pending.value.lines + [line])))
      else st
  }

  function ParseLines(st: Parsing, lines: seq<string>): Parsing
    decreases |lines|
  {
    if lines == [] then st else ParseLines(ParseLine(st, lines[0]), lines[1..])
  }

  function Conclude(st: Parsing): Transcript {
    var done := Flush(st);
    var cursor := if done.messages == [] then done.cursor
                  else
                    var last := done.messages[|done.messages| - 1].seqNo;
                    if done.cursor < last then last else done.cursor;
    Transcript(done.messages, cursor, done.awaitingHuman)
  }

  function ParsedReply(raw: string, fallbackCursor: int): Transcript {
    Conclude(ParseLines(Parsing([], fallbackCursor, false, None), Lines(raw)))
  }

  /** The parser as it runs: one loop over the lines. */
  method Parse(raw: string, fallbackCursor: int) returns (t: Transcript)
    ensures t == ParsedReply(raw, fallbackCursor)
  {
    hide ParseHeader, ParseCursor, IsPause, Lines, Finished;
    var messages: seq<Parsed> := [];
    var cursor := fallbackCursor;
    var awaitingHuman := false;
    var pending: Option<Pending> := None;
    var lines := Lines(raw);
    ghost var start := Parsing([], fallbackCursor, false, None);
    for i := 0 to |lines|
      invariant ParseLines(Parsing(messages, cursor, awaitingHuman, pending), lines[i..]) == ParseLines(start, lines)
    {
      var line := lines[i];
      assert lines[i..][0] == line && lines[i..][1..] == lines[i + 1..];
      var parsed := ParseHeader(line);
      if parsed.Some? {
        if pending.Some? { messages := messages + [Finished(pending.value)]; }
        pending := parsed;
        continue;
      }
      if IsPause(line) {
        if pending.Some? { messages := messages + [Finished(pending.value)]; }
        pending := None;
        awaitingHuman := true;
        continue;
      }
      var value := ParseCursor(line);
      if value.Some? {
        if pending.Some? { messages := messages + [Finished(pending.value)]; }
        pending := None;
        cursor := value.value;
        continue;
      }
      if pending.Some? {
        pending := Some(pending.value.(lines := pending.value.lines + [line]));
      }
    }
    if pending.Some? { messages := messages + [Finished(pending.value)]; }
    if |messages| > 0 && cursor < messages[|messages| - 1].seqNo {
      cursor := messages[|messages| - 1].seqNo;
    }
    t := Transcript(messages, cursor, awaitingHuman);
  }

  // ---- The printed reply ----

  function HeadText(m: RoomMessage): string {
    "#" + Digits(m.seqNo) + " " + m.from + (if m.messageType == "" then "" else " (" + m.messageType + ")") + ": "
  }

  function RenderMessage(m: RoomMessage): string { HeadText(m) + m.text }

  function RenderAll(ms: seq<RoomMessage>): (r: seq<string>)
    ensures |r| == |ms| && forall i :: 0 <= i < |r| ==> r[i] == RenderMessage(ms[i])
  {
    seq(|ms|, i requires 0 <= i < |ms| => RenderMessage(ms[i]))
  }

  predicate Paused(ms: seq<RoomMessage>) { ms != [] && ms[|ms| - 1].messageType == "awaiting_human" }

  /** Seconds rounded to whole minutes, at least one. */
  function Minutes(seconds: nat): nat {
    if (seconds + 30) / 60 < 1 then 1 else (seconds + 30) / 60
  }

  const RESUME1 := ". Don't keep long-polling \U{2014} end your"
  const RESUME2 := " turn and resume later with wait"
  const RESUME3 := "_for_message(after: the cursor below)."

  function PauseLine(m: RoomMessage): string {
    [PAUSE] + " " + m.from + " stepped away to consult their human"
    + (if m.retryAfter.Some? && m.retryAfter.value != 0
       then " (expects to be back in ~" + Digits(Minutes(m.retryAfter.value)) + " min)" else "")
    + RESUME1 + RESUME2 + RESUME3
  }

  function PauseNote(ms: seq<RoomMessage>): string {
    if Paused(ms) then "\n\n" + PauseLine(ms[|ms| - 1]) else ""
  }

  datatype Tool = Receive | WaitForMessage

  const TIMED_OUT1 := "(timed out \U{2014} no new messages; call"
  const TIMED_OUT2 := " wait_for_message again with this"
  const TIMED_OUT3 := " cursor to keep listening)"

  function NothingNew(tool: Tool): string {
    match tool
    case Receive => "(no new messages)"
    case WaitForMessage => TIMED_OUT1 + TIMED_OUT2 + TIMED_OUT3
  }

  function Reply(tool: Tool, ms: seq<RoomMessage>, cursor: int): string {
    (if ms != [] then Join(RenderAll(ms), '\n') else NothingNew(tool)) + PauseNote(ms) + "\n\n" + CURSOR + " " + IntText(cursor)
  }
}
