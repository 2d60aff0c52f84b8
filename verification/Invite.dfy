/** Invite strings and join links: encoding, parsing, and exactly when one undoes the other. */
module Invite {
  import opened Prelude
  import opened Sequences
  import Uri

  datatype Invite = Invite(sessionId: string, fingerprint: string, joinToken: string)

  datatype JoinLink = JoinLink(relayUrl: string, invite: Invite, kind: Option<string>)

  /** JavaScript line terminators, which `.` in a pattern does not match. */
  predicate IsTerminator(c: char) { c == '\n' || c == '\r' || c == '\U{2028}' || c == '\U{2029}' }

  /** The white space `String.prototype.trim` removes. */
  predicate IsSpace(c: char) {
    || IsTerminator(c) || c == ' ' || c == '\U{9}' || c == '\U{B}' || c == '\U{C}' || c == '\U{A0}' || c == '\U{1680}'
    || '\U{2000}' <= c <= '\U{200A}' || c == '\U{202F}' || c == '\U{205F}' || c == '\U{3000}' || c == '\U{FEFF}'
  }

  predicate EndsInSpace(s: string) { s != [] && IsSpace(s[|s| - 1]) }

  lemma {:induction false} TrimEndKeepsFront(a: string, b: string)
    requires a != [] && !IsSpace(a[|a| - 1])
    ensures TrimEnd(a + b, IsSpace) == a + TrimEnd(b, IsSpace)
  {
    if b != [] && IsSpace(b[|b| - 1]) {
      assert (a + b)[..|a + b| - 1] == a + b[..|b| - 1];
      TrimEndKeepsFront(a, b[..|b| - 1]);
    } else {
      assert b != [] ==> (a + b)[|a + b| - 1] == b[|b| - 1];
      assert b == [] ==> a + b == a;
    }
  }

  lemma {:induction false} TrimEndShortens(s: string)
    ensures |TrimEnd(s, IsSpace)| <= |s| && (TrimEnd(s, IsSpace) == s <==> !EndsInSpace(s))
    ensures TrimEnd(s, IsSpace) == s[..|TrimEnd(s, IsSpace)|]
  {
    if EndsInSpace(s) {
      TrimEndShortens(s[..|s| - 1]);
    }
  }

  // ---- The bare invite string ----

  const PREFIX := "randevu"

  predicate Field(value: string) { value != "" && ':' !in value }

  function EncodeInvite(i: Invite): Result<string, string> {
    if !Field(i.sessionId) then Err("invalid invite field: sessionId")
    else if !Field(i.fingerprint) then Err("invalid invite field: fingerprint")
    else if !Field(i.joinToken) then Err("invalid invite field: joinToken")
    else Ok(Join([PREFIX, i.sessionId, i.fingerprint, i.joinToken], ':'))
  }

  function ParseInvite(input: string): Result<Invite, string> {
    var parts := Split(Trim(input, IsSpace), ':');
    if |parts| != 4 || parts[0] != PREFIX || parts[1] == "" || parts[2] == "" || parts[3] == "" then Err("malformed invite")
    else Ok(Invite(parts[1], parts[2], parts[3]))
  }

  lemma JoinFour(a: string, b: string, c: string, d: string)
    ensures Join([a, b, c, d], ':') == a + [':'] + (b + [':'] + (c + [':'] + d))
  {
    assert [a, b, c, d][1..] == [b, c, d] && [b, c, d][1..] == [c, d] && [c, d][1..] == [d];
    assert Join([c, d], ':') == c + [':'] + d;
    assert Join([b, c, d], ':') == b + [':'] + (c + [':'] + d);
  }

  lemma SplitFour(a: string, b: string, c: string, d: string)
    requires ':' !in a && ':' !in b && ':' !in c && ':' !in d
    ensures Split(a + [':'] + (b + [':'] + (c + [':'] + d)), ':') == [a, b, c, d]
  {
    SplitFirst(a, ':', b + [':'] + (c + [':'] + d));
    SplitFirst(b, ':', c + [':'] + d);
    SplitFirst(c, ':', d);
    SplitOne(d, ':');
  }

  /** Parsing undoes encoding exactly for tokens without trailing white space. */
  lemma InviteRoundTrip(i: Invite)
    requires EncodeInvite(i).Ok?
    ensures ParseInvite(EncodeInvite(i).value) == Ok(i) <==> !EndsInSpace(i.joinToken)
  {
    JoinFour(PREFIX, i.sessionId, i.fingerprint, i.joinToken);
    var front := PREFIX + [':'] + (i.sessionId + [':'] + (i.fingerprint + [':']));
    var s, token := EncodeInvite(i).value, TrimEnd(i.joinToken, IsSpace);
    assert s == front + i.joinToken;
    assert s[0] == 'r' && TrimStart(s, IsSpace) == s;
    TrimEndKeepsFront(front, i.joinToken);
    TrimEndShortens(i.joinToken);
    assert front + token == PREFIX + [':'] + (i.sessionId + [':'] + (i.fingerprint + [':'] + token));
    SplitFour(PREFIX, i.sessionId, i.fingerprint, token);
  }

  /** What parses was a well-formed invite, and encoding it gives back the trimmed input. */
  lemma ParsedInviteEncodes(input: string)
    requires ParseInvite(input).Ok?
    ensures EncodeInvite(ParseInvite(input).value) == Ok(Trim(input, IsSpace))
  {
    var s := Trim(input, IsSpace);
    JoinUndoesSplit(s, ':');
    PartsAreFree(s, ':');
    var parts := Split(s, ':');
    assert parts == [PREFIX, parts[1], parts[2], parts[3]];
    assert parts[1] in parts && parts[2] in parts && parts[3] in parts;
  }

  // ---- Join links ----

  function Lower(c: char): char {
    if 'A' <= c <= 'Z' then (c as int + 32) as char else c
  }

  function LowerAll(s: string): (r: string)
    ensures |r| == |s| && forall i :: 0 <= i < |s| ==> r[i] == Lower(s[i])
  {
    seq(|s|, i requires 0 <= i < |s| => Lower(s[i]))
  }

  predicate Breaks(c: char) { c == '/' || c == '?' || c == '#' }

  /** `[^/?#]+`, as far as it goes. */
  function PlainRun(s: string): (n: nat)
    ensures n <= |s|
  {
    if s == [] || Breaks(s[0]) then 0 else 1 + PlainRun(s[1..])
  }

  function SchemeLength(s: string): (n: nat)
    ensures n <= |s|
  {
    if |s| >= 8 && LowerAll(s[..8]) == "https://" then 8
    else if |s| >= 7 && LowerAll(s[..7]) == "http://" then 7
    else 0
  }

  /** `^(https?:\/\/[^/?#]+)`: the length of the origin at the front, 0 if there is none. */
  function OriginLength(s: string): (n: nat)
    ensures n <= |s|
  {
    var scheme := SchemeLength(s);
    if scheme == 0 then 0
    else
      var host := PlainRun(s[scheme..]);
      if host == 0 then 0 else scheme + host
  }

  function Plain(s: string): bool { forall c <- s :: !Breaks(c) }

  predicate NoTerminator(s: string) { forall c <- s :: !IsTerminator(c) }

  function EncodeJoinLink(relayUrl: string, i: Invite, kind: string): Result<string, string> {
    if i.sessionId == "" || !Plain(i.sessionId) then Err("invalid invite field: sessionId")
    else if i.fingerprint == "" || '.' in i.fingerprint then Err("invalid invite field: fingerprint")
    else if i.joinToken == "" || '.' in i.joinToken then Err("invalid invite field: joinToken")
    else
      var url := Trim(relayUrl, IsSpace);
      if OriginLength(url) == 0 then Err("invalid relay url")
      else Ok(url[..OriginLength(url)] + "/j/" + i.sessionId + "#" + Fragment(i, kind))
  }

  function Fragment(i: Invite, kind: string): string {
    i.fingerprint + ['.'] + (i.joinToken + if kind == "" then "" else ['.'] + Uri.Encode(kind))
  }

  /** `^(https?:\/\/[^/?#]+)\/j\/([^/?#]+)#(.+)$`: origin, raw session id, fragment. */
  function MatchLink(s: string): Option<(string, string, string)> {
    var n := OriginLength(s);
    if n == 0 then None
    else
      var rest := s[n..];
      if |rest| < 3 || LowerAll(rest[..3]) != "/j/" then None
      else
        var path := rest[3..];
        var m := PlainRun(path);
        if m == 0 || m == |path| || path[m] != '#' then None
        else
          var fragment := path[m + 1..];
          if fragment == "" || !NoTerminator(fragment) then None else Some((s[..n], path[..m], fragment))
  }

  /** What the fragment carries: fingerprint, token, and the raw kind if a third part exists. */
  function ReadFragment(fragment: string): (string, string, Option<string>) {
    var parts := Split(fragment, '.');
    (parts[0], if |parts| > 1 then parts[1] else "", if |parts| > 2 then Some(Join(parts[2..], '.')) else None)
  }

  function ReadLink(relayUrl: string, raw: string, fragment: string): Result<JoinLink, string> {
    var (fingerprint, token, rawKind) := ReadFragment(fragment);
    var sessionId := Uri.Decode(raw);
    var kind := if rawKind.Some? then Uri.Decode(rawKind.value) else Some("");
    if sessionId.None? || kind.None? || sessionId.value == "" || fingerprint == "" || token == ""
    then Err("malformed join link")
    else Ok(JoinLink(relayUrl, Invite(sessionId.value, fingerprint, token), if kind.value == "" then None else kind))
  }

  function ParseJoinLink(link: string): Result<JoinLink, string> {
    match MatchLink(Trim(link, IsSpace))
    case None => Err("malformed join link")
    case Some((relayUrl, raw, fragment)) => ReadLink(relayUrl, raw, fragment)
  }

  lemma {:induction false} PlainRunOf(a: string, b: string)
    requires Plain(a) && (b == [] || Breaks(b[0]))
    ensures PlainRun(a + b) == |a|
  {
    if a == [] {
      assert a + b == b;
    } else {
      assert a[0] in a && (a + b)[1..] == a[1..] + b;
      PlainRunOf(a[1..], b);
    }
  }

  lemma {:induction false} PlainRunIsPlain(s: string)
    ensures Plain(s[..PlainRun(s)])
  {
    if s != [] && !Breaks(s[0]) {
      PlainRunIsPlain(s[1..]);
      assert s[..PlainRun(s)] == [s[0]] + s[1..][..PlainRun(s[1..])];
    }
  }

  /** An origin stands on its own, and is found again in front of a path. */
  lemma OriginAgain(url: string, rest: string)
    requires OriginLength(url) > 0 && (rest == [] || Breaks(rest[0]))
    ensures
      var origin := url[..OriginLength(url)];
      OriginLength(origin + rest) == |origin|
  {
    var scheme, n := SchemeLength(url), OriginLength(url);
    var origin, host := url[..n], url[scheme..n];
    var s := origin + rest;
    PlainRunIsPlain(url[scheme..]);
    assert url[scheme..][..PlainRun(url[scheme..])] == host;
    SchemeAgain(url, n, rest);
    assert s[scheme..] == host + rest;
    PlainRunOf(host, rest);
  }

  lemma SchemeAgain(url: string, n: nat, rest: string)
    requires SchemeLength(url) > 0 && SchemeLength(url) < n <= |url|
    ensures SchemeLength(url[..n] + rest) == SchemeLength(url)
  {
    var s := url[..n] + rest;
    if SchemeLength(url) == 8 {
      assert s[..8] == url[..8];
    } else {
      assert s[..7] == url[..7];
      assert url[..7][6] == '/' && LowerAll(url[..7])[4] == ':';
      assert |s| >= 8 ==> LowerAll(s[..8])[4] == Lower(s[4]) == Lower(url[..7][4]);
    }
  }

  /** A link taken apart: the parts it was put together from. */
  lemma MatchOf(url: string, sessionId: string, fragment: string)
    requires OriginLength(url) > 0 && sessionId != "" && Plain(sessionId)
    ensures
      var origin := url[..OriginLength(url)];
      MatchLink(origin + "/j/" + sessionId + "#" + fragment) ==
      if fragment == "" || !NoTerminator(fragment) then None else Some((origin, sessionId, fragment))
  {
    var origin := url[..OriginLength(url)];
    var path := sessionId + ("#" + fragment);
    var s := origin + ("/j/" + path);
    assert origin + "/j/" + sessionId + "#" + fragment == s;
    OriginAgain(url, "/j/" + path);
    assert s[|origin|..] == "/j/" + path && s[..|origin|] == origin;
    assert ("/j/" + path)[..3] == "/j/" && ("/j/" + path)[3..] == path;
    assert LowerAll("/j/") == "/j/";
    PlainRunOf(sessionId, "#" + fragment);
    assert path[..|sessionId|] == sessionId && path[|sessionId| + 1..] == fragment;
  }

  lemma FragmentReads(fingerprint: string, token: string)
    requires '.' !in fingerprint && '.' !in token
    ensures ReadFragment(fingerprint + ['.'] + token) == (fingerprint, token, None)
  {
    SplitFirst(fingerprint, '.', token);
    SplitOne(token, '.');
  }

  lemma FragmentWithKindReads(fingerprint: string, token: string, raw: string)
    requires '.' !in fingerprint && '.' !in token
    ensures ReadFragment(fingerprint + ['.'] + (token + (['.'] + raw))) == (fingerprint, token, Some(raw))
  {
    SplitFirst(fingerprint, '.', token + ['.'] + raw);
    SplitFirst(token, '.', raw);
    JoinUndoesSplit(raw, '.');
    assert token + (['.'] + raw) == token + ['.'] + raw;
    var parts := [fingerprint] + ([token] + Split(raw, '.'));
    assert parts[2..] == Split(raw, '.');
  }

  /** The fragment determines its length: what was read from it fits in it. */
  lemma ReadFragmentFits(fragment: string)
    ensures
      var (fingerprint, token, rawKind) := ReadFragment(fragment);
      token != "" ==> |fingerprint| + 1 + |token| <= |fragment|
  {
    var parts := Split(fragment, '.');
    JoinUndoesSplit(fragment, '.');
    if |parts| == 2 {
      assert parts == [parts[0], parts[1]];
      assert parts[1..] == [parts[1]];
    } else if |parts| > 2 {
      assert parts[1..][0] == parts[1];
    }
  }

  /** The link survives the trip: no escape in the session id, no line break in the fragment, no trailing white space. */
  predicate Carries(i: Invite, kind: string) {
    && '%' !in i.sessionId
    && NoTerminator(i.fingerprint) && NoTerminator(i.joinToken)
    && (kind == "" ==> !EndsInSpace(i.joinToken))
  }

  function OriginOf(relayUrl: string): string {
    var url := Trim(relayUrl, IsSpace);
    url[..OriginLength(url)]
  }

  lemma TrimmedLink(relayUrl: string, i: Invite, kind: string)
    requires EncodeJoinLink(relayUrl, i, kind).Ok?
    ensures Trim(EncodeJoinLink(relayUrl, i, kind).value, IsSpace) ==
            OriginOf(relayUrl) + "/j/" + i.sessionId + "#" + TrimEnd(Fragment(i, kind), IsSpace)
  {
    var url := Trim(relayUrl, IsSpace);
    var base := OriginOf(relayUrl) + "/j/" + i.sessionId + "#";
    var link := EncodeJoinLink(relayUrl, i, kind).value;
    assert link == base + Fragment(i, kind);
    assert !IsSpace(link[0]) by {
      OriginStartsPlain(url);
      assert link[0] == url[0];
    }
    assert TrimStart(link, IsSpace) == link;
    TrimEndKeepsFront(base, Fragment(i, kind));
  }

  lemma OriginStartsPlain(url: string)
    requires OriginLength(url) > 0
    ensures url != [] && !IsSpace(url[0])
  {
    assert SchemeLength(url) == 8 ==> LowerAll(url[..8])[0] == 'h' && LowerAll(url[..8])[0] == Lower(url[..8][0]) == Lower(url[0]);
    assert SchemeLength(url) == 7 ==> LowerAll(url[..7])[0] == 'h' && LowerAll(url[..7])[0] == Lower(url[..7][0]) == Lower(url[0]);
  }

  lemma ParsedFragment(relayUrl: string, i: Invite, kind: string)
    requires EncodeJoinLink(relayUrl, i, kind).Ok?
    ensures
      var fragment := TrimEnd(Fragment(i, kind), IsSpace);
      ParseJoinLink(EncodeJoinLink(relayUrl, i, kind).value) ==
      if fragment == "" || !NoTerminator(fragment) then Err("malformed join link")
      else ReadLink(OriginOf(relayUrl), i.sessionId, fragment)
  {
    hide MatchLink, ReadLink, TrimEnd, TrimStart, OriginLength, Fragment;
    TrimmedLink(relayUrl, i, kind);
    MatchOf(Trim(relayUrl, IsSpace), i.sessionId, TrimEnd(Fragment(i, kind), IsSpace));
  }

  lemma PlainEnd(kind: string)
    requires kind != ""
    ensures Uri.Encode(kind) != [] && !EndsInSpace(Uri.Encode(kind)) && NoTerminator(Uri.Encode(kind))
  {
    hide Uri.Encode;
    Uri.EncodedIsPlain(kind);
    var e := Uri.Encode(kind);
    assert e[|e| - 1] in e;
  }

  /** Only a bare token's trailing white space can be trimmed away. */
  lemma TrimmedFragment(i: Invite, kind: string)
    requires i.joinToken != ""
    ensures TrimEnd(Fragment(i, kind), IsSpace) == Fragment(i, kind) <==> kind != "" || !EndsInSpace(i.joinToken)
    ensures |TrimEnd(Fragment(i, kind), IsSpace)| <= |Fragment(i, kind)|
  {
    var f := Fragment(i, kind);
    TrimEndShortens(f);
    if kind != "" {
      PlainEnd(kind);
      assert f[|f| - 1] == Uri.Encode(kind)[|Uri.Encode(kind)| - 1];
    } else {
      assert f == i.fingerprint + ['.'] + i.joinToken;
      assert f[|f| - 1] == i.joinToken[|i.joinToken| - 1];
    }
  }

  lemma FragmentTerminators(i: Invite, kind: string)
    ensures NoTerminator(Fragment(i, kind)) <==> NoTerminator(i.fingerprint) && NoTerminator(i.joinToken)
  {
    var f := Fragment(i, kind);
    if kind != "" {
      PlainEnd(kind);
    }
    assert !IsTerminator('.');
    hide IsTerminator;
    assert forall c <- i.fingerprint :: c in f;
    assert forall c <- i.joinToken :: c in f;
  }

  lemma WholeFragmentRead(origin: string, i: Invite, kind: string)
    requires '.' !in i.fingerprint && '.' !in i.joinToken && i.fingerprint != "" && i.joinToken != "" && i.sessionId != ""
    ensures ReadLink(origin, i.sessionId, Fragment(i, kind)) == Ok(JoinLink(origin, i, if kind == "" then None else Some(kind)))
            <==> '%' !in i.sessionId
  {
    hide ReadFragment, Uri.Decode, Uri.Encode;
    Uri.DecodesToItself(i.sessionId);
    if kind == "" {
      assert Fragment(i, kind) == i.fingerprint + ['.'] + i.joinToken;
      FragmentReads(i.fingerprint, i.joinToken);
    } else {
      FragmentWithKindReads(i.fingerprint, i.joinToken, Uri.Encode(kind));
      Uri.DecodeUndoesEncode(kind);
    }
  }

  /** A link encodes and parses back to its relay origin, invite and kind exactly when it carries them. */
  lemma LinkRoundTrip(relayUrl: string, i: Invite, kind: string)
    requires EncodeJoinLink(relayUrl, i, kind).Ok?
    ensures
      ParseJoinLink(EncodeJoinLink(relayUrl, i, kind).value) ==
      Ok(JoinLink(OriginOf(relayUrl), i, if kind == "" then None else Some(kind)))
      <==> Carries(i, kind)
  {
    hide ReadFragment, Uri.Decode, Uri.Encode, TrimEnd, ParseJoinLink, NoTerminator, OriginOf, EndsInSpace;
    ParsedFragment(relayUrl, i, kind);
    TrimmedFragment(i, kind);
    FragmentTerminators(i, kind);
    WholeFragmentRead(OriginOf(relayUrl), i, kind);
    var trimmed := TrimEnd(Fragment(i, kind), IsSpace);
    ReadFragmentFits(trimmed);
    assert kind == "" ==> |Fragment(i, kind)| == |i.fingerprint| + 1 + |i.joinToken|;
    assert |trimmed| == |Fragment(i, kind)| ==> trimmed == Fragment(i, kind) by {
      TrimEndShortens(Fragment(i, kind));
    }
  }

  /** The relay's address survives as its origin: an origin has no path, query or fragment of its own. */
  lemma OriginIsStable(relayUrl: string)
    requires OriginLength(Trim(relayUrl, IsSpace)) > 0
    ensures OriginLength(OriginOf(relayUrl)) == |OriginOf(relayUrl)|
    ensures OriginOf(relayUrl) <= Trim(relayUrl, IsSpace)
  {
    OriginAgain(Trim(relayUrl, IsSpace), "");
    assert OriginOf(relayUrl) + "" == OriginOf(relayUrl);
  }
}
