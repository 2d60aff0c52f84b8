/** Which invites and links are accepted, and what is read from them, told by the shape of the text alone. */
module InviteShapes {
  import opened Prelude
  import opened Sequences
  import opened I = Invite
  import RoomText
  import Uri

  // ---- White space ----

  /** What JavaScript trims is what Foundation calls white space, but for the next-line mark and the byte order mark. */
  lemma SpacesCompare(c: char)
    ensures IsSpace(c) <==> (RoomText.IsWhite(c) && c != '\U{85}') || c == '\U{FEFF}'
  {
  }

  // ---- Invite strings ----

  predicate GoodField(value: string) { value != "" && ':' !in value }

  function InviteText(i: Invite): string { "randevu:" + i.sessionId + ":" + i.fingerprint + ":" + i.joinToken }

  lemma TextIsJoin(i: Invite)
    ensures InviteText(i) == Join(["randevu", i.sessionId, i.fingerprint, i.joinToken], ':')
  {
    JoinFour("randevu", i.sessionId, i.fingerprint, i.joinToken);
    hide Join;
    assert "randevu" + [':'] == "randevu:";
  }

  /** An invite is encoded exactly if all three fields are there and free of colons; the first that is not is named. */
  lemma EncodesWhen(i: Invite)
    ensures EncodeInvite(i) ==
            if !GoodField(i.sessionId) then Err("invalid invite field: sessionId")
            else if !GoodField(i.fingerprint) then Err("invalid invite field: fingerprint")
            else if !GoodField(i.joinToken) then Err("invalid invite field: joinToken")
            else Ok(InviteText(i))
  {
    TextIsJoin(i);
  }

  /** A text is read as an invite exactly if it is that invite's text with white space around it. */
  lemma ParsesWhen(input: string, i: Invite)
    ensures ParseInvite(input) == Ok(i) <==>
              GoodField(i.sessionId) && GoodField(i.fingerprint) && GoodField(i.joinToken) && Around(input, InviteText(i), IsSpace)
  {
    hide Around;
    TrimMeans(input, InviteText(i), IsSpace);
    TextIsJoin(i);
    if ParseInvite(input) == Ok(i) {
      ParsedInviteEncodes(input);
    } else if GoodField(i.sessionId) && GoodField(i.fingerprint) && GoodField(i.joinToken) && Trim(input, IsSpace) == InviteText(i) {
      JoinFour("randevu", i.sessionId, i.fingerprint, i.joinToken);
      SplitFour("randevu", i.sessionId, i.fingerprint, i.joinToken);
    }
  }

  // ---- Origins ----

  /** The same letters, of either case. */
  predicate Caseless(s: string, lower: string) {
    |s| == |lower| && forall i :: 0 <= i < |s| ==>
      s[i] == lower[i] || ('a' <= lower[i] <= 'z' && s[i] as int == lower[i] as int - 32)
  }

  lemma LoweredIs(s: string, lower: string)
    requires forall i :: 0 <= i < |lower| ==> !('A' <= lower[i] <= 'Z')
    ensures LowerAll(s) == lower <==> Caseless(s, lower)
  {
    if |s| == |lower| {
      forall i | 0 <= i < |s|
        ensures Lower(s[i]) == lower[i] <==> s[i] == lower[i] || ('a' <= lower[i] <= 'z' && s[i] as int == lower[i] as int - 32)
      {
      }
      if Caseless(s, lower) {
        assert LowerAll(s) == lower;
      }
      if LowerAll(s) == lower {
        assert forall i :: 0 <= i < |s| ==> Lower(s[i]) == lower[i];
      }
    }
  }

  predicate NoBreak(s: string) { '/' !in s && '?' !in s && '#' !in s }

  lemma PlainIs(s: string)
    ensures Plain(s) <==> NoBreak(s)
  {
  }

  /** `http://` or `https://` in any case, and a host. */
  predicate IsOrigin(s: string) {
    || (|s| > 7 && Caseless(s[..7], "http://") && NoBreak(s[7..]))
    || (|s| > 8 && Caseless(s[..8], "https://") && NoBreak(s[8..]))
  }

  predicate EndsAt(s: string, n: nat) {
    n == |s| || (n < |s| && (s[n] == '/' || s[n] == '?' || s[n] == '#'))
  }

  lemma SchemeMeans(s: string)
    ensures SchemeLength(s) == 8 <==> |s| >= 8 && Caseless(s[..8], "https://")
    ensures SchemeLength(s) == 7 <==> |s| >= 7 && Caseless(s[..7], "http://")
    ensures SchemeLength(s) in {0, 7, 8}
  {
    if |s| >= 8 {
      LoweredIs(s[..8], "https://");
    }
    if |s| >= 7 {
      LoweredIs(s[..7], "http://");
      assert s[..7][4] == s[4] && "http://"[4] == ':';
    }
    if |s| >= 8 && Caseless(s[..8], "https://") {
      assert s[..8][4] == s[4] && "https://"[4] == 's';
      assert !Caseless(s[..7], "http://");
    }
  }

  lemma {:induction false} RunMeans(s: string, n: nat)
    requires n <= |s|
    ensures PlainRun(s) == n <==> NoBreak(s[..n]) && EndsAt(s, n)
  {
    if s == "" || Breaks(s[0]) {
      assert n > 0 ==> s[..n][0] == s[0];
    } else if n > 0 {
      RunMeans(s[1..], n - 1);
      assert s[..n] == [s[0]] + s[1..][..n - 1];
    }
  }

  /** The origin of an address is what it starts with up to the path, the query or the fragment. */
  lemma OriginMeans(s: string, n: nat)
    requires 0 < n <= |s|
    ensures OriginLength(s) == n <==> IsOrigin(s[..n]) && EndsAt(s, n)
  {
    SchemeMeans(s);
    SchemeOfFront(s, n);
    var k := SchemeLength(s);
    if 0 < k < n {
      RunMeans(s[k..], n - k);
      assert s[k..][..n - k] == s[..n][k..];
      assert EndsAt(s[k..], n - k) <==> EndsAt(s, n);
    }
    hide Caseless, NoBreak, PlainRun, SchemeLength;
    if IsOrigin(s[..n]) {
      assert k == 7 ==> s[..n][..7] == s[..7];
      assert 0 < k < n;
      assert NoBreak(s[..n][k..]);
    }
  }

  /** The front of an address has its scheme. */
  lemma SchemeOfFront(s: string, n: nat)
    requires n <= |s|
    ensures n > 7 ==> (Caseless(s[..n][..7], "http://") <==> SchemeLength(s) == 7)
    ensures n > 8 ==> (Caseless(s[..n][..8], "https://") <==> SchemeLength(s) == 8)
  {
    SchemeMeans(s);
    if n > 7 {
      assert s[..n][..7] == s[..7];
    }
    if n > 8 {
      assert s[..n][..8] == s[..8];
    }
  }

  // ---- Join links ----

  predicate Sendable(i: Invite) {
    && i.sessionId != "" && NoBreak(i.sessionId)
    && i.fingerprint != "" && '.' !in i.fingerprint
    && i.joinToken != "" && '.' !in i.joinToken
  }

  /** The relay address, white space aside, starts with this origin. */
  ghost predicate OriginIn(relayUrl: string, origin: string) {
    exists core, n: nat :: 0 < n <= |core| && Around(relayUrl, core, IsSpace) && core[..n] == origin && IsOrigin(origin) && EndsAt(core, n)
  }

  function LinkText(origin: string, i: Invite, kind: string): string {
    origin + "/j/" + i.sessionId + "#" + i.fingerprint + "." + i.joinToken + if kind == "" then "" else "." + Uri.Encode(kind)
  }

  lemma LinkTextIs(origin: string, i: Invite, kind: string)
    ensures LinkText(origin, i, kind) == origin + "/j/" + i.sessionId + "#" + Fragment(i, kind)
  {
    hide Uri.Encode;
    var front := origin + "/j/" + i.sessionId + "#";
    var rest := if kind == "" then "" else "." + Uri.Encode(kind);
    assert front + i.fingerprint + "." + i.joinToken + rest == front + (i.fingerprint + "." + (i.joinToken + rest));
  }

  lemma OriginFound(relayUrl: string, origin: string)
    ensures OriginIn(relayUrl, origin) <==>
            OriginLength(Trim(relayUrl, IsSpace)) > 0 && origin == OriginOf(relayUrl)
  {
    hide IsOrigin, OriginLength, Around, EndsAt;
    var url := Trim(relayUrl, IsSpace);
    if OriginIn(relayUrl, origin) {
      var core, n: nat :| 0 < n <= |core| && Around(relayUrl, core, IsSpace) && core[..n] == origin && IsOrigin(origin) && EndsAt(core, n);
      TrimMeans(relayUrl, core, IsSpace);
      OriginMeans(core, n);
    }
    if OriginLength(url) > 0 && origin == OriginOf(relayUrl) {
      var n: nat := OriginLength(url);
      assert url != "";
      TrimMeans(relayUrl, url, IsSpace);
      OriginMeans(url, n);
      assert Around(relayUrl, url, IsSpace) && url[..n] == origin;
    }
  }

  /** A link is made exactly from sendable fields and an address with an origin, and spells origin, id and fragment. */
  lemma EncodesLinkWhen(relayUrl: string, i: Invite, kind: string, text: string)
    ensures EncodeJoinLink(relayUrl, i, kind) == Ok(text) <==>
              Sendable(i) && exists origin :: OriginIn(relayUrl, origin) && text == LinkText(origin, i, kind)
  {
    hide OriginIn, OriginLength, Fragment, LinkText, Uri.Encode;
    PlainIs(i.sessionId);
    OriginFound(relayUrl, OriginOf(relayUrl));
    LinkTextIs(OriginOf(relayUrl), i, kind);
    if origin :| OriginIn(relayUrl, origin) && text == LinkText(origin, i, kind) {
      OriginFound(relayUrl, origin);
    }
  }

  predicate OnOneLine(s: string) { '\n' !in s && '\r' !in s && '\U{2028}' !in s && '\U{2029}' !in s }

  /** An origin, `/j/` in either case, a path segment, `#`, and the rest of the line. */
  ghost predicate LinkShape(text: string, relay: string, slash: string, raw: string, fragment: string) {
    && IsOrigin(relay) && Caseless(slash, "/j/") && raw != "" && NoBreak(raw)
    && fragment != "" && OnOneLine(fragment)
    && text == relay + slash + raw + "#" + fragment
  }

  lemma MatchedShape(text: string)
    requires MatchLink(text).Some?
    ensures
      var (relay, raw, fragment) := MatchLink(text).value;
      exists slash :: LinkShape(text, relay, slash, raw, fragment)
  {
    hide OriginLength, IsOrigin, EndsAt, NoBreak, PlainRun, Caseless, LowerAll, NoTerminator, OnOneLine;
    var n := OriginLength(text);
    var (relay, raw, fragment) := MatchLink(text).value;
    OriginMeans(text, n);
    var slash, path := text[n..][..3], text[n..][3..];
    LoweredIs(slash, "/j/");
    RunMeans(path, |raw|);
    Reassembled(text, n, |raw|);
    OneLineIs(fragment);
    assert LinkShape(text, relay, slash, raw, fragment);
  }

  lemma OneLineIs(s: string)
    ensures NoTerminator(s) <==> OnOneLine(s)
  {
  }

  lemma Reassembled(text: string, n: nat, m: nat)
    requires n + 3 + m < |text| && text[n + 3 + m] == '#'
    ensures
      var path := text[n..][3..];
      text == text[..n] + text[n..][..3] + path[..m] + "#" + path[m + 1..]
  {
    var rest := text[n..];
    var path := rest[3..];
    CutAt(text, n);
    CutAt(rest, 3);
    assert path == path[..m] + ("#" + path[m + 1..]) by {
      CutAt(path, m);
      assert path[m..] == "#" + path[m + 1..];
    }
    Flattened(text[..n], rest[..3], path[..m], "#", path[m + 1..]);
  }

  lemma CutAt(s: string, n: nat)
    requires n <= |s|
    ensures s == s[..n] + s[n..]
  {
  }

  lemma Flattened(a: string, b: string, c: string, d: string, e: string)
    ensures a + (b + (c + (d + e))) == a + b + c + d + e
  {
  }

  lemma ShapeMatches(text: string, relay: string, slash: string, raw: string, fragment: string)
    requires LinkShape(text, relay, slash, raw, fragment)
    ensures MatchLink(text) == Some((relay, raw, fragment))
  {
    hide OriginLength, IsOrigin, NoBreak, PlainRun, LowerAll;
    var path := raw + ("#" + fragment);
    assert text == relay + (slash + path);
    assert text[..|relay|] == relay && text[|relay|..] == slash + path && text[|relay|] == slash[0] == '/';
    assert relay != "" by { OriginNotEmpty(relay); }
    OriginMeans(text, |relay|);
    assert (slash + path)[..3] == slash && (slash + path)[3..] == path;
    LoweredIs(slash, "/j/");
    RunMeans(path, |raw|);
    assert path[..|raw|] == raw && path[|raw|] == '#' && path[|raw| + 1..] == fragment;
    assert NoTerminator(fragment);
  }

  lemma OriginNotEmpty(relay: string)
    requires IsOrigin(relay)
    ensures relay != ""
  {
  }

  /** Fingerprint, token, and whatever follows a second dot. */
  ghost predicate FragmentShape(fragment: string, fingerprint: string, token: string, rawKind: Option<string>) {
    && fingerprint != "" && '.' !in fingerprint && token != "" && '.' !in token
    && fragment == fingerprint + "." + token + match rawKind case None => "" case Some(raw) => "." + raw
  }

  lemma FragmentMeans(fragment: string, fingerprint: string, token: string, rawKind: Option<string>)
    ensures FragmentShape(fragment, fingerprint, token, rawKind) <==>
            ReadFragment(fragment) == (fingerprint, token, rawKind) && fingerprint != "" && token != ""
  {
    if FragmentShape(fragment, fingerprint, token, rawKind) {
      FragmentReads(fingerprint, token);
      if rawKind.Some? {
        FragmentWithKindReads(fingerprint, token, rawKind.value);
        assert fragment == fingerprint + ['.'] + (token + (['.'] + rawKind.value));
      } else {
        assert fragment == fingerprint + ['.'] + token;
      }
    }
    if ReadFragment(fragment) == (fingerprint, token, rawKind) && fingerprint != "" && token != "" {
      FragmentRead(fragment);
    }
  }

  lemma FragmentRead(fragment: string)
    requires ReadFragment(fragment).0 != "" && ReadFragment(fragment).1 != ""
    ensures FragmentShape(fragment, ReadFragment(fragment).0, ReadFragment(fragment).1, ReadFragment(fragment).2)
  {
    var parts := Split(fragment, '.');
    PartsAreFree(fragment, '.');
    JoinUndoesSplit(fragment, '.');
    hide Split;
    assert parts[0] in parts && parts[1] in parts;
    JoinedParts(parts);
  }

  lemma JoinedParts(parts: seq<string>)
    requires |parts| > 1
    ensures Join(parts, '.') == parts[0] + "." + parts[1] + if |parts| > 2 then "." + Join(parts[2..], '.') else ""
  {
    assert parts[1..][0] == parts[1];
    if |parts| > 2 {
      assert parts[1..][1..] == parts[2..];
      assert Join(parts[1..], '.') == parts[1] + ['.'] + Join(parts[2..], '.');
    }
  }

  /** The kind a link carries: none, or the decoded one unless it is empty. */
  predicate KindRead(rawKind: Option<string>, kind: Option<string>) {
    match rawKind
    case None => kind == None
    case Some(raw) => Uri.Decode(raw).Some? && kind == if Uri.Decode(raw).value == "" then None else Uri.Decode(raw)
  }

  /** The text is a link for this invite. */
  ghost predicate Spells(text: string, l: JoinLink) {
    exists slash, raw, fragment, rawKind ::
      && LinkShape(text, l.relayUrl, slash, raw, fragment)
      && FragmentShape(fragment, l.invite.fingerprint, l.invite.joinToken, rawKind)
      && Uri.Decode(raw) == Some(l.invite.sessionId) && l.invite.sessionId != ""
      && KindRead(rawKind, l.kind)
  }

  /** A text is read as a join link exactly if, white space aside, it spells that link. */
  lemma LinkParsesWhen(link: string, l: JoinLink)
    ensures ParseJoinLink(link) == Ok(l) <==> exists text :: text != "" && Around(link, text, IsSpace) && Spells(text, l)
  {
    hide Around, LinkShape, FragmentShape, MatchLink, ReadFragment, Uri.Decode, Trim;
    var core := Trim(link, IsSpace);
    if ParseJoinLink(link) == Ok(l) {
      MatchedShape(core);
      var (relay, raw, fragment) := MatchLink(core).value;
      var (fingerprint, token, rawKind) := ReadFragment(fragment);
      FragmentMeans(fragment, fingerprint, token, rawKind);
      assert core != "" by { ShapeNotEmpty(core, relay, raw, fragment); }
      TrimMeans(link, core, IsSpace);
      var slash :| LinkShape(core, relay, slash, raw, fragment);
      assert Spells(core, l);
    }
    if text :| text != "" && Around(link, text, IsSpace) && Spells(text, l) {
      TrimMeans(link, text, IsSpace);
      var slash, raw, fragment, rawKind :|
        && LinkShape(text, l.relayUrl, slash, raw, fragment)
        && FragmentShape(fragment, l.invite.fingerprint, l.invite.joinToken, rawKind)
        && Uri.Decode(raw) == Some(l.invite.sessionId) && l.invite.sessionId != ""
        && KindRead(rawKind, l.kind);
      ShapeMatches(text, l.relayUrl, slash, raw, fragment);
      FragmentMeans(fragment, l.invite.fingerprint, l.invite.joinToken, rawKind);
    }
  }

  lemma ShapeNotEmpty(text: string, relay: string, raw: string, fragment: string)
    requires exists slash :: LinkShape(text, relay, slash, raw, fragment)
    ensures text != ""
  {
    hide IsOrigin, Caseless, NoBreak;
  }
}
