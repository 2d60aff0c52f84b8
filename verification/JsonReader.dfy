/** Canonical text read back: a reader for the grammar of RFC 8259, without white space, finds the printed value. */
module JsonReader {
  import opened Prelude
  import opened Decimals
  import opened Sequences
  import opened Sorting
  import opened Store
  import opened CanonicalJson

  // ---- The reader ----

  /** The text up to the closing quote, and what follows it. */
  function ReadText(s: string): (r: Option<(string, string)>)
    ensures r.Some? ==> |r.value.1| < |s|
    decreases |s|
  {
    if s == [] then None
    else if s[0] == '"' then Some(([], s[1..]))
    else
      var first := ReadChar(s);
      if first.None? then None
      else
        var rest := ReadText(first.value.1);
        if rest.None? then None else Some(([first.value.0] + rest.value.0, rest.value.1))
  }

  function ReadValue(s: string): (r: Option<(Json, string)>)
    ensures r.Some? ==> |r.value.1| < |s|
    decreases |s|, 0
  {
    if StartsWith(s, "null") then Some((Null, s[4..]))
    else if StartsWith(s, "true") then Some((Bool(true), s[4..]))
    else if StartsWith(s, "false") then Some((Bool(false), s[5..]))
    else if s == [] then None
    else if s[0] == '"' then
      var text := ReadText(s[1..]);
      if text.None? then None else Some((Str(text.value.0), text.value.1))
    else if s[0] == '[' then
      if |s| > 1 && s[1] == ']' then Some((Arr([]), s[2..]))
      else
        var items := ReadItems(s[1..]);
        if items.None? then None else Some((Arr(items.value.0), items.value.1))
    else if s[0] == '{' then
      if |s| > 1 && s[1] == '}' then Some((Obj([]), s[2..]))
      else
        var fields := ReadFields(s[1..]);
        if fields.None? then None else Some((Obj(fields.value.0), fields.value.1))
    else if NumberToken(s[..Span(s)]) then Some((Number(s[..Span(s)]), s[Span(s)..]))
    else None
  }

  /** Values with commas between them, up to the closing bracket. */
  function ReadItems(s: string): (r: Option<(seq<Json>, string)>)
    ensures r.Some? ==> |r.value.1| < |s|
    decreases |s|, 1
  {
    var first := ReadValue(s);
    if first.None? then None
    else
      var rest := first.value.1;
      if rest != [] && rest[0] == ']' then Some(([first.value.0], rest[1..]))
      else if rest != [] && rest[0] == ',' then
        var others := ReadItems(rest[1..]);
        if others.None? then None else Some(([first.value.0] + others.value.0, others.value.1))
      else None
  }

  /** Names and values with commas between them, up to the closing brace. */
  function ReadFields(s: string): (r: Option<(JsMap<string, Json>, string)>)
    ensures r.Some? ==> |r.value.1| < |s|
    decreases |s|, 1
  {
    if s == [] || s[0] != '"' then None
    else
      var name := ReadText(s[1..]);
      if name.None? || name.value.1 == [] || name.value.1[0] != ':' then None
      else
        var first := ReadValue(name.value.1[1..]);
        if first.None? then None
        else
          var field, rest := (name.value.0, first.value.0), first.value.1;
          if rest != [] && rest[0] == '}' then Some(([field], rest[1..]))
          else if rest != [] && rest[0] == ',' then
            var others := ReadFields(rest[1..]);
            if others.None? then None else Some(([field] + others.value.0, others.value.1))
          else None
  }

  // ---- Reading what was printed ----

  /** Object keys ascend at every level. */
  ghost predicate KeysInOrder(v: Json) {
    match v
    case Arr(items) => forall i :: 0 <= i < |items| ==> KeysInOrder(items[i])
    case Obj(fields) =>
      && (forall i, j :: 0 <= i < j < |fields| ==> Less(fields[i].0, fields[j].0))
      && (forall i :: 0 <= i < |fields| ==> KeysInOrder(fields[i].1))
    case _ => true
  }

  lemma {:induction false} TextReadsBack(s: string, x: string)
    ensures ReadText(EscapeAll(s) + "\"" + x) == Some((s, x))
  {
    var all := EscapeAll(s) + "\"" + x;
    if s == [] {
      assert all == ['"'] + x && all[1..] == x;
    } else {
      TextReadsBack(s[1..], x);
      TextStep(s, x);
      assert s == [s[0]] + s[1..];
    }
  }

  lemma TextStep(s: string, x: string)
    requires s != []
    ensures var rest := EscapeAll(s[1..]) + "\"" + x;
            EscapeAll(s) + "\"" + x != [] && (EscapeAll(s) + "\"" + x)[0] != '"'
            && ReadChar(EscapeAll(s) + "\"" + x) == Some((s[0], rest))
  {
    var rest := EscapeAll(s[1..]) + "\"" + x;
    QuotedStep(s, x);
    QuotedEnd(s, x);
    hide *;
    CharReadsBack(s[0], rest);
  }

  lemma QuoteReadsBack(s: string, x: string)
    ensures Quote(s) + x != [] && (Quote(s) + x)[0] == '"' && ReadText((Quote(s) + x)[1..]) == Some((s, x))
  {
    TextReadsBack(s, x);
    assert (Quote(s) + x)[1..] == EscapeAll(s) + "\"" + x;
  }

  lemma WordReadsBack(v: Json, x: string)
    requires v.Null? || v.Bool?
    ensures ReadValue(Jcs(v) + x) == Some((v, x))
  {
    var s := Jcs(v) + x;
    assert s[0] == Jcs(v)[0] && s[..|Jcs(v)|] == Jcs(v) && s[|Jcs(v)|..] == x;
    assert StartsWith(s, Jcs(v));
    assert s[0] != 'n' ==> !StartsWith(s, "null");
    assert s[0] != 't' ==> !StartsWith(s, "true");
  }

  lemma NumberReadsBack(token: string, x: string)
    requires NumberToken(token) && Follows(x)
    ensures ReadValue(token + x) == Some((Number(token), x))
  {
    var s := token + x;
    SpanOfToken(token, x);
    assert s[0] == token[0] && s[..|token|] == token && s[|token|..] == x;
    NotAWord(s);
  }

  lemma NotAWord(s: string)
    requires s != [] && s[0] != 'n' && s[0] != 't' && s[0] != 'f'
    ensures !StartsWith(s, "null") && !StartsWith(s, "true") && !StartsWith(s, "false")
  {
    if |s| >= 4 {
      assert s[..4][0] == s[0];
    }
    if |s| >= 5 {
      assert s[..5][0] == s[0];
    }
  }

  lemma StringReadsBack(text: string, x: string)
    ensures ReadValue(Jcs(Str(text)) + x) == Some((Str(text), x))
  {
    QuoteReadsBack(text, x);
    NotAWord(Quote(text) + x);
  }

  lemma {:induction false} ItemsReadBack(a: seq<Json>, x: string) returns (b: seq<Json>)
    requires a != [] && forall i :: 0 <= i < |a| ==> WellFormed(a[i])
    requires Follows(x)
    ensures ReadItems(Jcs(a[0]) + (Tail(JcsAll(a[1..]), ']') + x)) == Some((b, x))
    ensures |b| == |a| && forall i :: 0 <= i < |a| ==> Same(a[i], b[i]) && KeysInOrder(b[i])
    decreases a, 1
  {
    hide Same, KeysInOrder, WellFormed, Jcs, ReadValue;
    var rest := Tail(JcsAll(a[1..]), ']') + x;
    TailFollows(JcsAll(a[1..]), ']', x);
    var first := ReadsBack(a[0], rest);
    NoItems(a[1..], x);
    if |a| == 1 {
      b := [first];
      assert rest == [']'] + x && rest[1..] == x;
    } else {
      TailStep(JcsAll(a[1..]), ']', x);
      assert JcsAll(a[1..])[0] == Jcs(a[1..][0]) && JcsAll(a[1..])[1..] == JcsAll(a[1..][1..]);
      var others := ItemsReadBack(a[1..], x);
      b := [first] + others;
      assert rest[0] == ',' && rest[1..] == Jcs(a[1..][0]) + (Tail(JcsAll(a[1..][1..]), ']') + x);
      forall i | 0 <= i < |a| ensures Same(a[i], b[i]) && KeysInOrder(b[i]) {
        if i > 0 {
          assert a[i] == a[1..][i - 1] && b[i] == others[i - 1];
        }
      }
    }
  }

  /** The fields with these keys, in this order, each the same as printed. */
  ghost predicate FieldsAre(fields: JsMap<string, Json>, ks: seq<string>, g: JsMap<string, Json>) {
    |g| == |ks| && forall i :: 0 <= i < |ks| ==>
      g[i].0 == ks[i] && Get(fields, ks[i]).Some? && Same(Get(fields, ks[i]).value, g[i].1) && KeysInOrder(g[i].1)
  }

  function FieldText(fields: JsMap<string, Json>, k: string, rest: string): string
    requires Get(fields, k).Some?
  {
    Quote(k) + ([':'] + (Jcs(Get(fields, k).value) + rest))
  }

  lemma {:induction false} FieldsReadBack(v: Json, ks: seq<string>, x: string) returns (g: JsMap<string, Json>)
    requires v.Obj? && WellFormed(v) && ks != [] && HasKeys(v.fields, ks) && Follows(x)
    ensures ReadFields(FieldText(v.fields, ks[0], Tail(MembersOf(v.fields, ks[1..]), '}') + x)) == Some((g, x))
    ensures FieldsAre(v.fields, ks, g)
    decreases v, 1, |ks|
  {
    hide Same, KeysInOrder, WellFormed, Jcs, ReadValue, MembersOf, Quote;
    var rest := Tail(MembersOf(v.fields, ks[1..]), '}') + x;
    TailFollows(MembersOf(v.fields, ks[1..]), '}', x);
    var first := FieldReadsBack(v, ks[0], rest);
    MembersCount(v.fields, ks[1..]);
    if |ks| == 1 {
      g := [(ks[0], first)];
      assert rest == ['}'] + x && rest[1..] == x;
    } else {
      MemberOpened(v.fields, ks[1..], x);
      var others := FieldsReadBack(v, ks[1..], x);
      g := [(ks[0], first)] + others;
      assert rest[0] == ',' && rest[1..] == FieldText(v.fields, ks[1..][0], Tail(MembersOf(v.fields, ks[1..][1..]), '}') + x);
      AddField(v.fields, ks, (ks[0], first), others);
    }
  }

  lemma AddField(fields: JsMap<string, Json>, ks: seq<string>, field: (string, Json), others: JsMap<string, Json>)
    requires ks != [] && FieldsAre(fields, ks[1..], others) && FieldsAre(fields, [ks[0]], [field])
    ensures FieldsAre(fields, ks, [field] + others)
  {
    hide Same, KeysInOrder;
    assert ks == [ks[0]] + ks[1..];
    assert [ks[0]][0] == ks[0] && [field][0] == field;
    forall i | 0 < i < |ks| ensures ks[i] == ks[1..][i - 1] && ([field] + others)[i] == others[i - 1] {
    }
  }

  /** One name and value in front of a separator. */
  lemma FieldReadsBack(v: Json, k: string, rest: string) returns (w: Json)
    requires v.Obj? && WellFormed(v) && Get(v.fields, k).Some? && Follows(rest)
    ensures Same(Get(v.fields, k).value, w) && KeysInOrder(w)
    ensures
      var s := FieldText(v.fields, k, rest);
      && s != [] && s[0] == '"' && ReadText(s[1..]).Some?
      && var name := ReadText(s[1..]).value;
      name.0 == k && name.1 != [] && name.1[0] == ':' && ReadValue(name.1[1..]) == Some((w, rest))
    decreases v, 0
  {
    hide Same, KeysInOrder, Jcs, ReadValue, WellFormed, Quote;
    var i := WellFormedField(v, k);
    w := ReadsBack(v.fields[i].1, rest);
    var value := Jcs(Get(v.fields, k).value) + rest;
    QuoteReadsBack(k, [':'] + value);
    assert ([':'] + value)[1..] == value;
  }

  lemma ArrayReadsBack(items: seq<Json>, x: string) returns (w: Json)
    requires forall i :: 0 <= i < |items| ==> WellFormed(items[i])
    requires Follows(x)
    ensures ReadValue(Jcs(Arr(items)) + x) == Some((w, x)) && Same(Arr(items), w) && KeysInOrder(w)
    decreases items, 2
  {
    var s := Jcs(Arr(items)) + x;
    ArrayText(items, x);
    NotAWord(s);
    if items == [] {
      w := Arr([]);
      assert s[2..] == x;
    } else {
      FirstTells(items[0]);
      hide Jcs, WellFormed, ReadItems;
      var b := ItemsReadBack(items, x);
      w := Arr(b);
      assert s[1..] == Jcs(items[0]) + (Tail(JcsAll(items[1..]), ']') + x);
      assert s[1] == Jcs(items[0])[0];
    }
  }

  lemma ArrayText(items: seq<Json>, x: string)
    ensures items == [] ==> Jcs(Arr(items)) + x == "[]" + x
    ensures items != [] ==> Jcs(Arr(items)) + x == ['['] + (Jcs(items[0]) + (Tail(JcsAll(items[1..]), ']') + x))
  {
    JoinIsTail(JcsAll(items), ']');
    hide Join, Tail;
    if items != [] {
      assert JcsAll(items)[0] == Jcs(items[0]) && JcsAll(items)[1..] == JcsAll(items[1..]);
      assert Jcs(Arr(items)) == ['['] + (Join(JcsAll(items), ',') + [']']);
    }
  }

  lemma ObjectText(fields: JsMap<string, Json>, ks: seq<string>, x: string)
    requires ks == Sort(AtMost, KeysOf(fields)) && HasKeys(fields, ks)
    ensures ks == [] ==> Jcs(Obj(fields)) + x == "{}" + x
    ensures ks != [] ==> Jcs(Obj(fields)) + x == ['{'] + FieldText(fields, ks[0], Tail(MembersOf(fields, ks[1..]), '}') + x)
  {
    JoinIsTail(MembersOf(fields, ks), '}');
    hide Join, Tail, Sort, KeysOf, Quote;
    assert Jcs(Obj(fields)) == ['{'] + (Join(MembersOf(fields, ks), ',') + ['}']);
    hide Jcs;
    if ks != [] {
      MemberIs(fields, ks);
      RegroupMember(Quote(ks[0]), Jcs(Get(fields, ks[0]).value), Tail(MembersOf(fields, ks[1..]), '}') + x);
    }
  }

  /** An object with the same fields, listed by ascending key. */
  lemma SameInOrder(v: Json, ks: seq<string>, g: JsMap<string, Json>)
    requires v.Obj? && WellFormed(v) && ks == Sort(AtMost, KeysOf(v.fields)) && FieldsAre(v.fields, ks, g)
    ensures Same(v, Obj(g)) && KeysInOrder(Obj(g))
  {
    var fields := v.fields;
    SortedKeysAre(fields);
    KeysAscend(fields);
    LessMeansDifferent(ks);
    assert Distinct(g);
    forall i: nat | i < |fields| ensures Get(g, fields[i].0).Some? && Same(fields[i].1, Get(g, fields[i].0).value) {
      EntryIsGot(fields, i);
      assert fields[i].0 in ks;
      var j: nat :| j < |ks| && ks[j] == fields[i].0;
      EntryIsGot(g, j);
    }
    forall i | 0 <= i < |g| ensures Get(fields, g[i].0).Some? {
      assert g[i].0 == ks[i];
    }
  }

  lemma LessMeansDifferent(ks: seq<string>)
    requires StrictlySorted(ks)
    ensures forall i, j :: 0 <= i < j < |ks| ==> ks[i] != ks[j]
  {
    forall i, j | 0 <= i < j < |ks| ensures ks[i] != ks[j] {
      LessTrichotomy(ks[i], ks[j]);
    }
  }

  lemma ObjectReadsBack(v: Json, x: string) returns (w: Json)
    requires v.Obj? && WellFormed(v) && Follows(x)
    ensures ReadValue(Jcs(v) + x) == Some((w, x)) && Same(v, w) && KeysInOrder(w)
    decreases v, 2
  {
    hide WellFormed, Same, KeysInOrder, Sort, KeysOf, Jcs, ReadFields, MembersOf, Quote;
    var ks := Sort(AtMost, KeysOf(v.fields));
    SortedKeysAre(v.fields);
    ObjectText(v.fields, ks, x);
    var s := Jcs(v) + x;
    NotAWord(s);
    var g: JsMap<string, Json> := [];
    if ks == [] {
      assert s[2..] == x;
    } else {
      g := FieldsReadBack(v, ks, x);
      assert s[1..] == FieldText(v.fields, ks[0], Tail(MembersOf(v.fields, ks[1..]), '}') + x);
      FieldOpens(v.fields, ks[0], Tail(MembersOf(v.fields, ks[1..]), '}') + x);
    }
    SameInOrder(v, ks, g);
    w := Obj(g);
  }

  lemma FieldOpens(fields: JsMap<string, Json>, k: string, rest: string)
    requires Get(fields, k).Some?
    ensures FieldText(fields, k, rest) != [] && FieldText(fields, k, rest)[0] == '"'
  {
    hide Jcs;
  }

  lemma NumberPrint(token: string)
    requires WellFormed(Number(token))
    ensures NumberToken(token) && Jcs(Number(token)) == token
  {
  }

  /** Canonical text in front of other text is read as the printed value, with its object keys ascending, and no further. */
  lemma {:induction false} ReadsBack(v: Json, x: string) returns (w: Json)
    requires WellFormed(v) && Follows(x)
    ensures ReadValue(Jcs(v) + x) == Some((w, x)) && Same(v, w) && KeysInOrder(w)
    decreases v, 3
  {
    hide Jcs, ReadValue;
    match v
    case Arr(items) => w := ArrayReadsBack(items, x);
    case Obj(_) => w := ObjectReadsBack(v, x);
    case Str(text) =>
      StringReadsBack(text, x);
      w := v;
    case Number(token) =>
      NumberPrint(token);
      NumberReadsBack(token, x);
      w := v;
    case _ =>
      WordReadsBack(v, x);
      w := v;
  }

  /** The canonical text of a value is JSON for it: a reader gets the value back, its object keys ascending. */
  lemma CanonicalReadsBack(v: Json)
    requires WellFormed(v)
    ensures ReadValue(Jcs(v)).Some?
    ensures var (w, rest) := ReadValue(Jcs(v)).value; rest == [] && Same(v, w) && KeysInOrder(w)
  {
    hide *;
    NothingFollows();
    var w := ReadsBack(v, []);
    assert Jcs(v) + [] == Jcs(v);
  }

  lemma NothingFollows()
    ensures Follows([])
  {
  }
}
