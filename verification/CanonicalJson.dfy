/** Canonical JSON: one text per value, whatever the order of object keys. Characters stand for UTF-16 code units. */
module CanonicalJson {
  import opened Prelude
  import opened Decimals
  import opened Sequences
  import opened Sorting
  import Store

  /** A number is its printed token; an object lists its fields in insertion order. */
  datatype Json =
    | Null
    | Bool(value: bool)
    | Number(token: string)
    | Str(text: string)
    | Arr(items: seq<Json>)
    | Obj(fields: JsMap<string, Json>)

  // ---- Strings ----

  function HexDigit(n: nat): char
    requires n < 16
  {
    if n < 10 then ('0' as nat + n) as char else ('a' as nat + n - 10) as char
  }

  /** `JSON.stringify` on one character inside a string. */
  function Escape(c: char): string {
    if c == '"' then "\\\""
    else if c == '\\' then "\\\\"
    else if c == 8 as char then "\\b"
    else if c == 9 as char then "\\t"
    else if c == 10 as char then "\\n"
    else if c == 12 as char then "\\f"
    else if c == 13 as char then "\\r"
    else if c < 32 as char then "\\u00" + [HexDigit(c as nat / 16), HexDigit(c as nat % 16)]
    else [c]
  }

  function EscapeAll(s: string): string {
    if s == [] then [] else Escape(s[0]) + EscapeAll(s[1..])
  }

  function Quote(s: string): string { "\"" + EscapeAll(s) + "\"" }

  // ---- Printing ----

  function KeysOf<V>(fields: JsMap<string, V>): (keys: seq<string>)
    ensures |keys| == |fields|
    ensures forall i :: 0 <= i < |keys| ==> keys[i] == fields[i].0
  {
    seq(|fields|, i requires 0 <= i < |fields| => fields[i].0)
  }

  function Jcs(v: Json): string
    decreases v, 0
  {
    match v
    case Null => "null"
    case Bool(b) => if b then "true" else "false"
    case Number(token) => token
    case Str(text) => Quote(text)
    case Arr(items) => "[" + Join(JcsAll(items), ',') + "]"
    case Obj(fields) => "{" + Join(Members(JcsFields(fields), Sort(AtMost, KeysOf(fields))), ',') + "}"
  }

  function JcsAll(items: seq<Json>): (r: seq<string>)
    ensures |r| == |items|
    decreases items, 1
  {
    if items == [] then [] else [Jcs(items[0])] + JcsAll(items[1..])
  }

  /** Each field's value in print. */
  function JcsFields(fields: JsMap<string, Json>): (r: JsMap<string, string>)
    ensures |r| == |fields|
    decreases fields, 1
  {
    if fields == [] then []
    else
      var field := fields[0];
      assert field.1 < field;
      [(field.0, Jcs(field.1))] + JcsFields(fields[1..])
  }

  function Member(printed: JsMap<string, string>, key: string): string {
    Quote(key) + ":" + if Get(printed, key).Some? then Get(printed, key).value else ""
  }

  function Members(printed: JsMap<string, string>, keys: seq<string>): (r: seq<string>)
    ensures |r| == |keys|
  {
    if keys == [] then [] else [Member(printed, keys[0])] + Members(printed, keys[1..])
  }

  // ---- Well-formed values, and when two are the same ----

  predicate NumberChar(c: char) { IsDigit(c) || c == '-' || c == '+' || c == '.' || c == 'e' }

  predicate NumberToken(token: string) {
    token != [] && (IsDigit(token[0]) || token[0] == '-') && forall c <- token :: NumberChar(c)
  }

  ghost predicate WellFormed(v: Json) {
    match v
    case Number(token) => NumberToken(token)
    case Arr(items) => forall i :: 0 <= i < |items| ==> WellFormed(items[i])
    case Obj(fields) => Distinct(fields) && forall i :: 0 <= i < |fields| ==> WellFormed(fields[i].1)
    case _ => true
  }

  /** The same value: arrays item by item, objects field by field whatever the order of their keys. */
  ghost predicate Same(v: Json, w: Json)
    decreases v
  {
    match v
    case Arr(items) =>
      w.Arr? && |items| == |w.items| && forall i :: 0 <= i < |items| ==> Same(items[i], w.items[i])
    case Obj(fields) =>
      && w.Obj?
      && (forall i :: 0 <= i < |fields| ==>
            Get(w.fields, fields[i].0).Some? && Same(fields[i].1, Get(w.fields, fields[i].0).value))
      && (forall i :: 0 <= i < |w.fields| ==> Get(fields, w.fields[i].0).Some?)
    case _ => v == w
  }

  // ---- Same values print the same ----

  lemma KeysMatch(f: JsMap<string, Json>, g: JsMap<string, Json>)
    requires Distinct(f) && Distinct(g)
    requires forall i :: 0 <= i < |f| ==> Get(g, f[i].0).Some?
    requires forall i :: 0 <= i < |g| ==> Get(f, g[i].0).Some?
    ensures Sort(AtMost, KeysOf(f)) == Sort(AtMost, KeysOf(g))
  {
    var a, b := Sort(AtMost, KeysOf(f)), Sort(AtMost, KeysOf(g));
    KeysAscend(f);
    KeysAscend(g);
    forall k ensures k in KeysOf(f) <==> k in KeysOf(g) {
      if k in KeysOf(f) {
        var i :| 0 <= i < |f| && f[i].0 == k;
        GetIsEntry(g, k);
        var j :| 0 <= j < |g| && g[j] == (k, Get(g, k).value);
        assert KeysOf(g)[j] == k;
      }
      if k in KeysOf(g) {
        var i :| 0 <= i < |g| && g[i].0 == k;
        GetIsEntry(f, k);
        var j :| 0 <= j < |f| && f[j] == (k, Get(f, k).value);
        assert KeysOf(f)[j] == k;
      }
    }
    Store.SameKeysSameOrder(a, b);
  }

  /** Sorted keys of an object without duplicates ascend strictly. */
  lemma KeysAscend(f: JsMap<string, Json>)
    requires Distinct(f)
    ensures Store.StrictlySorted(Sort(AtMost, KeysOf(f)))
  {
    var keys := KeysOf(f);
    AtMostIsOrder();
    SortSorts(AtMost, keys);
    assert AllDifferent(keys);
    SortKeepsDifferent(AtMost, keys);
  }

  lemma AtMostIsOrder()
    ensures TotalPreorder(AtMost)
  {
    forall a: string, b: string ensures AtMost(a, b) || AtMost(b, a) {
      LessTrichotomy(a, b);
    }
    forall a: string, b: string, c: string | AtMost(a, b) && AtMost(b, c) ensures AtMost(a, c) {
      if a != b && b != c {
        LessTransitive(a, b, c);
      }
    }
  }

  lemma {:induction false} PrintedField(fields: JsMap<string, Json>, key: string)
    ensures Get(JcsFields(fields), key) == match Get(fields, key) case None => None case Some(v) => Some(Jcs(v))
  {
    if fields != [] && fields[0].0 != key {
      PrintedField(fields[1..], key);
      assert JcsFields(fields)[1..] == JcsFields(fields[1..]);
    }
  }

  lemma {:induction false} SameMembers(a: JsMap<string, string>, b: JsMap<string, string>, keys: seq<string>)
    requires forall k <- keys :: Get(a, k) == Get(b, k)
    ensures Members(a, keys) == Members(b, keys)
  {
    if keys != [] {
      SameMembers(a, b, keys[1..]);
    }
  }

  lemma {:induction false} SamePrints(v: Json, w: Json)
    requires WellFormed(v) && WellFormed(w) && Same(v, w)
    ensures Jcs(v) == Jcs(w)
    decreases v, 0
  {
    hide Jcs, JcsFields, JcsAll;
    match v
    case Arr(items) =>
      SameItemsPrint(items, w.items);
      ArrayPrint(items, w.items);
    case Obj(fields) =>
      forall k | k in Sort(AtMost, KeysOf(fields)) ensures Get(JcsFields(fields), k) == Get(JcsFields(w.fields), k) {
        var i: nat :| i < |fields| && fields[i].0 == k;
        PrintedField(fields, k);
        PrintedField(w.fields, k);
        EntryIsGot(fields, i);
        GetIsEntry(w.fields, k);
        var j: nat :| j < |w.fields| && w.fields[j] == (k, Get(w.fields, k).value);
        SamePrints(fields[i].1, w.fields[j].1);
      }
      ObjectPrint(v, w);
    case _ =>
  }

  lemma ArrayPrint(a: seq<Json>, b: seq<Json>)
    requires JcsAll(a) == JcsAll(b)
    ensures Jcs(Arr(a)) == Jcs(Arr(b))
  {
  }

  lemma ObjectPrint(v: Json, w: Json)
    requires v.Obj? && WellFormed(v) && WellFormed(w) && Same(v, w)
    requires forall k <- Sort(AtMost, KeysOf(v.fields)) :: Get(JcsFields(v.fields), k) == Get(JcsFields(w.fields), k)
    ensures Jcs(v) == Jcs(w)
  {
    KeysMatch(v.fields, w.fields);
    SameMembers(JcsFields(v.fields), JcsFields(w.fields), Sort(AtMost, KeysOf(v.fields)));
  }

  lemma {:induction false} SameItemsPrint(a: seq<Json>, b: seq<Json>)
    requires |a| == |b|
    requires forall i :: 0 <= i < |a| ==> WellFormed(a[i]) && WellFormed(b[i]) && Same(a[i], b[i])
    ensures JcsAll(a) == JcsAll(b)
    decreases a, 1
  {
    if a != [] {
      SamePrints(a[0], b[0]);
      SameItemsPrint(a[1..], b[1..]);
    }
  }

  // ---- The print is uniquely readable ----

  /** What a backslash and one letter stand for. */
  function ShortForm(c: char): Option<char> {
    if c == '"' || c == '\\' || c == '/' then Some(c)
    else if c == 'b' then Some(8 as char)
    else if c == 'f' then Some(12 as char)
    else if c == 'n' then Some(10 as char)
    else if c == 'r' then Some(13 as char)
    else if c == 't' then Some(9 as char)
    else None
  }

  function FourDigits(s: string): Option<nat>
    requires |s| == 4
  {
    var a, b, c, d := HexValue(s[0]), HexValue(s[1]), HexValue(s[2]), HexValue(s[3]);
    if a.None? || b.None? || c.None? || d.None? then None
    else Some(4096 * a.value + 256 * b.value + 16 * c.value + d.value)
  }

  /** Reads one character inside a string, by section 7 of RFC 8259. */
  function ReadChar(s: string): Option<(char, string)> {
    if s == [] || s[0] == '"' || s[0] < 32 as char then None
    else if s[0] != '\\' then Some((s[0], s[1..]))
    else if |s| < 2 then None
    else if s[1] != 'u' then
      var c := ShortForm(s[1]);
      if c.None? then None else Some((c.value, s[2..]))
    else if |s| < 6 then None
    else
      var code := FourDigits(s[2..6]);
      if code.None? || 0xD800 <= code.value < 0xE000 then None else Some((code.value as char, s[6..]))
  }

  lemma ShortEscape(c: char, p: string)
    requires |Escape(c)| == 2
    ensures ReadChar(Escape(c) + p) == Some((c, p))
  {
    var s := Escape(c) + p;
    assert s[0] == Escape(c)[0] && s[1] == Escape(c)[1] && s[2..] == p;
  }

  lemma LongEscape(c: char, p: string)
    requires |Escape(c)| == 6
    ensures ReadChar(Escape(c) + p) == Some((c, p))
  {
    var s := Escape(c) + p;
    assert s[2..6] == Escape(c)[2..6] && s[6..] == p && s[0] == Escape(c)[0] && s[1] == Escape(c)[1];
    var n := c as nat;
    assert HexValue(HexDigit(n / 16)) == Some(n / 16) && HexValue(HexDigit(n % 16)) == Some(n % 16);
    assert FourDigits(s[2..6]) == Some(n);
  }

  /** A printed character is read back, and the rest after it. */
  lemma CharReadsBack(c: char, p: string)
    ensures ReadChar(Escape(c) + p) == Some((c, p))
  {
    if |Escape(c)| == 2 {
      ShortEscape(c, p);
    } else if |Escape(c)| == 6 {
      LongEscape(c, p);
    } else {
      assert (Escape(c) + p)[1..] == p;
    }
  }

  lemma EscapeIsPrefixCode(c: char, p: string, d: char, q: string)
    requires Escape(c) + p == Escape(d) + q
    ensures c == d && p == q
  {
    CharReadsBack(c, p);
    CharReadsBack(d, q);
  }

  /** Only the closing quote starts with a quote. */
  lemma QuotedEnd(s: string, x: string)
    ensures (EscapeAll(s) + "\"" + x)[0] == '"' <==> s == []
  {
    if s != [] {
      assert (EscapeAll(s) + "\"" + x)[0] == Escape(s[0])[0];
    }
  }

  lemma QuotedStep(s: string, x: string)
    requires s != []
    ensures EscapeAll(s) + "\"" + x == Escape(s[0]) + (EscapeAll(s[1..]) + "\"" + x)
  {
  }

  lemma {:induction false} QuotedIsReadable(s: string, x: string, t: string, y: string)
    requires EscapeAll(s) + "\"" + x == EscapeAll(t) + "\"" + y
    ensures s == t && x == y
  {
    QuotedEnd(s, x);
    QuotedEnd(t, y);
    if s == [] {
      assert x == (EscapeAll(s) + "\"" + x)[1..] && y == (EscapeAll(t) + "\"" + y)[1..];
    } else {
      QuotedStep(s, x);
      QuotedStep(t, y);
      hide *;
      EscapeIsPrefixCode(s[0], EscapeAll(s[1..]) + "\"" + x, t[0], EscapeAll(t[1..]) + "\"" + y);
      QuotedIsReadable(s[1..], x, t[1..], y);
      assert s == [s[0]] + s[1..] && t == [t[0]] + t[1..];
    }
  }

  /** What may follow a value: nothing, or a separator or closing bracket. */
  predicate Follows(x: string) { x == [] || x[0] == ',' || x[0] == ']' || x[0] == '}' }

  function Span(s: string): (n: nat)
    ensures n <= |s|
  {
    if s == [] || !NumberChar(s[0]) then 0 else 1 + Span(s[1..])
  }

  lemma {:induction false} SpanOfToken(a: string, x: string)
    requires (forall c <- a :: NumberChar(c)) && Follows(x)
    ensures Span(a + x) == |a|
  {
    if a == [] {
      assert a + x == x;
    } else {
      assert a[0] in a && (a + x)[1..] == a[1..] + x;
      SpanOfToken(a[1..], x);
    }
  }

  lemma NumberIsReadable(a: string, x: string, b: string, y: string)
    requires NumberToken(a) && NumberToken(b) && Follows(x) && Follows(y)
    requires a + x == b + y
    ensures a == b && x == y
  {
    SpanOfToken(a, x);
    SpanOfToken(b, y);
    var s := a + x;
    assert a == s[..|a|] && x == s[|a|..] && b == s[..|b|] && y == s[|b|..];
  }

  datatype Kind = NullKind | TrueKind | FalseKind | NumberKind | StrKind | ArrKind | ObjKind

  function KindOf(v: Json): Kind {
    match v
    case Null => NullKind
    case Bool(b) => if b then TrueKind else FalseKind
    case Number(_) => NumberKind
    case Str(_) => StrKind
    case Arr(_) => ArrKind
    case Obj(_) => ObjKind
  }

  function KindByFirst(c: char): Kind {
    if c == 'n' then NullKind else if c == 't' then TrueKind else if c == 'f' then FalseKind
    else if c == '"' then StrKind else if c == '[' then ArrKind else if c == '{' then ObjKind else NumberKind
  }

  /** The first character already tells what kind of value follows; it never closes or separates. */
  lemma FirstTells(v: Json)
    requires WellFormed(v)
    ensures |Jcs(v)| > 0 && KindByFirst(Jcs(v)[0]) == KindOf(v)
    ensures Jcs(v)[0] != ']' && Jcs(v)[0] != '}' && Jcs(v)[0] != ','
  {
  }

  /** The rest of a list once its first part is read. */
  function Tail(parts: seq<string>, close: char): string {
    if parts == [] then [close] else "," + parts[0] + Tail(parts[1..], close)
  }

  lemma {:induction false} JoinIsTail(parts: seq<string>, close: char)
    ensures Join(parts, ',') + [close] == if parts == [] then [close] else parts[0] + Tail(parts[1..], close)
  {
    if |parts| > 1 {
      JoinIsTail(parts[1..], close);
      assert Join(parts, ',') + [close] == parts[0] + ([','] + (Join(parts[1..], ',') + [close]));
    }
  }

  lemma TailFollows(parts: seq<string>, close: char, x: string)
    requires close == ']' || close == '}'
    ensures Follows(Tail(parts, close) + x)
    ensures (Tail(parts, close) + x)[0] == close <==> parts == []
  {
  }

  lemma TailStep(parts: seq<string>, close: char, x: string)
    requires parts != []
    ensures Tail(parts, close) + x == [','] + (parts[0] + (Tail(parts[1..], close) + x))
  {
  }

  lemma DropFirst(c: char, p: string, q: string)
    requires [c] + p == [c] + q
    ensures p == q
  {
    assert p == ([c] + p)[1..] && q == ([c] + q)[1..];
  }

  lemma NoItems(a: seq<Json>, x: string)
    ensures JcsAll(a) == [] <==> a == []
    ensures a == [] ==> Tail(JcsAll(a), ']') + x == [']'] + x
  {
    hide Jcs;
  }

  lemma {:induction false} ItemsReadable(a: seq<Json>, x: string, b: seq<Json>, y: string)
    requires forall i :: 0 <= i < |a| ==> WellFormed(a[i])
    requires forall i :: 0 <= i < |b| ==> WellFormed(b[i])
    requires Follows(x) && Follows(y)
    requires Tail(JcsAll(a), ']') + x == Tail(JcsAll(b), ']') + y
    ensures |a| == |b| && x == y && forall i :: 0 <= i < |a| ==> Same(a[i], b[i])
    decreases a, 1
  {
    hide *;
    TailFollows(JcsAll(a), ']', x);
    TailFollows(JcsAll(b), ']', y);
    NoItems(a, x);
    NoItems(b, y);
    if a == [] {
      DropFirst(']', x, y);
    } else {
      FirstItem(a, x, b, y);
      var p, q := Tail(JcsAll(a[1..]), ']') + x, Tail(JcsAll(b[1..]), ']') + y;
      TailFollows(JcsAll(a[1..]), ']', x);
      TailFollows(JcsAll(b[1..]), ']', y);
      Readable(a[0], p, b[0], q);
      ItemsReadable(a[1..], x, b[1..], y);
      forall i | 0 <= i < |a| ensures Same(a[i], b[i]) {
        if i > 0 {
          assert a[i] == a[1..][i - 1] && b[i] == b[1..][i - 1];
        }
      }
    }
  }

  lemma FirstItem(a: seq<Json>, x: string, b: seq<Json>, y: string)
    requires a != [] && b != []
    requires Tail(JcsAll(a), ']') + x == Tail(JcsAll(b), ']') + y
    ensures Jcs(a[0]) + (Tail(JcsAll(a[1..]), ']') + x) == Jcs(b[0]) + (Tail(JcsAll(b[1..]), ']') + y)
  {
    TailStep(JcsAll(a), ']', x);
    TailStep(JcsAll(b), ']', y);
    assert JcsAll(a)[0] == Jcs(a[0]) && JcsAll(a)[1..] == JcsAll(a[1..]);
    assert JcsAll(b)[0] == Jcs(b[0]) && JcsAll(b)[1..] == JcsAll(b[1..]);
    hide Tail, JcsAll, Jcs;
    DropFirst(',', Jcs(a[0]) + (Tail(JcsAll(a[1..]), ']') + x), Jcs(b[0]) + (Tail(JcsAll(b[1..]), ']') + y));
  }

  // ---- Objects ----

  function MembersOf(fields: JsMap<string, Json>, keys: seq<string>): seq<string> { Members(JcsFields(fields), keys) }

  lemma MemberIs(fields: JsMap<string, Json>, keys: seq<string>)
    requires keys != [] && Get(fields, keys[0]).Some?
    ensures |MembersOf(fields, keys)| == |keys|
    ensures MembersOf(fields, keys)[0] == Quote(keys[0]) + (":" + Jcs(Get(fields, keys[0]).value))
    ensures MembersOf(fields, keys)[1..] == MembersOf(fields, keys[1..])
  {
    hide Jcs, Quote, JcsFields;
    PrintedField(fields, keys[0]);
  }

  lemma MemberOpened(f: JsMap<string, Json>, ks: seq<string>, x: string)
    requires ks != [] && Get(f, ks[0]).Some?
    ensures Tail(MembersOf(f, ks), '}') + x ==
            [','] + (Quote(ks[0]) + ([':'] + (Jcs(Get(f, ks[0]).value) + (Tail(MembersOf(f, ks[1..]), '}') + x))))
  {
    hide *;
    MemberIs(f, ks);
    TailStep(MembersOf(f, ks), '}', x);
    RegroupMember(Quote(ks[0]), Jcs(Get(f, ks[0]).value), Tail(MembersOf(f, ks[1..]), '}') + x);
  }

  lemma RegroupMember(name: string, value: string, rest: string)
    ensures (name + (":" + value)) + rest == name + ([':'] + (value + rest))
  {
  }

  lemma FirstMember(f: JsMap<string, Json>, ks: seq<string>, x: string, g: JsMap<string, Json>, ls: seq<string>, y: string)
    requires ks != [] && Get(f, ks[0]).Some? && ls != [] && Get(g, ls[0]).Some?
    requires Tail(MembersOf(f, ks), '}') + x == Tail(MembersOf(g, ls), '}') + y
    ensures ks[0] == ls[0]
    ensures Jcs(Get(f, ks[0]).value) + (Tail(MembersOf(f, ks[1..]), '}') + x) ==
            Jcs(Get(g, ls[0]).value) + (Tail(MembersOf(g, ls[1..]), '}') + y)
  {
    hide *;
    MemberOpened(f, ks, x);
    MemberOpened(g, ls, y);
    var p := Jcs(Get(f, ks[0]).value) + (Tail(MembersOf(f, ks[1..]), '}') + x);
    var q := Jcs(Get(g, ls[0]).value) + (Tail(MembersOf(g, ls[1..]), '}') + y);
    DropFirst(',', Quote(ks[0]) + ([':'] + p), Quote(ls[0]) + ([':'] + q));
    QuoteIsReadable(ks[0], [':'] + p, ls[0], [':'] + q);
    DropFirst(':', p, q);
  }

  lemma QuoteIsReadable(s: string, x: string, t: string, y: string)
    requires Quote(s) + x == Quote(t) + y
    ensures s == t && x == y
  {
    var p, q := EscapeAll(s) + "\"" + x, EscapeAll(t) + "\"" + y;
    assert Quote(s) + x == ['"'] + p && Quote(t) + y == ['"'] + q;
    DropFirst('"', p, q);
    QuotedIsReadable(s, x, t, y);
  }

  ghost predicate HasKeys(fields: JsMap<string, Json>, keys: seq<string>) {
    forall k <- keys :: Get(fields, k).Some?
  }

  ghost predicate SameAt(f: JsMap<string, Json>, g: JsMap<string, Json>, k: string) {
    Get(f, k).Some? && Get(g, k).Some? && Same(Get(f, k).value, Get(g, k).value)
  }

  lemma {:induction false} FieldsReadable(v: Json, ks: seq<string>, x: string, w: Json, ls: seq<string>, y: string)
    requires v.Obj? && w.Obj? && WellFormed(v) && WellFormed(w) && HasKeys(v.fields, ks) && HasKeys(w.fields, ls)
    requires Follows(x) && Follows(y)
    requires Tail(MembersOf(v.fields, ks), '}') + x == Tail(MembersOf(w.fields, ls), '}') + y
    ensures ks == ls && x == y && forall k <- ks :: SameAt(v.fields, w.fields, k)
    decreases v, 1, |ks|
  {
    hide WellFormed, Follows, SameAt, MembersOf, Jcs;
    TailFollows(MembersOf(v.fields, ks), '}', x);
    TailFollows(MembersOf(w.fields, ls), '}', y);
    assert MembersOf(v.fields, ks) == [] <==> ks == [] by { MembersCount(v.fields, ks); }
    assert MembersOf(w.fields, ls) == [] <==> ls == [] by { MembersCount(w.fields, ls); }
    if ks == [] {
      assert x == (Tail(MembersOf(v.fields, ks), '}') + x)[1..] && y == (Tail(MembersOf(w.fields, ls), '}') + y)[1..];
    } else {
      FirstMember(v.fields, ks, x, w.fields, ls, y);
      FieldReadable(v, ks, x, w, ls, y);
      FieldsReadable(v, ks[1..], x, w, ls[1..], y);
      assert ks == [ks[0]] + ks[1..] && ls == [ls[0]] + ls[1..];
    }
  }

  lemma MembersCount(fields: JsMap<string, Json>, keys: seq<string>)
    ensures |MembersOf(fields, keys)| == |keys|
  {
  }

  lemma WellFormedField(v: Json, k: string) returns (i: nat)
    requires v.Obj? && WellFormed(v) && Get(v.fields, k).Some?
    ensures i < |v.fields| && v.fields[i] == (k, Get(v.fields, k).value) && WellFormed(v.fields[i].1)
  {
    GetIsEntry(v.fields, k);
    i :| 0 <= i < |v.fields| && v.fields[i] == (k, Get(v.fields, k).value);
  }

  lemma FieldReadable(v: Json, ks: seq<string>, x: string, w: Json, ls: seq<string>, y: string)
    requires v.Obj? && w.Obj? && WellFormed(v) && WellFormed(w) && Follows(x) && Follows(y)
    requires ks != [] && ls != [] && ks[0] == ls[0] && Get(v.fields, ks[0]).Some? && Get(w.fields, ls[0]).Some?
    requires Jcs(Get(v.fields, ks[0]).value) + (Tail(MembersOf(v.fields, ks[1..]), '}') + x) ==
             Jcs(Get(w.fields, ls[0]).value) + (Tail(MembersOf(w.fields, ls[1..]), '}') + y)
    ensures SameAt(v.fields, w.fields, ks[0])
    ensures Tail(MembersOf(v.fields, ks[1..]), '}') + x == Tail(MembersOf(w.fields, ls[1..]), '}') + y
    decreases v, 0
  {
    hide WellFormed, Follows, MembersOf, Jcs, Tail, Same;
    var i := WellFormedField(v, ks[0]);
    var j := WellFormedField(w, ls[0]);
    var p, q := Tail(MembersOf(v.fields, ks[1..]), '}') + x, Tail(MembersOf(w.fields, ls[1..]), '}') + y;
    TailFollows(MembersOf(v.fields, ks[1..]), '}', x);
    TailFollows(MembersOf(w.fields, ls[1..]), '}', y);
    Readable(v.fields[i].1, p, w.fields[j].1, q);
  }

  lemma SortedKeysAre(fields: JsMap<string, Json>)
    ensures HasKeys(fields, Sort(AtMost, KeysOf(fields)))
    ensures forall i :: 0 <= i < |fields| ==> fields[i].0 in Sort(AtMost, KeysOf(fields))
  {
    forall k | k in KeysOf(fields) ensures Get(fields, k).Some? {
      GetIsEntry(fields, k);
      var i :| 0 <= i < |fields| && KeysOf(fields)[i] == k;
      assert fields[i] in fields;
    }
    assert forall i :: 0 <= i < |fields| ==> KeysOf(fields)[i] in KeysOf(fields);
  }

  lemma SameFields(v: Json, w: Json)
    requires v.Obj? && w.Obj? && WellFormed(v) && WellFormed(w)
    requires Sort(AtMost, KeysOf(v.fields)) == Sort(AtMost, KeysOf(w.fields))
    requires forall k <- Sort(AtMost, KeysOf(v.fields)) :: SameAt(v.fields, w.fields, k)
    ensures Same(v, w)
  {
    hide WellFormed;
    SortedKeysAre(v.fields);
    SortedKeysAre(w.fields);
    assert Distinct(v.fields) by { DistinctFields(v); }
    forall i: nat | i < |v.fields|
      ensures Get(w.fields, v.fields[i].0).Some? && Same(v.fields[i].1, Get(w.fields, v.fields[i].0).value)
    {
      EntryIsGot(v.fields, i);
      assert SameAt(v.fields, w.fields, v.fields[i].0);
    }
    forall i | 0 <= i < |w.fields| ensures Get(v.fields, w.fields[i].0).Some? {
      assert SameAt(v.fields, w.fields, w.fields[i].0);
    }
  }

  lemma DistinctFields(v: Json)
    requires v.Obj? && WellFormed(v)
    ensures Distinct(v.fields)
  {
  }

  /** A non-empty list with a comma in front is its own tail form. */
  lemma CommaBody(parts: seq<string>, close: char, x: string)
    requires parts != []
    ensures [','] + (Join(parts, ',') + [close] + x) == Tail(parts, close) + x
  {
    JoinIsTail(parts, close);
    hide Join;
    assert Tail(parts, close) == [','] + (parts[0] + Tail(parts[1..], close));
    hide Tail;
    assert [','] + (Join(parts, ',') + [close] + x) == ([','] + (Join(parts, ',') + [close])) + x;
  }

  /** Arrays: what follows the opening bracket determines the items. */
  lemma ArrReadable(a: seq<Json>, x: string, b: seq<Json>, y: string)
    requires forall i :: 0 <= i < |a| ==> WellFormed(a[i])
    requires forall i :: 0 <= i < |b| ==> WellFormed(b[i])
    requires Follows(x) && Follows(y)
    requires Join(JcsAll(a), ',') + "]" + x == Join(JcsAll(b), ',') + "]" + y
    ensures |a| == |b| && x == y && forall i :: 0 <= i < |a| ==> Same(a[i], b[i])
    decreases a, 2
  {
    EmptyOrNot(a, x);
    EmptyOrNot(b, y);
    var s, t := Join(JcsAll(a), ',') + "]" + x, Join(JcsAll(b), ',') + "]" + y;
    if a == [] {
      assert x == s[1..] && y == t[1..];
    } else {
      hide WellFormed, Follows, Same, Jcs;
      CommaBody(JcsAll(a), ']', x);
      CommaBody(JcsAll(b), ']', y);
      hide *;
      ItemsReadable(a, x, b, y);
    }
  }

  lemma EmptyOrNot(a: seq<Json>, x: string)
    requires forall i :: 0 <= i < |a| ==> WellFormed(a[i])
    ensures (Join(JcsAll(a), ',') + "]" + x)[0] == ']' <==> a == []
  {
    if a != [] {
      FirstTells(a[0]);
      JoinIsTail(JcsAll(a), ']');
      assert (Join(JcsAll(a), ',') + "]" + x)[0] == Jcs(a[0])[0];
    }
  }

  lemma ObjReadable(v: Json, x: string, w: Json, y: string)
    requires v.Obj? && w.Obj? && WellFormed(v) && WellFormed(w) && Follows(x) && Follows(y)
    requires
      Join(MembersOf(v.fields, Sort(AtMost, KeysOf(v.fields))), ',') + "}" + x ==
      Join(MembersOf(w.fields, Sort(AtMost, KeysOf(w.fields))), ',') + "}" + y
    ensures Same(v, w) && x == y
    decreases v, 2
  {
    var ks, ls := Sort(AtMost, KeysOf(v.fields)), Sort(AtMost, KeysOf(w.fields));
    SortedKeysAre(v.fields);
    SortedKeysAre(w.fields);
    hide WellFormed, Follows, Same, Jcs, KeysOf, Sort;
    ClosedOrNot(v.fields, ks, x);
    ClosedOrNot(w.fields, ls, y);
    var s, t := Join(MembersOf(v.fields, ks), ',') + "}" + x, Join(MembersOf(w.fields, ls), ',') + "}" + y;
    MembersCount(v.fields, ks);
    MembersCount(w.fields, ls);
    if ks == [] {
      assert x == s[1..] && y == t[1..];
    } else {
      CommaBody(MembersOf(v.fields, ks), '}', x);
      CommaBody(MembersOf(w.fields, ls), '}', y);
      hide *;
      FieldsReadable(v, ks, x, w, ls, y);
    }
    hide *;
    SameFields(v, w);
  }

  lemma ClosedOrNot(fields: JsMap<string, Json>, keys: seq<string>, x: string)
    requires HasKeys(fields, keys)
    ensures (Join(MembersOf(fields, keys), ',') + "}" + x)[0] == '}' <==> keys == []
  {
    MembersCount(fields, keys);
    JoinIsTail(MembersOf(fields, keys), '}');
    if keys != [] {
      MemberIs(fields, keys);
      hide Jcs, MembersOf, Join;
      assert MembersOf(fields, keys)[0][0] == '"';
      assert (Join(MembersOf(fields, keys), ',') + "}" + x)[0] == '"';
    }
  }

  lemma Opened(open: char, body: string, close: char, x: string)
    ensures [open] + body + [close] + x == [open] + (body + [close] + x)
  {
  }

  lemma {:induction false} Readable(v: Json, x: string, w: Json, y: string)
    requires WellFormed(v) && WellFormed(w) && Follows(x) && Follows(y)
    requires Jcs(v) + x == Jcs(w) + y
    ensures Same(v, w) && x == y
    decreases v, 3
  {
    FirstTells(v);
    FirstTells(w);
    assert KindOf(v) == KindOf(w) by {
      assert (Jcs(v) + x)[0] == Jcs(v)[0] && (Jcs(w) + y)[0] == Jcs(w)[0];
    }
    match v
    case Number(token) => NumberIsReadable(token, x, w.token, y);
    case Str(text) => QuoteIsReadable(text, x, w.text, y);
    case Arr(items) =>
      Opened('[', Join(JcsAll(items), ','), ']', x);
      Opened('[', Join(JcsAll(w.items), ','), ']', y);
      DropFirst('[', Join(JcsAll(items), ',') + "]" + x, Join(JcsAll(w.items), ',') + "]" + y);
      ArrReadable(items, x, w.items, y);
    case Obj(fields) =>
      Opened('{', Join(MembersOf(fields, Sort(AtMost, KeysOf(fields))), ','), '}', x);
      Opened('{', Join(MembersOf(w.fields, Sort(AtMost, KeysOf(w.fields))), ','), '}', y);
      DropFirst('{', Join(MembersOf(fields, Sort(AtMost, KeysOf(fields))), ',') + "}" + x,
                     Join(MembersOf(w.fields, Sort(AtMost, KeysOf(w.fields))), ',') + "}" + y);
      ObjReadable(v, x, w, y);
    case _ =>
      assert x == (Jcs(v) + x)[|Jcs(v)|..] && y == (Jcs(w) + y)[|Jcs(w)|..];
  }

  /** Canonical text is the value: equal exactly for values that differ at most in the order of object keys. */
  lemma CanonicalTextIsValue(v: Json, w: Json)
    requires WellFormed(v) && WellFormed(w)
    ensures Jcs(v) == Jcs(w) <==> Same(v, w)
  {
    if Same(v, w) {
      SamePrints(v, w);
    }
    if Jcs(v) == Jcs(w) {
      assert Jcs(v) + [] == Jcs(w) + [];
      Readable(v, [], w, []);
    }
  }
}
