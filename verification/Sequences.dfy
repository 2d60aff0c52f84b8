/** `join` and `split` on sequences, and when a joined sequence can be taken apart again. */
module Sequences {
  /** `Array.prototype.join`. */
  function Join<T>(parts: seq<seq<T>>, sep: T): seq<T> {
    if parts == [] then []
    else if |parts| == 1 then parts[0]
    else parts[0] + [sep] + Join(parts[1..], sep)
  }

  /** `String.prototype.split` with a one-element separator: never empty, `split("")` is `[""]`. */
  function Split<T(==)>(s: seq<T>, sep: T): (parts: seq<seq<T>>)
    ensures |parts| >= 1
  {
    if s == [] then [[]]
    else
      var rest := Split(s[1..], sep);
      if s[0] == sep then [[]] + rest
      else [[s[0]] + rest[0]] + rest[1..]
  }

  lemma {:induction false} SplitOne<T>(part: seq<T>, sep: T)
    requires sep !in part
    ensures Split(part, sep) == [part]
  {
    if part != [] {
      assert part[0] in part && [part[0]] + part[1..] == part;
      SplitOne(part[1..], sep);
    }
  }

  lemma {:induction false} SplitFirst<T>(part: seq<T>, sep: T, rest: seq<T>)
    requires sep !in part
    ensures Split(part + [sep] + rest, sep) == [part] + Split(rest, sep)
  {
    var s := part + [sep] + rest;
    if part == [] {
      assert s[1..] == rest;
    } else {
      assert part[0] in part;
      assert s[0] == part[0] && s[1..] == part[1..] + [sep] + rest;
      SplitFirst(part[1..], sep, rest);
      assert [part[0]] + part[1..] == part;
      assert ([part[1..]] + Split(rest, sep))[1..] == Split(rest, sep);
    }
  }

  /** `split` undoes `join` when no part contains the separator. */
  lemma {:induction false} SplitUndoesJoin<T>(parts: seq<seq<T>>, sep: T)
    requires parts != []
    requires forall p <- parts :: sep !in p
    ensures Split(Join(parts, sep), sep) == parts
  {
    if |parts| == 1 {
      SplitOne(parts[0], sep);
    } else {
      SplitUndoesJoin(parts[1..], sep);
      SplitFirst(parts[0], sep, Join(parts[1..], sep));
    }
  }

  /** A part in front of the others is joined to them by one separator. */
  lemma JoinCons<T>(part: seq<T>, parts: seq<seq<T>>, sep: T)
    requires parts != []
    ensures Join([part] + parts, sep) == part + [sep] + Join(parts, sep)
  {
    assert ([part] + parts)[1..] == parts;
  }

  /** Extending the first part extends the joined text. */
  lemma JoinExtend<T>(x: T, part: seq<T>, others: seq<seq<T>>, sep: T)
    ensures Join([[x] + part] + others, sep) == [x] + Join([part] + others, sep)
  {
    if others == [] {
      assert [[x] + part] + others == [[x] + part] && [part] + others == [part];
    } else {
      JoinCons([x] + part, others, sep);
      JoinCons(part, others, sep);
      hide *;
      assert ([x] + part) + [sep] + Join(others, sep) == [x] + (part + [sep] + Join(others, sep));
    }
  }

  /** `join` always undoes `split`. */
  lemma {:induction false} JoinUndoesSplit<T>(s: seq<T>, sep: T)
    ensures Join(Split(s, sep), sep) == s
  {
    if s != [] {
      JoinUndoesSplit(s[1..], sep);
      var rest := Split(s[1..], sep);
      assert rest == [rest[0]] + rest[1..] && s == [s[0]] + s[1..];
      hide Join;
      if s[0] == sep {
        JoinCons([], rest, sep);
      } else {
        JoinExtend(s[0], rest[0], rest[1..], sep);
      }
    }
  }

  /** The parts are free of the separator. */
  lemma {:induction false} PartsAreFree<T>(s: seq<T>, sep: T)
    ensures forall p <- Split(s, sep) :: sep !in p
  {
    if s != [] {
      PartsAreFree(s[1..], sep);
      var rest := Split(s[1..], sep);
      assert rest[0] in rest;
      assert forall p <- rest[1..] :: p in rest;
    }
  }

  /** The text before the first separator is determined by the whole. */
  lemma {:induction false} CutFirst<T>(a: seq<T>, x: seq<T>, b: seq<T>, y: seq<T>, sep: T)
    requires sep !in a && sep !in b
    requires a + [sep] + x == b + [sep] + y
    ensures a == b && x == y
  {
    var s := a + [sep] + x;
    assert s[|a|] == sep && s[|b|] == sep;
    assert forall i :: 0 <= i < |a| ==> s[i] == a[i];
    assert forall i :: 0 <= i < |b| ==> s[i] == b[i];
    assert a == s[..|a|] == b;
    assert x == s[|a| + 1..] == y;
  }

  /** The text after the last separator is determined by the whole. */
  lemma {:induction false} CutLast<T>(x: seq<T>, a: seq<T>, y: seq<T>, b: seq<T>, sep: T)
    requires sep !in a && sep !in b
    requires x + [sep] + a == y + [sep] + b
    ensures x == y && a == b
  {
    var s := x + [sep] + a;
    assert s[|x|] == sep && s[|y|] == sep;
    assert forall i :: |x| < i < |s| ==> s[i] == a[i - |x| - 1];
    assert forall i :: |y| < i < |s| ==> s[i] == b[i - |y| - 1];
    assert x == s[..|x|] == y;
    assert a == s[|x| + 1..] == b;
  }

  lemma {:induction false} JoinLast<T>(init: seq<seq<T>>, last: seq<T>, sep: T)
    requires init != []
    ensures Join(init + [last], sep) == Join(init, sep) + [sep] + last
  {
    var parts := init + [last];
    assert parts[1..] == init[1..] + [last];
    if |init| > 1 {
      JoinLast(init[1..], last, sep);
    }
  }

  lemma PrefixStep<T>(s: seq<T>, i: nat)
    requires i < |s|
    ensures s[..i + 1] == s[..i] + [s[i]] && s[..i + 1][..i] == s[..i]
  {
  }

  function TrimStart<T>(s: seq<T>, white: T -> bool): seq<T> {
    if s != [] && white(s[0]) then TrimStart(s[1..], white) else s
  }

  function TrimEnd<T>(s: seq<T>, white: T -> bool): seq<T> {
    if s != [] && white(s[|s| - 1]) then TrimEnd(s[..|s| - 1], white) else s
  }

  /** Drop what is white at both ends. */
  function Trim<T>(s: seq<T>, white: T -> bool): seq<T> { TrimEnd(TrimStart(s, white), white) }

  /** The first place of `x`, or the length if it does not occur. */
  function IndexOf<T(==)>(s: seq<T>, x: T): (i: nat)
    ensures i <= |s| && (i < |s| ==> s[i] == x)
    ensures forall j :: 0 <= j < i ==> s[j] != x
  {
    if s == [] || s[0] == x then 0 else 1 + IndexOf(s[1..], x)
  }

  // ---- What trimming leaves ----

  ghost predicate AllWhite<T>(s: seq<T>, white: T -> bool) { forall i :: 0 <= i < |s| ==> white(s[i]) }

  /** `core` has no white end, and white space stood around it. */
  ghost predicate Around<T(!new)>(s: seq<T>, core: seq<T>, white: T -> bool) {
    && (core == [] || (!white(core[0]) && !white(core[|core| - 1])))
    && exists a, b :: AllWhite(a, white) && AllWhite(b, white) && s == a + core + b
  }

  lemma {:induction false} StartSplits<T>(s: seq<T>, white: T -> bool) returns (a: seq<T>)
    ensures s == a + TrimStart(s, white) && AllWhite(a, white)
    ensures TrimStart(s, white) == [] || !white(TrimStart(s, white)[0])
  {
    a := [];
    if s != [] && white(s[0]) {
      var rest := StartSplits(s[1..], white);
      a := [s[0]] + rest;
      assert s == [s[0]] + s[1..];
    }
  }

  lemma {:induction false} EndSplits<T>(s: seq<T>, white: T -> bool) returns (b: seq<T>)
    ensures s == TrimEnd(s, white) + b && AllWhite(b, white)
    ensures TrimEnd(s, white) == [] || !white(TrimEnd(s, white)[|TrimEnd(s, white)| - 1])
  {
    b := [];
    if s != [] && white(s[|s| - 1]) {
      var rest := EndSplits(s[..|s| - 1], white);
      b := rest + [s[|s| - 1]];
      assert s == s[..|s| - 1] + [s[|s| - 1]];
    }
  }

  lemma {:induction false} StartDrops<T>(a: seq<T>, s: seq<T>, white: T -> bool)
    requires AllWhite(a, white) && (s == [] || !white(s[0]))
    ensures TrimStart(a + s, white) == s
  {
    if a == [] {
      assert a + s == s;
    } else {
      assert (a + s)[0] == a[0] && (a + s)[1..] == a[1..] + s;
      StartDrops(a[1..], s, white);
    }
  }

  lemma {:induction false} EndDrops<T>(s: seq<T>, b: seq<T>, white: T -> bool)
    requires AllWhite(b, white) && (s == [] || !white(s[|s| - 1]))
    ensures TrimEnd(s + b, white) == s
  {
    if b == [] {
      assert s + b == s;
    } else {
      var n := |b| - 1;
      assert (s + b)[|s + b| - 1] == b[n] && (s + b)[..|s + b| - 1] == s + b[..n];
      EndDrops(s, b[..n], white);
    }
  }

  /** Trimming leaves exactly what stands between white space. */
  lemma TrimMeans<T(!new)>(s: seq<T>, core: seq<T>, white: T -> bool)
    requires core != []
    ensures Trim(s, white) == core <==> Around(s, core, white)
  {
    var a := StartSplits(s, white);
    var rest := TrimStart(s, white);
    var b := EndSplits(rest, white);
    if Trim(s, white) == core {
      assert s == a + core + b;
      assert core[0] == rest[0];
    }
    if Around(s, core, white) {
      var x, y :| AllWhite(x, white) && AllWhite(y, white) && s == x + core + y;
      assert s == x + (core + y);
      StartDrops(x, core + y, white);
      EndDrops(core, y, white);
    }
  }
}
