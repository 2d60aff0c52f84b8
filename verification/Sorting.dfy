/** `Array.prototype.sort`: a stable sort by a comparator, here `le(a, b)` for "a may come before b". */
module Sorting {
  ghost predicate TotalPreorder<T(!new)>(le: (T, T) -> bool) {
    && (forall a, b :: le(a, b) || le(b, a))
    && (forall a, b, c :: le(a, b) && le(b, c) ==> le(a, c))
  }

  ghost predicate Sorted<T>(le: (T, T) -> bool, s: seq<T>) {
    forall i, j :: 0 <= i < j < |s| ==> le(s[i], s[j])
  }

  /** No two different elements of `s` tie. */
  ghost predicate NoTies<T>(le: (T, T) -> bool, s: seq<T>) {
    forall x, y :: x in s && y in s && le(x, y) && le(y, x) ==> x == y
  }

  function Insert<T>(le: (T, T) -> bool, x: T, s: seq<T>): (r: seq<T>)
    ensures multiset(r) == multiset{x} + multiset(s)
  {
    if s == [] || le(x, s[0]) then [x] + s
    else
      assert s == [s[0]] + s[1..];
      [s[0]] + Insert(le, x, s[1..])
  }

  function Sort<T(!new)>(le: (T, T) -> bool, s: seq<T>): (r: seq<T>)
    ensures multiset(r) == multiset(s)
    ensures |r| == |s|
    ensures forall x :: x in r <==> x in s
  {
    if s == [] then []
    else
      assert s == [s[0]] + s[1..];
      var r := Insert(le, s[0], Sort(le, s[1..]));
      assert |r| == |multiset(r)| && |s| == |multiset(s)|;
      assert forall x :: x in r <==> x in multiset(r);
      r
  }

  lemma {:induction false} InsertSorted<T(!new)>(le: (T, T) -> bool, x: T, s: seq<T>)
    requires TotalPreorder(le) && Sorted(le, s)
    ensures Sorted(le, Insert(le, x, s))
  {
    if s != [] && !le(x, s[0]) {
      InsertSorted(le, x, s[1..]);
      var r := Insert(le, x, s[1..]);
      forall y | y in r ensures le(s[0], y) {
        assert y in multiset(r);
        if y != x {
          assert y in s[1..];
        }
      }
    }
  }

  lemma {:induction false} SortSorts<T(!new)>(le: (T, T) -> bool, s: seq<T>)
    requires TotalPreorder(le)
    ensures Sorted(le, Sort(le, s))
  {
    if s != [] {
      SortSorts(le, s[1..]);
      InsertSorted(le, s[0], Sort(le, s[1..]));
    }
  }

  /** A sequence already in order is left as it is, ties included. */
  lemma {:induction false} SortKeepsSorted<T(!new)>(le: (T, T) -> bool, s: seq<T>)
    requires Sorted(le, s)
    ensures Sort(le, s) == s
  {
    if s != [] {
      SortKeepsSorted(le, s[1..]);
    }
  }

  lemma SameHead<T(!new)>(le: (T, T) -> bool, a: seq<T>, b: seq<T>)
    requires Sorted(le, a) && Sorted(le, b) && NoTies(le, a)
    requires forall x :: le(x, x)
    requires multiset(a) == multiset(b) && a != [] && b != []
    ensures a[0] == b[0]
  {
    var x, y := a[0], b[0];
    assert x in multiset(a) && y in multiset(b);
    var i :| 0 <= i < |b| && b[i] == x;
    var j :| 0 <= j < |a| && a[j] == y;
    assert le(x, y) && le(y, x);
  }

  lemma TailKeeps<T(!new)>(le: (T, T) -> bool, a: seq<T>)
    requires a != []
    ensures Sorted(le, a) ==> Sorted(le, a[1..])
    ensures NoTies(le, a) ==> NoTies(le, a[1..])
  {
  }

  lemma SameTail<T>(a: seq<T>, b: seq<T>)
    requires a != [] && b != [] && a[0] == b[0] && multiset(a) == multiset(b)
    ensures multiset(a[1..]) == multiset(b[1..])
    ensures a[1..] == b[1..] ==> a == b
  {
    assert a == [a[0]] + a[1..] && b == [b[0]] + b[1..];
    assert multiset(a) == multiset{a[0]} + multiset(a[1..]) && multiset(b) == multiset{b[0]} + multiset(b[1..]);
    assert multiset(a[1..]) == multiset(a) - multiset{a[0]} && multiset(b[1..]) == multiset(b) - multiset{b[0]};
  }

  /** There is one way to put tie-free elements in order. */
  lemma {:induction false} SortedUnique<T(!new)>(le: (T, T) -> bool, a: seq<T>, b: seq<T>)
    requires TotalPreorder(le) && Sorted(le, a) && Sorted(le, b)
    requires multiset(a) == multiset(b)
    requires NoTies(le, a)
    ensures a == b
  {
    hide Sorted, NoTies;
    assert |a| == |multiset(a)| == |multiset(b)| == |b|;
    if a != [] {
      SameHead(le, a, b);
      SameTail(a, b);
      TailKeeps(le, a);
      TailKeeps(le, b);
      SortedUnique(le, a[1..], b[1..]);
    }
  }

  /** Without ties the result does not depend on the order of the input. */
  lemma SortIgnoresOrder<T(!new)>(le: (T, T) -> bool, s: seq<T>, t: seq<T>)
    requires TotalPreorder(le) && NoTies(le, s)
    requires multiset(s) == multiset(t)
    ensures Sort(le, s) == Sort(le, t)
  {
    SortSorts(le, s);
    SortSorts(le, t);
    SortedUnique(le, Sort(le, s), Sort(le, t));
  }

  /** Compare by `first`, break ties by `second`. */
  function Then<T>(first: (T, T) -> bool, second: (T, T) -> bool): (T, T) -> bool {
    (a, b) => first(a, b) && (first(b, a) ==> second(a, b))
  }

  lemma {:induction false} InsertStable<T(!new)>(first: (T, T) -> bool, second: (T, T) -> bool, x: T, s: seq<T>)
    requires TotalPreorder(first)
    requires Sorted(Then(first, second), s)
    requires forall y <- s :: second(x, y)
    ensures Sorted(Then(first, second), Insert(first, x, s))
  {
    if s != [] {
      if first(x, s[0]) {
        forall y | y in s ensures Then(first, second)(x, y) {
          assert first(s[0], y);
        }
      } else {
        InsertStable(first, second, x, s[1..]);
        var r := Insert(first, x, s[1..]);
        forall y | y in r ensures Then(first, second)(s[0], y) {
          assert y in multiset(r);
          if y != x {
            assert y in s[1..];
          }
        }
      }
    }
  }

  /** Sorting by `first` what is already sorted by `second` sorts by `first`, then `second`. */
  lemma {:induction false} SortIsStable<T(!new)>(first: (T, T) -> bool, second: (T, T) -> bool, s: seq<T>)
    requires TotalPreorder(first) && Sorted(second, s)
    ensures Sorted(Then(first, second), Sort(first, s))
  {
    if s != [] {
      SortIsStable(first, second, s[1..]);
      assert forall y <- s[1..] :: second(s[0], y);
      InsertStable(first, second, s[0], Sort(first, s[1..]));
    }
  }

  ghost predicate AllDifferent<T>(s: seq<T>) {
    forall i, j :: 0 <= i < j < |s| ==> s[i] != s[j]
  }

  lemma {:induction false} DifferentMeansOnce<T(!new)>(s: seq<T>)
    ensures AllDifferent(s) <==> forall x :: multiset(s)[x] <= 1
  {
    if s != [] {
      DifferentMeansOnce(s[1..]);
      assert s == [s[0]] + s[1..];
      assert multiset(s) == multiset{s[0]} + multiset(s[1..]);
      assert AllDifferent(s) <==> AllDifferent(s[1..]) && s[0] !in s[1..] by {
        assert forall j :: 1 <= j < |s| ==> s[j] == s[1..][j - 1];
      }
      assert s[0] in s[1..] <==> multiset(s[1..])[s[0]] >= 1;
      assert forall x :: multiset(s)[x] == multiset(s[1..])[x] + if x == s[0] then 1 else 0;
    }
  }

  lemma SortKeepsDifferent<T(!new)>(le: (T, T) -> bool, s: seq<T>)
    requires AllDifferent(s)
    ensures AllDifferent(Sort(le, s))
  {
    DifferentMeansOnce(s);
    DifferentMeansOnce(Sort(le, s));
  }
}
