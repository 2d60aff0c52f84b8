/** The key-value store under a session, and the order its listings come in. */
module Store {
  import opened Prelude
  import opened Decimals
  import opened Sequences
  import opened Sorting

  ghost predicate StrictlySorted(keys: seq<string>) {
    forall i, j :: 0 <= i < j < |keys| ==> Less(keys[i], keys[j])
  }

  /** Two strictly ascending lists of the same keys are one list. */
  lemma {:induction false} SameKeysSameOrder(a: seq<string>, b: seq<string>)
    requires StrictlySorted(a) && StrictlySorted(b)
    requires forall k :: k in a <==> k in b
    ensures a == b
  {
    assert b != [] ==> b[0] in a;
    if a != [] {
      assert a[0] in b && b != [];
      assert b[0] in a;
      assert a[0] == b[0] by {
        LessTrichotomy(a[0], b[0]);
        assert forall k <- a :: k == a[0] || Less(a[0], k);
        assert forall k <- b :: k == b[0] || Less(b[0], k);
      }
      forall k ensures k in a[1..] <==> k in b[1..] {
        LessTrichotomy(a[0], k);
        assert k in a <==> k == a[0] || k in a[1..];
        assert k in b <==> k == b[0] || k in b[1..];
        assert forall x <- a[1..] :: Less(a[0], x);
        assert forall x <- b[1..] :: Less(b[0], x);
      }
      SameKeysSameOrder(a[1..], b[1..]);
    }
  }

  lemma {:induction false} InsertKeySorted(key: string, keys: seq<string>)
    requires StrictlySorted(keys) && key !in keys
    ensures StrictlySorted(Insert(AtMost, key, keys))
    ensures forall k :: k in Insert(AtMost, key, keys) <==> k == key || k in keys
  {
    hide Less, StrictlySorted;
    if keys != [] {
      LessTrichotomy(key, keys[0]);
      RestSorted(keys);
      assert keys == [keys[0]] + keys[1..];
      if Less(key, keys[0]) {
        forall k | k in keys ensures Less(key, k) {
          if k != keys[0] {
            LessTransitive(key, keys[0], k);
          }
        }
        FrontSorted(key, keys);
      } else {
        InsertKeySorted(key, keys[1..]);
        FrontSorted(keys[0], Insert(AtMost, key, keys[1..]));
      }
    } else {
      SortedNone();
      FrontSorted(key, []);
    }
  }

  lemma SortedNone()
    ensures StrictlySorted([])
  {
  }

  /** A key that precedes all of a sorted list can go in front of it. */
  lemma FrontSorted(key: string, keys: seq<string>)
    requires StrictlySorted(keys) && forall k <- keys :: Less(key, k)
    ensures StrictlySorted([key] + keys)
  {
    hide Less;
    var all := [key] + keys;
    forall i, j | 0 <= i < j < |all| ensures Less(all[i], all[j]) {
      assert all[j] == keys[j - 1] && keys[j - 1] in keys;
      if i > 0 {
        assert all[i] == keys[i - 1];
      }
    }
  }

  lemma RestSorted(keys: seq<string>)
    requires keys != [] && StrictlySorted(keys)
    ensures StrictlySorted(keys[1..])
    ensures forall k <- keys[1..] :: Less(keys[0], k)
  {
    hide Less;
  }

  /** The keys of a set in ascending order. */
  ghost function InOrder(keys: set<string>): (r: seq<string>)
    ensures StrictlySorted(r)
    ensures forall k :: k in r <==> k in keys
  {
    if keys == {} then []
    else
      var k :| k in keys;
      InsertKeySorted(k, InOrder(keys - {k}));
      Insert(AtMost, k, InOrder(keys - {k}))
  }

  predicate StartsWith(s: string, prefix: string) {
    |prefix| <= |s| && s[..|prefix|] == prefix
  }

  predicate InRange(key: string, prefix: string, start: Option<string>) {
    StartsWith(key, prefix) && (start.Some? ==> !Less(key, start.value))
  }

  ghost function Listing<V>(contents: map<string, V>, prefix: string, start: Option<string>): seq<string> {
    InOrder(set k | k in contents && InRange(k, prefix, start))
  }

  function Matching(keys: seq<string>, prefix: string, start: Option<string>): seq<string> {
    if keys == [] then []
    else
      var last := keys[|keys| - 1];
      Matching(keys[..|keys| - 1], prefix, start) + if InRange(last, prefix, start) then [last] else []
  }

  lemma {:induction false} MatchingKeeps(keys: seq<string>, prefix: string, start: Option<string>)
    requires StrictlySorted(keys)
    ensures StrictlySorted(Matching(keys, prefix, start))
    ensures forall k :: k in Matching(keys, prefix, start) <==> k in keys && InRange(k, prefix, start)
  {
    if keys != [] {
      var n := |keys| - 1;
      MatchingKeeps(keys[..n], prefix, start);
      assert keys == keys[..n] + [keys[n]];
      assert forall k <- keys[..n] :: Less(k, keys[n]);
    }
  }

  lemma MatchingStep<V>(contents: map<string, V>, keys: seq<string>, i: nat, prefix: string, start: Option<string>)
    requires i < |keys| && (forall k <- keys :: k in contents)
    requires forall k <- Matching(keys[..i], prefix, start) :: k in contents
    ensures forall k <- Matching(keys[..i + 1], prefix, start) :: k in contents
    ensures Entries(contents, Matching(keys[..i + 1], prefix, start)) ==
            Entries(contents, Matching(keys[..i], prefix, start)) +
            if InRange(keys[i], prefix, start) then [(keys[i], contents[keys[i]])] else []
  {
    PrefixStep(keys, i);
  }

  function Entries<V>(contents: map<string, V>, keys: seq<string>): JsMap<string, V>
    requires forall k <- keys :: k in contents
  {
    seq(|keys|, i requires 0 <= i < |keys| => (keys[i], contents[keys[i]]))
  }

  function Read<K, V>(contents: map<K, V>, key: K): Option<V> {
    if key in contents then Some(contents[key]) else None
  }

  class MemoryKvStore<V> {
    var contents: map<string, V>

    constructor ()
      ensures contents == map[]
    {
      contents := map[];
    }

    method Get(key: string) returns (value: Option<V>)
      ensures value == Read(contents, key)
    {
      value := if key in contents then Some(contents[key]) else None;
    }

    method Put(key: string, value: V)
      modifies this
      ensures contents == old(contents)[key := value]
    {
      contents := contents[key := value];
    }

    method Delete(key: string)
      modifies this
      ensures contents == old(contents) - {key}
    {
      contents := contents - {key};
    }

    /** The matching entries in ascending key order. */
    method List(prefix: string, start: Option<string>) returns (out: JsMap<string, V>)
      ensures out == Entries(contents, Listing(contents, prefix, start))
    {
      var sorted := SortedKeys();
      out := [];
      for i := 0 to |sorted|
        invariant forall k <- Matching(sorted[..i], prefix, start) :: k in contents
        invariant out == Entries(contents, Matching(sorted[..i], prefix, start))
      {
        var key := sorted[i];
        MatchingStep(contents, sorted, i, prefix, start);
        if !StartsWith(key, prefix) { continue; }
        if start.Some? && Less(key, start.value) { continue; }
        out := out + [(key, contents[key])];
      }
      assert sorted[..|sorted|] == sorted;
      MatchingKeeps(sorted, prefix, start);
      SameKeysSameOrder(Matching(sorted, prefix, start), Listing(contents, prefix, start));
    }

    /** `[...map.keys()].sort()`. */
    method SortedKeys() returns (sorted: seq<string>)
      ensures sorted == InOrder(contents.Keys)
    {
      sorted := [];
      var rest := contents.Keys;
      while rest != {}
        invariant rest <= contents.Keys && StrictlySorted(sorted)
        invariant forall k :: k in sorted <==> k in contents.Keys - rest
        decreases rest
      {
        var key :| key in rest;
        InsertKeySorted(key, sorted);
        sorted := Insert(AtMost, key, sorted);
        rest := rest - {key};
      }
      SameKeysSameOrder(sorted, InOrder(contents.Keys));
    }
  }
}
