/** Shared vocabulary: optional values, results, and JavaScript's insertion-ordered `Map`. */
module Prelude {
  datatype Option<+T> = None | Some(value: T)

  datatype Result<+T, +E> = Ok(value: T) | Err(error: E)

  type Octet = b: nat | b < 256

  /** A JavaScript `Map`: entries in insertion order, a later `set` overwriting in place. */
  type JsMap<K, V> = seq<(K, V)>

  function Get<K(==), V>(m: JsMap<K, V>, k: K): Option<V> {
    if m == [] then None
    else if m[0].0 == k then Some(m[0].1)
    else Get(m[1..], k)
  }

  /** `set` changes the answer for `k` alone and never makes a key occur twice. */
  function Set<K(==, !new), V>(m: JsMap<K, V>, k: K, v: V): (r: JsMap<K, V>)
    ensures forall j :: Get(r, j) == if j == k then Some(v) else Get(m, j)
    ensures forall e <- r :: e == (k, v) || e in m
    ensures Distinct(m) ==> Distinct(r)
  {
    if m == [] then [(k, v)]
    else if m[0].0 == k then [(k, v)] + m[1..]
    else
      var rest := Set(m[1..], k, v);
      assert forall j :: Get([m[0]] + rest, j) == if j == m[0].0 then Some(m[0].1) else Get(rest, j);
      assert Distinct(m) ==> Distinct([m[0]] + rest) by {
        if Distinct(m) {
          assert forall e <- rest :: e.0 != m[0].0 by {
            assert forall i :: 0 < i < |m| ==> m[i].0 != m[0].0;
            assert forall e <- m[1..] :: exists i :: 0 < i < |m| && m[i] == e;
          }
          assert forall i :: 0 <= i < |rest| ==> rest[i] in rest;
          assert Distinct(m[1..]);
        }
      }
      [m[0]] + rest
  }

  ghost predicate Distinct<K, V>(m: JsMap<K, V>) {
    forall i, j :: 0 <= i < j < |m| ==> m[i].0 != m[j].0
  }

  /** `Get` finds exactly the entries of the map. */
  lemma {:induction false} GetIsEntry<K, V>(m: JsMap<K, V>, k: K)
    ensures Get(m, k).Some? ==> (k, Get(m, k).value) in m
    ensures Get(m, k).None? ==> forall e <- m :: e.0 != k
  {
    if m != [] && m[0].0 != k {
      GetIsEntry(m[1..], k);
    }
  }

  lemma {:induction false} EntryIsGot<K, V>(m: JsMap<K, V>, i: nat)
    requires Distinct(m) && i < |m|
    ensures Get(m, m[i].0) == Some(m[i].1)
  {
    if i > 0 {
      assert m[0].0 != m[i].0;
      EntryIsGot(m[1..], i - 1);
    }
  }
}
