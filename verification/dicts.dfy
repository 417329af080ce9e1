/** Insertion-ordered dictionaries with Python `dict` semantics.

    A dictionary is a sequence of entries. Assigning to a key that is already
    present replaces its value in place; assigning to a new key appends it.
    Iteration follows insertion order. JSON objects, keyword-argument maps and
    the compiler's own working maps are all dictionaries of this kind.
 */
module Dicts {
  import opened Outcomes

  datatype Entry<K, V> = Entry(key: K, val: V)

  function Keys<K, V>(d: seq<Entry<K, V>>): (ks: seq<K>)
    ensures |ks| == |d|
    ensures forall i :: 0 <= i < |d| ==> ks[i] == d[i].key
  {
    if d == [] then [] else [d[0].key] + Keys(d[1..])
  }

  function Values<K, V>(d: seq<Entry<K, V>>): (vs: seq<V>)
    ensures |vs| == |d|
    ensures forall i :: 0 <= i < |d| ==> vs[i] == d[i].val
  {
    if d == [] then [] else [d[0].val] + Values(d[1..])
  }

  predicate Distinct<K(==)>(ks: seq<K>) {
    forall i, j :: 0 <= i < j < |ks| ==> ks[i] != ks[j]
  }

  /** `d.get(k)`: the value stored under `k`, read from the first entry with that key. */
  function Lookup<K(==), V>(d: seq<Entry<K, V>>, k: K): (r: Option<V>)
    ensures r.Some? <==> k in Keys(d)
  {
    if d == [] then None
    else
      assert Keys(d) == [d[0].key] + Keys(d[1..]);
      if d[0].key == k then Some(d[0].val) else Lookup(d[1..], k)
  }

  /** A value found by `Lookup` is stored in one of the entries. */
  lemma {:induction false} LookupFound<K, V>(d: seq<Entry<K, V>>, k: K)
    requires k in Keys(d)
    ensures exists i :: 0 <= i < |d| && d[i] == Entry(k, Lookup(d, k).value)
  {
    assert Keys(d) == [d[0].key] + Keys(d[1..]);
    if d[0].key != k {
      LookupFound(d[1..], k);
      var i :| 0 <= i < |d[1..]| && d[1..][i] == Entry(k, Lookup(d[1..], k).value);
      assert d[i + 1] == d[1..][i];
    }
  }

  /** `d[k] = combine(d[k], v)` when `k` is present, `d[k] = v` otherwise. */
  function Upsert<K(==,!new), V>(d: seq<Entry<K, V>>, k: K, v: V, combine: (V, V) -> V): (r: seq<Entry<K, V>>)
    ensures Keys(r) == if k in Keys(d) then Keys(d) else Keys(d) + [k]
    ensures Lookup(r, k) == Some(match Lookup(d, k) case Some(a) => combine(a, v) case None => v)
    ensures forall k' :: k' != k ==> Lookup(r, k') == Lookup(d, k')
  {
    if d == [] then [Entry(k, v)]
    else
      assert Keys(d) == [d[0].key] + Keys(d[1..]);
      if d[0].key == k then
        var r := [Entry(k, combine(d[0].val, v))] + d[1..];
        assert r[1..] == d[1..];
        assert Keys(r) == [k] + Keys(d[1..]);
        r
      else
        var rest := Upsert(d[1..], k, v, combine);
        var r := [d[0]] + rest;
        assert r[1..] == rest;
        assert Keys(r) == [d[0].key] + Keys(rest);
        r
  }

  /** The combining step of plain assignment: the new value replaces the old. */
  function Second<V>(a: V, b: V): V {
    b
  }

  /** Plain assignment `d[k] = v`: a later value replaces an earlier one. */
  function Put<K(==,!new), V>(d: seq<Entry<K, V>>, k: K, v: V): (r: seq<Entry<K, V>>)
    ensures Keys(r) == if k in Keys(d) then Keys(d) else Keys(d) + [k]
    ensures Lookup(r, k) == Some(v)
    ensures forall k' :: k' != k ==> Lookup(r, k') == Lookup(d, k')
  {
    Upsert(d, k, v, Second)
  }

  /** Assigns every entry of `pairs` in turn, as a loop of `Upsert`s. */
  function UpsertAll<K(==,!new), V>(d: seq<Entry<K, V>>, pairs: seq<Entry<K, V>>, combine: (V, V) -> V): seq<Entry<K, V>>
    decreases |pairs|
  {
    if pairs == [] then d
    else UpsertAll(Upsert(d, pairs[0].key, pairs[0].val, combine), pairs[1..], combine)
  }

  /** `d.update(other)`. */
  function Update<K(==,!new), V>(d: seq<Entry<K, V>>, other: seq<Entry<K, V>>): seq<Entry<K, V>> {
    UpsertAll(d, other, Second)
  }

  /** The entries of `d` whose key is not in `drop`, in order. */
  function Without<K(==,!new), V>(d: seq<Entry<K, V>>, drop: set<K>): (r: seq<Entry<K, V>>)
    ensures forall k :: k !in drop ==> Lookup(r, k) == Lookup(d, k)
    ensures forall k :: k in drop ==> Lookup(r, k).None?
  {
    if d == [] then []
    else if d[0].key in drop then Without(d[1..], drop)
    else [d[0]] + Without(d[1..], drop)
  }

  // ---------------------------------------------------------------------
  // Reference definitions of what a loop of assignments produces.

  /** `ks` followed by the elements of `xs` not seen before, in first-seen order. */
  function AppendNew<K(==)>(ks: seq<K>, xs: seq<K>): seq<K>
    decreases |xs|
  {
    if xs == [] then ks
    else AppendNew(if xs[0] in ks then ks else ks + [xs[0]], xs[1..])
  }

  /** The values assigned to `k` in `pairs`, in order. */
  function ValuesOf<K(==), V>(pairs: seq<Entry<K, V>>, k: K): (vs: seq<V>)
    ensures |vs| <= |pairs|
    ensures vs == [] <==> k !in Keys(pairs)
  {
    if pairs == [] then []
    else
      assert Keys(pairs) == [pairs[0].key] + Keys(pairs[1..]);
      (if pairs[0].key == k then [pairs[0].val] else []) + ValuesOf(pairs[1..], k)
  }

  /** Left fold of `combine` over `vs`, starting from `a`. */
  function Fold<V>(a: V, vs: seq<V>, combine: (V, V) -> V): V
    decreases |vs|
  {
    if vs == [] then a else Fold(combine(a, vs[0]), vs[1..], combine)
  }

  /** What a key ends up holding after a sequence of upserts starting from `start`. */
  function Accumulated<V>(start: Option<V>, vs: seq<V>, combine: (V, V) -> V): Option<V> {
    match start
    case Some(a) => Some(Fold(a, vs, combine))
    case None => if vs == [] then None else Some(Fold(vs[0], vs[1..], combine))
  }

  lemma {:induction false} UpsertAllKeys<K(!new), V>(d: seq<Entry<K, V>>, pairs: seq<Entry<K, V>>, combine: (V, V) -> V)
    ensures Keys(UpsertAll(d, pairs, combine)) == AppendNew(Keys(d), Keys(pairs))
    decreases |pairs|
  {
    if pairs != [] {
      assert Keys(pairs) == [pairs[0].key] + Keys(pairs[1..]);
      UpsertAllKeys(Upsert(d, pairs[0].key, pairs[0].val, combine), pairs[1..], combine);
    }
  }

  lemma {:induction false} UpsertAllLookup<K(!new), V>(d: seq<Entry<K, V>>, pairs: seq<Entry<K, V>>, combine: (V, V) -> V, k: K)
    ensures Lookup(UpsertAll(d, pairs, combine), k) == Accumulated(Lookup(d, k), ValuesOf(pairs, k), combine)
    decreases |pairs|
  {
    if pairs != [] {
      var d' := Upsert(d, pairs[0].key, pairs[0].val, combine);
      UpsertAllLookup(d', pairs[1..], combine, k);
      if pairs[0].key == k {
        assert ValuesOf(pairs, k) == [pairs[0].val] + ValuesOf(pairs[1..], k);
      } else {
        assert ValuesOf(pairs, k) == ValuesOf(pairs[1..], k);
      }
    }
  }

  lemma {:induction false} UpsertAllAppend<K(!new), V>(d: seq<Entry<K, V>>, p: seq<Entry<K, V>>, q: seq<Entry<K, V>>, combine: (V, V) -> V)
    ensures UpsertAll(UpsertAll(d, p, combine), q, combine) == UpsertAll(d, p + q, combine)
    decreases |p|
  {
    if p != [] {
      var d' := Upsert(d, p[0].key, p[0].val, combine);
      assert (p + q)[0] == p[0];
      assert (p + q)[1..] == p[1..] + q;
      assert UpsertAll(d, p + q, combine) == UpsertAll(d', p[1..] + q, combine);
      assert UpsertAll(d, p, combine) == UpsertAll(d', p[1..], combine);
      UpsertAllAppend(d', p[1..], q, combine);
    } else {
      assert p + q == q;
    }
  }

  /** With plain assignment the last value assigned wins. */
  lemma {:induction false} FoldReplaceIsLast<V>(a: V, vs: seq<V>)
    requires vs != []
    ensures Fold(a, vs, Second) == vs[|vs| - 1]
    decreases |vs|
  {
    if |vs| > 1 {
      FoldReplaceIsLast(vs[0], vs[1..]);
    }
  }

  lemma {:induction false} UpsertKeepsDistinct<K(!new), V>(d: seq<Entry<K, V>>, k: K, v: V, combine: (V, V) -> V)
    requires Distinct(Keys(d))
    ensures Distinct(Keys(Upsert(d, k, v, combine)))
  {
  }

  lemma {:induction false} UpsertAllKeepsDistinct<K(!new), V>(d: seq<Entry<K, V>>, pairs: seq<Entry<K, V>>, combine: (V, V) -> V)
    requires Distinct(Keys(d))
    ensures Distinct(Keys(UpsertAll(d, pairs, combine)))
    decreases |pairs|
  {
    if pairs != [] {
      UpsertKeepsDistinct(d, pairs[0].key, pairs[0].val, combine);
      UpsertAllKeepsDistinct(Upsert(d, pairs[0].key, pairs[0].val, combine), pairs[1..], combine);
    }
  }

  /** The value the last pair for `k` in `pairs` assigns, if any. */
  function LastValue<K(==), V>(pairs: seq<Entry<K, V>>, k: K): (v: Option<V>)
    ensures v.None? <==> k !in Keys(pairs)
  {
    var vs := ValuesOf(pairs, k);
    if vs == [] then None else Some(vs[|vs| - 1])
  }

  /** After `d.update(other)` a key holds the last value `other` assigns
      to it, or its old value if `other` does not mention it. */
  lemma UpdateLookup<K(!new), V>(d: seq<Entry<K, V>>, other: seq<Entry<K, V>>, k: K)
    ensures Lookup(Update(d, other), k) == if k in Keys(other) then LastValue(other, k) else Lookup(d, k)
  {
    var vs := ValuesOf(other, k);
    UpsertAllLookup(d, other, Second, k);
    if vs != [] {
      match Lookup(d, k)
      case Some(a) => FoldReplaceIsLast(a, vs);
      case None => if |vs| > 1 { FoldReplaceIsLast(vs[0], vs[1..]); }
    }
  }

  /** The keys after `d.update(other)`: the old keys, then the new ones in
      first-seen order. */
  lemma UpdateKeys<K(!new), V>(d: seq<Entry<K, V>>, other: seq<Entry<K, V>>)
    ensures Keys(Update(d, other)) == AppendNew(Keys(d), Keys(other))
  {
    UpsertAllKeys(d, other, Second);
  }
}
