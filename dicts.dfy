/** Python dictionaries iterate in insertion order; the backend relies on that
    for the order of the records it writes. A `Dict` is the key sequence in
    first-insertion order together with the mapping. */
module Dicts {
  import opened Wrappers

  datatype Dict<K(==,!new), V> = Dict(keys: seq<K>, items: map<K, V>)
  {
    /** Keys are listed once each, and exactly the mapped keys are listed. */
    ghost predicate Valid()
    {
      && Distinct(keys)
      && (forall k :: k in items <==> k in keys)
    }

    function Get(k: K): (r: Option<V>)
      ensures r.Some? <==> k in items
      ensures r.Some? ==> r.value == items[k]
    {
      if k in items then Some(items[k]) else None
    }

    /** `d[k] = v` for a key already present: the key keeps its place. */
    function Update(k: K, v: V): (r: Dict<K, V>)
      requires k in items
      ensures r.keys == keys && r.items == items[k := v]
    {
      Dict(keys, items[k := v])
    }

    /** `d[k] = v`: a new key goes to the end, an existing key keeps its place. */
    function Put(k: K, v: V): (r: Dict<K, V>)
      requires Valid()
      ensures r.Valid()
      ensures r.items == items[k := v]
      ensures k in items ==> r.keys == keys
      ensures k !in items ==> r.keys == keys + [k]
      ensures r.keys == AddUnique(keys, k)
    {
      if k in items then Dict(keys, items[k := v]) else Dict(keys + [k], items[k := v])
    }
  }

  /** Overwriting the value of a key already present changes neither the key
      order nor the key set, so a valid dictionary stays valid. */
  lemma SameKeysValid<K(!new), V, W>(d: Dict<K, V>, e: Dict<K, W>)
    requires d.Valid() && e.keys == d.keys && e.items.Keys == d.items.Keys
    ensures e.Valid()
  {
  }

  /** Each element listed once. */
  ghost predicate Distinct<K>(s: seq<K>)
  {
    forall i, j :: 0 <= i < j < |s| ==> s[i] != s[j]
  }

  function EmptyDict<K(==,!new), V>(): (d: Dict<K, V>)
    ensures d.Valid() && d.keys == [] && d.items == map[]
  {
    Dict([], map[])
  }

  /** Reading a key after writing it gives the written value; other keys are unaffected. */
  lemma GetAfterPut<K(!new), V>(d: Dict<K, V>, k: K, v: V, k': K)
    requires d.Valid()
    ensures d.Put(k, v).Get(k) == Some(v)
    ensures k' != k ==> d.Put(k, v).Get(k') == d.Get(k')
  {
  }

  /** Writing never moves a key: every key keeps its position in the iteration order. */
  lemma PutKeepsOrder<K(!new), V>(d: Dict<K, V>, k: K, v: V, i: nat)
    requires d.Valid() && i < |d.keys|
    ensures i < |d.Put(k, v).keys| && d.Put(k, v).keys[i] == d.keys[i]
  {
  }

  /** `if x not in xs: xs.append(x)`; also the key order after `d[x] = v`. */
  function AddUnique<K(==)>(xs: seq<K>, x: K): seq<K>
  {
    if x in xs then xs else xs + [x]
  }

  /** Adds each of `ys` in order unless already present: the first
      occurrences of `ys` after `xs`. */
  function AppendUnique<K(==)>(xs: seq<K>, ys: seq<K>): seq<K>
  {
    if ys == [] then xs
    else AddUnique(AppendUnique(xs, ys[..|ys| - 1]), ys[|ys| - 1])
  }

  /** The list keeps what it had, in place, gains every new element, gains
      nothing else, and never a second copy. */
  lemma {:induction false} AppendUniqueShape<K>(xs: seq<K>, ys: seq<K>)
    ensures var r := AppendUnique(xs, ys);
      && |xs| <= |r| && r[..|xs|] == xs
      && (forall x :: x in r <==> x in xs || x in ys)
      && (Distinct(xs) ==> Distinct(r))
  {
    if ys != [] {
      var init := ys[..|ys| - 1];
      AppendUniqueShape(xs, init);
      assert ys == init + [ys[|ys| - 1]];
    }
  }

  /** Adding two lists in turn is adding their concatenation. */
  lemma {:induction false} AppendUniqueConcat<K>(xs: seq<K>, ys: seq<K>, zs: seq<K>)
    ensures AppendUnique(xs, ys + zs) == AppendUnique(AppendUnique(xs, ys), zs)
  {
    if zs == [] {
      assert ys + zs == ys;
    } else {
      var zs' := zs[..|zs| - 1];
      assert (ys + zs)[..|ys + zs| - 1] == ys + zs';
      AppendUniqueConcat(xs, ys, zs');
    }
  }
}
