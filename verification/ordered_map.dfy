/**
 * A dictionary that remembers insertion order, as Python's `dict` does:
 * assigning to a new key appends it, assigning to an existing key replaces
 * its value and keeps its place.
 */
module OrderedMaps {

  datatype OrderedMap<K(==,!new), V> = OrderedMap(keys: seq<K>, values: map<K, V>) {

    /** Keys are listed once each, and exactly the keys of `values` are listed. */
    ghost predicate Valid() {
      && (forall i, j :: 0 <= i < j < |keys| ==> keys[i] != keys[j])
      && (forall k :: k in values <==> k in keys)
    }

    /** `d[k] = v`. */
    function Put(k: K, v: V): (r: OrderedMap<K, V>)
      ensures r.values == values[k := v]
      ensures k in keys ==> r.keys == keys
      ensures k !in keys ==> r.keys == keys + [k]
    {
      OrderedMap(if k in keys then keys else keys + [k], values[k := v])
    }

    /** `d.get(k, default)`. */
    function Get(k: K, default: V): V {
      if k in values then values[k] else default
    }
  }

  function Empty<K(==,!new), V>(): (r: OrderedMap<K, V>)
    ensures r.Valid() && r.keys == []
  {
    OrderedMap([], map[])
  }

  /** Assignment keeps the map well formed, and leaves every other key, its value and its position alone. */
  lemma PutKeepsOthers<K(!new), V>(d: OrderedMap<K, V>, k: K, v: V)
    requires d.Valid()
    ensures d.Put(k, v).Valid()
    ensures d.Put(k, v).Get(k, v) == v
    ensures forall i :: 0 <= i < |d.keys| ==> d.Put(k, v).keys[i] == d.keys[i]
    ensures forall k', dflt :: k' != k ==> d.Put(k, v).Get(k', dflt) == d.Get(k', dflt)
  {
  }

  /** The distinct elements of `xs` in order of first appearance. */
  function Dedup<T(==,!new)>(xs: seq<T>): (r: seq<T>)
    ensures forall x :: x in r <==> x in xs
    ensures forall i, j :: 0 <= i < j < |r| ==> r[i] != r[j]
    decreases |xs|
  {
    if xs == [] then []
    else
      var d := Dedup(xs[..|xs| - 1]);
      var x := xs[|xs| - 1];
      assert xs == xs[..|xs| - 1] + [x];
      if x in d then d else d + [x]
  }

  /** Assigning the elements of `xs` one after another lists them as `Dedup(xs)`. */
  lemma DedupStep<T(!new)>(xs: seq<T>, x: T)
    ensures Dedup(xs + [x]) == if x in xs then Dedup(xs) else Dedup(xs) + [x]
  {
    assert (xs + [x])[..|xs|] == xs;
  }
}
