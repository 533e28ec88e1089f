/**
 * Small shared vocabulary: an optional value, the minimum of two naturals,
 * and lookup and allocation of records by a numeric key.
 */
module Basics {

  /** A value that may be missing (JavaScript's `undefined` or `null`). */
  datatype Option<+T> = None | Some(value: T) {
    function GetOr(default: T): T {
      match this
      case Some(v) => v
      case None => default
    }
  }

  function Min(a: nat, b: nat): nat {
    if a <= b then a else b
  }

  /**
   * `findOne`/`findById` on a key: the position of the first record whose
   * key is `k`, from position `from` on.
   */
  function IndexOfKey<T, K(==)>(xs: seq<T>, key: T -> K, k: K, from: nat): (r: Option<nat>)
    requires from <= |xs|
    ensures r.Some? ==> from <= r.value < |xs| && key(xs[r.value]) == k
    ensures r.Some? ==> forall j :: from <= j < r.value ==> key(xs[j]) != k
    ensures r.None? ==> forall j :: from <= j < |xs| ==> key(xs[j]) != k
    decreases |xs| - from
  {
    if from == |xs| then None
    else if key(xs[from]) == k then Some(from)
    else IndexOfKey(xs, key, k, from + 1)
  }

  /** Two lists with the same keys, position by position, find the same position for every key. */
  lemma {:induction false} SameKeysSameIndex<T, K>(xs: seq<T>, ys: seq<T>, key: T -> K, k: K, from: nat)
    requires |xs| == |ys| && from <= |xs|
    requires forall i :: 0 <= i < |xs| ==> key(xs[i]) == key(ys[i])
    ensures IndexOfKey(xs, key, k, from) == IndexOfKey(ys, key, k, from)
    decreases |xs| - from
  {
    if from < |xs| {
      SameKeysSameIndex(xs, ys, key, k, from + 1);
    }
  }

  /** Appending a record with another key does not change which position a key finds. */
  lemma {:induction false} IndexOfKeyAppend<T, K>(xs: seq<T>, x: T, key: T -> K, k: K, from: nat)
    requires from <= |xs| && key(x) != k
    ensures IndexOfKey(xs + [x], key, k, from) == IndexOfKey(xs, key, k, from)
    decreases |xs| - from
  {
    if from < |xs| {
      assert (xs + [x])[from] == xs[from];
      IndexOfKeyAppend(xs, x, key, k, from + 1);
    }
  }

  /** A key above every record's key, for a record about to be created. */
  function FreshKey<T>(xs: seq<T>, key: T -> nat): (r: nat)
    ensures forall i :: 0 <= i < |xs| ==> key(xs[i]) < r
  {
    if xs == [] then 0
    else
      var rest := FreshKey(xs[..|xs| - 1], key);
      var last := key(xs[|xs| - 1]);
      if rest <= last then last + 1 else rest
  }
}
