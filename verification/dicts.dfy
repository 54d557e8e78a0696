/** An insertion-ordered dictionary from string keys to real values, the way a
    Python `dict` behaves: assigning to a present key replaces its value where it
    stands, assigning to a new key appends it at the end, and iteration follows
    insertion order. */
module Dicts {

  type Dict = seq<(string, real)>

  /** The keys of `d`, in insertion order. */
  function Keys(d: Dict): seq<string>
  {
    seq(|d|, i requires 0 <= i < |d| => d[i].0)
  }

  /** The invariant every dictionary keeps: no key occurs twice. */
  predicate UniqueKeys(d: Dict)
  {
    forall i, j :: 0 <= i < j < |d| ==> d[i].0 != d[j].0
  }

  /** `d[k] = v`. */
  function Put(d: Dict, k: string, v: real): (r: Dict)
    requires UniqueKeys(d)
    ensures UniqueKeys(r)
    ensures k !in Keys(d) ==> r == d + [(k, v)]
    ensures k in Keys(d) ==> Keys(r) == Keys(d)
    ensures k in Keys(d) ==>
      forall i :: 0 <= i < |d| ==> r[i] == if d[i].0 == k then (k, v) else d[i]
  {
    if d == [] then [(k, v)]
    else if d[0].0 == k then
      assert Keys(d)[0] == k;
      [(k, v)] + d[1..]
    else
      assert Keys(d) == [d[0].0] + Keys(d[1..]);
      [d[0]] + Put(d[1..], k, v)
  }

  /** `d[k]`, for a key that is present: the value stored under `k`. */
  function Get(d: Dict, k: string): (v: real)
    requires UniqueKeys(d) && k in Keys(d)
    ensures (k, v) in d
  {
    if d[0].0 == k then d[0].1
    else
      assert Keys(d) == [d[0].0] + Keys(d[1..]);
      Get(d[1..], k)
  }
}
