/** Scores and the small dictionaries that carry them. A Python `dict` keeps its keys in
    insertion order, so a dictionary is modelled as a list of (key, value) pairs with distinct
    keys: assigning to a present key replaces its value in place, a new key goes at the end. */
module Scoring {
  import opened Wrappers

  /** `min(max(x, 0), 10)`. */
  function Clamp(x: real): (r: real)
    ensures 0.0 <= r <= 10.0
    ensures 0.0 <= x <= 10.0 ==> r == x
    ensures x < 0.0 ==> r == 0.0
    ensures x > 10.0 ==> r == 10.0
  {
    if x < 0.0 then 0.0 else if x > 10.0 then 10.0 else x
  }

  function Sum(xs: seq<real>): real {
    if xs == [] then 0.0 else Sum(xs[..|xs| - 1]) + xs[|xs| - 1]
  }

  /** Values in [lo, hi] add up to at least n*lo and at most n*hi. */
  lemma {:induction false} SumBounds(xs: seq<real>, lo: real, hi: real)
    requires forall i :: 0 <= i < |xs| ==> lo <= xs[i] <= hi
    ensures |xs| as real * lo <= Sum(xs) <= |xs| as real * hi
    decreases |xs|
  {
    if xs != [] {
      SumBounds(xs[..|xs| - 1], lo, hi);
    }
  }

  /** The mean of scores in [0, 10] is in [0, 10]. */
  lemma MeanInRange(xs: seq<real>)
    requires xs != []
    requires forall i :: 0 <= i < |xs| ==> 0.0 <= xs[i] <= 10.0
    ensures 0.0 <= Sum(xs) / |xs| as real <= 10.0
  {
    SumBounds(xs, 0.0, 10.0);
  }

  type Dict<V> = seq<(string, V)>

  function Keys<V>(d: Dict<V>): (ks: seq<string>)
    ensures |ks| == |d|
    ensures forall i :: 0 <= i < |d| ==> ks[i] == d[i].0
  {
    seq(|d|, i requires 0 <= i < |d| => d[i].0)
  }

  function Values<V>(d: Dict<V>): (vs: seq<V>)
    ensures |vs| == |d|
    ensures forall i :: 0 <= i < |d| ==> vs[i] == d[i].1
  {
    seq(|d|, i requires 0 <= i < |d| => d[i].1)
  }

  predicate HasKey<V>(d: Dict<V>, k: string) {
    exists i :: 0 <= i < |d| && d[i].0 == k
  }

  /** `d.get(k, default)`. */
  function Get<V>(d: Dict<V>, k: string, default: V): (v: V)
    ensures !HasKey(d, k) ==> v == default
    ensures HasKey(d, k) ==> exists i :: 0 <= i < |d| && d[i].0 == k && d[i].1 == v
  {
    if d == [] then default
    else if d[0].0 == k then d[0].1
    else Get(d[1..], k, default)
  }

  predicate DistinctKeys<V>(d: Dict<V>) {
    forall p, q :: 0 <= p < q < |d| ==> d[p].0 != d[q].0
  }

  /** In a dictionary with distinct keys, `get` finds the value stored under the key. */
  lemma GetAt<V>(d: Dict<V>, i: nat, default: V)
    requires i < |d|
    requires DistinctKeys(d)
    ensures Get(d, d[i].0, default) == d[i].1
  {
    if i > 0 {
      GetAt(d[1..], i - 1, default);
    }
  }

  /** `d[k] = v`. */
  function Put<V>(d: Dict<V>, k: string, v: V): Dict<V>
    decreases |d|
  {
    if d == [] then [(k, v)]
    else if d[0].0 == k then [(k, v)] + d[1..]
    else [d[0]] + Put(d[1..], k, v)
  }

  /** After `d[k] = v`, looking up `k` finds `v`, and every other key finds what it did. */
  lemma {:induction false} GetPut<V>(d: Dict<V>, k: string, v: V, key: string, default: V)
    ensures Get(Put(d, k, v), key, default) == if key == k then v else Get(d, key, default)
    decreases |d|
  {
    if d != [] && d[0].0 != k {
      GetPut(d[1..], k, v, key, default);
      assert Put(d, k, v)[1..] == Put(d[1..], k, v);
    }
  }

  /** `d[k] = v` leaves every entry under another key where it was. */
  lemma {:induction false} PutKeepsOthers<V>(d: Dict<V>, k: string, v: V)
    ensures |Put(d, k, v)| >= |d|
    ensures forall i :: 0 <= i < |d| && d[i].0 != k ==> Put(d, k, v)[i] == d[i]
    decreases |d|
  {
    if d != [] && d[0].0 != k {
      PutKeepsOthers(d[1..], k, v);
      var r := Put(d, k, v);
      assert r == [d[0]] + Put(d[1..], k, v);
      forall i | 1 <= i < |d| && d[i].0 != k
        ensures r[i] == d[i]
      {
        assert d[1..][i - 1] == d[i];
      }
    }
  }

  /** A new key goes at the end. */
  lemma {:induction false} PutNew<V>(d: Dict<V>, k: string, v: V)
    requires !HasKey(d, k)
    ensures Put(d, k, v) == d + [(k, v)]
    decreases |d|
  {
    if d != [] {
      assert d[0].0 != k;
      assert !HasKey(d[1..], k) by {
        forall i | 0 <= i < |d[1..]|
          ensures d[1..][i].0 != k
        {
          assert d[1..][i] == d[i + 1];
        }
      }
      PutNew(d[1..], k, v);
      assert d == [d[0]] + d[1..];
    }
  }

  /** A present key keeps its place: the keys are the same, in the same order. */
  lemma {:induction false} PutPresent<V>(d: Dict<V>, k: string, v: V)
    requires HasKey(d, k)
    ensures |Put(d, k, v)| == |d| && Keys(Put(d, k, v)) == Keys(d)
    decreases |d|
  {
    if d[0].0 != k {
      var i :| 0 <= i < |d| && d[i].0 == k;
      assert d[1..][i - 1].0 == k;
      PutPresent(d[1..], k, v);
      var r := Put(d, k, v);
      assert r == [d[0]] + Put(d[1..], k, v);
      forall j | 0 <= j < |d|
        ensures Keys(r)[j] == Keys(d)[j]
      {
        if j > 0 {
          assert Keys(r)[j] == Keys(Put(d[1..], k, v))[j - 1];
          assert Keys(d)[j] == Keys(d[1..])[j - 1];
        }
      }
    }
  }
}
