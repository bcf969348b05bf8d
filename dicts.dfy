/**
 * A Python dict with string keys, kept in insertion order: `d[k] = v` on a present key
 * replaces the value where it stands, on a new key appends the entry at the end.
 */
module Dicts {
  import opened Wrappers

  type Dict<V> = seq<(string, V)>

  function Keys<V>(d: Dict<V>): (ks: seq<string>)
    ensures |ks| == |d|
    ensures forall i :: 0 <= i < |d| ==> ks[i] == d[i].0
  {
    if d == [] then [] else [d[0].0] + Keys(d[1..])
  }

  predicate Distinct(ks: seq<string>) {
    forall i, j :: 0 <= i < j < |ks| ==> ks[i] != ks[j]
  }

  /** `d.get(k)`: the value of the (first) entry with key `k`. */
  function Find<V>(d: Dict<V>, k: string): (r: Option<V>)
    ensures r.Some? <==> k in Keys(d)
  {
    if d == [] then None else if d[0].0 == k then Some(d[0].1) else Find(d[1..], k)
  }

  /** `d[k] = v`. */
  function Put<V>(d: Dict<V>, k: string, v: V): (r: Dict<V>)
    ensures k in Keys(d) ==> Keys(r) == Keys(d)
    ensures k !in Keys(d) ==> Keys(r) == Keys(d) + [k]
  {
    if d == [] then [(k, v)]
    else if d[0].0 == k then [(k, v)] + d[1..]
    else [d[0]] + Put(d[1..], k, v)
  }

  /** After `d[k] = v` the key `k` holds `v` and every other key what it held. */
  lemma {:induction false} FindPut<V>(d: Dict<V>, k: string, v: V, j: string)
    ensures Find(Put(d, k, v), j) == if j == k then Some(v) else Find(d, j)
  {
    if d != [] && d[0].0 != k {
      FindPut(d[1..], k, v, j);
    }
  }

  /** Assigning keeps the keys of a dict distinct. */
  lemma PutKeepsDistinct<V>(d: Dict<V>, k: string, v: V)
    requires Distinct(Keys(d))
    ensures Distinct(Keys(Put(d, k, v)))
  {
  }

  /** The values in order (Python's `d.values()`). */
  function Values<V>(d: Dict<V>): (vs: seq<V>)
    ensures |vs| == |d|
    ensures forall i :: 0 <= i < |d| ==> vs[i] == d[i].1
  {
    if d == [] then [] else [d[0].1] + Values(d[1..])
  }

  /** With distinct keys, each entry is what its key finds. */
  lemma {:induction false} FindDistinct<V>(d: Dict<V>, i: int)
    requires Distinct(Keys(d)) && 0 <= i < |d|
    ensures Find(d, d[i].0) == Some(d[i].1)
  {
    if i > 0 {
      assert Keys(d)[0] != Keys(d)[i];
      assert Distinct(Keys(d[1..])) by {
        forall a, b | 0 <= a < b < |Keys(d[1..])| ensures Keys(d[1..])[a] != Keys(d[1..])[b] {
          assert Keys(d)[a + 1] != Keys(d)[b + 1];
        }
      }
      FindDistinct(d[1..], i - 1);
    }
  }

  /** A second assignment to the same key overrides the first. */
  lemma {:induction false} PutPut<V>(d: Dict<V>, k: string, v: V, w: V)
    ensures Put(Put(d, k, v), k, w) == Put(d, k, w)
  {
    if d != [] && d[0].0 != k {
      PutPut(d[1..], k, v, w);
    }
  }
  /** Assigning a key the dict does not hold appends the entry at the end. */
  lemma {:induction false} PutNew<V>(d: Dict<V>, k: string, v: V)
    requires k !in Keys(d)
    ensures Put(d, k, v) == d + [(k, v)]
  {
    if d != [] {
      assert Keys(d)[0] == d[0].0;
      assert k !in Keys(d[1..]) by {
        forall i | 0 <= i < |d| - 1 ensures Keys(d[1..])[i] != k {
          assert Keys(d[1..])[i] == Keys(d)[i + 1];
        }
      }
      PutNew(d[1..], k, v);
      assert d + [(k, v)] == [d[0]] + (d[1..] + [(k, v)]);
    }
  }
}
