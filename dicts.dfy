/** Python dictionaries with string keys, as lists of entries in insertion
    order: storing under a present key replaces the value where it stands,
    storing under a new key appends it. */
module Dicts {
  import opened Wrappers
  import opened Sequences

  type Dict<V> = seq<(string, V)>

  function Keys<V>(d: Dict<V>): (ks: seq<string>)
    ensures |ks| == |d| && forall i :: 0 <= i < |d| ==> ks[i] == d[i].0
  {
    seq(|d|, i requires 0 <= i < |d| => d[i].0)
  }

  lemma KeysCons<V>(k: string, v: V, d: Dict<V>)
    ensures Keys([(k, v)] + d) == [k] + Keys(d)
  {
  }

  /** `d.get(k)`: the value stored under the first entry for `k`. */
  function Get<V>(d: Dict<V>, k: string): (r: Option<V>)
    ensures r.None? <==> k !in Keys(d)
  {
    if |d| == 0 then None
    else if d[0].0 == k then Some(d[0].1)
    else
      assert Keys(d) == [d[0].0] + Keys(d[1..]);
      Get(d[1..], k)
  }

  /** `d[k] = v` */
  function Put<V>(d: Dict<V>, k: string, v: V): (r: Dict<V>)
    ensures k in Keys(d) ==> Keys(r) == Keys(d)
    ensures k !in Keys(d) ==> Keys(r) == Keys(d) + [k]
  {
    if |d| == 0 then
      assert Keys([(k, v)]) == [k];
      [(k, v)]
    else
      KeysCons(d[0].0, d[0].1, d[1..]);
      assert d == [d[0]] + d[1..];
      if d[0].0 == k then
        KeysCons(k, v, d[1..]);
        [(k, v)] + d[1..]
      else
        var rest := Put(d[1..], k, v);
        KeysCons(d[0].0, d[0].1, rest);
        [d[0]] + rest
  }

  /** After `d[k] = v` the keys are those of `d` and `k`. */
  lemma PutKeys<V>(d: Dict<V>, k: string, v: V)
    ensures forall x :: x in Keys(Put(d, k, v)) <==> x == k || x in Keys(d)
  {
    if k !in Keys(d) {
      assert Keys(Put(d, k, v)) == Keys(d) + [k];
    }
  }

  /** After `d[k] = v`, `k` holds `v` and every other key what it held. */
  lemma {:induction false} GetPut<V>(d: Dict<V>, k: string, v: V, other: string)
    ensures Get(Put(d, k, v), k) == Some(v)
    ensures other != k ==> Get(Put(d, k, v), other) == Get(d, other)
  {
    if |d| > 0 && d[0].0 != k {
      GetPut(d[1..], k, v, other);
    }
  }

  /** Storing keeps the keys distinct. */
  lemma PutDistinct<V>(d: Dict<V>, k: string, v: V)
    requires NoDuplicates(Keys(d))
    ensures NoDuplicates(Keys(Put(d, k, v)))
  {
    if k !in Keys(d) {
      var ks := Keys(d) + [k];
      assert forall i :: 0 <= i < |Keys(d)| ==> ks[i] == Keys(d)[i];
    }
  }
}
