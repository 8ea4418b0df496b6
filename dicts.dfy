/**
 * A Python dict as the model sees it: its items in insertion order, each key
 * at most once. Assigning to a present key keeps that key's position;
 * assigning to a new key appends it.
 */
module Dicts {
  import opened Common

  type Dict<K, V> = seq<(K, V)>

  function Keys<K, V>(d: Dict<K, V>): (ks: seq<K>)
    ensures |ks| == |d|
    ensures forall i :: 0 <= i < |d| ==> ks[i] == d[i].0
  {
    seq(|d|, i requires 0 <= i < |d| => d[i].0)
  }

  /** `list(d.values())`. */
  function Values<K, V>(d: Dict<K, V>): (vs: seq<V>)
    ensures |vs| == |d|
    ensures forall i :: 0 <= i < |d| ==> vs[i] == d[i].1
  {
    seq(|d|, i requires 0 <= i < |d| => d[i].1)
  }

  /** `k in d`. */
  predicate HasKey<K(==), V>(d: Dict<K, V>, k: K)
    decreases |d|
  {
    d != [] && (d[0].0 == k || HasKey(d[1..], k))
  }

  /** No key is stored twice: what every Python dict satisfies. */
  predicate DistinctKeys<K(==), V>(d: Dict<K, V>)
    decreases |d|
  {
    d == [] || (!HasKey(d[1..], d[0].0) && DistinctKeys(d[1..]))
  }

  /** `d.get(k)`: the value stored under k, if any. */
  function Get<K(==), V>(d: Dict<K, V>, k: K): (r: Option<V>)
    ensures r.Some? <==> HasKey(d, k)
    decreases |d|
  {
    if d == [] then None
    else if d[0].0 == k then Some(d[0].1)
    else Get(d[1..], k)
  }

  /** `d[k] = v`. */
  function Put<K(==), V>(d: Dict<K, V>, k: K, v: V): (r: Dict<K, V>)
    ensures Get(r, k) == Some(v)
    ensures HasKey(d, k) ==> Keys(r) == Keys(d)
    ensures !HasKey(d, k) ==> r == d + [(k, v)]
    decreases |d|
  {
    if d == [] then [(k, v)]
    else if d[0].0 == k then [(k, v)] + d[1..]
    else [d[0]] + Put(d[1..], k, v)
  }

  /** Storing under one key leaves every other key's lookup as it was. */
  lemma {:induction false} PutKeepsOthers<K, V>(d: Dict<K, V>, k: K, v: V, k': K)
    requires k' != k
    ensures Get(Put(d, k, v), k') == Get(d, k')
    decreases |d|
  {
    if d != [] && d[0].0 != k {
      PutKeepsOthers(d[1..], k, v, k');
    }
  }

  /** Which keys a dict has after a store: the old ones and the stored one. */
  lemma {:induction false} PutHasKey<K, V>(d: Dict<K, V>, k: K, v: V, k': K)
    ensures HasKey(Put(d, k, v), k') <==> k' == k || HasKey(d, k')
    decreases |d|
  {
    if d != [] && d[0].0 != k {
      PutHasKey(d[1..], k, v, k');
    }
  }

  /** Storing keeps the keys distinct. */
  lemma {:induction false} PutKeepsDistinct<K, V>(d: Dict<K, V>, k: K, v: V)
    requires DistinctKeys(d)
    ensures DistinctKeys(Put(d, k, v))
    decreases |d|
  {
    if d != [] {
      if d[0].0 == k {
        assert Put(d, k, v)[1..] == d[1..];
      } else {
        PutKeepsDistinct(d[1..], k, v);
        PutHasKey(d[1..], k, v, d[0].0);
        assert Put(d, k, v)[1..] == Put(d[1..], k, v);
      }
    }
  }

  lemma {:induction false} HasKeyAt<K, V>(d: Dict<K, V>, i: nat)
    requires i < |d|
    ensures HasKey(d, d[i].0)
    decreases |d|
  {
    if i > 0 {
      HasKeyAt(d[1..], i - 1);
    }
  }

  /** In a dict whose keys are distinct, every stored item is what Get finds. */
  lemma {:induction false} GetStoredItem<K, V>(d: Dict<K, V>, i: nat)
    requires DistinctKeys(d) && i < |d|
    ensures Get(d, d[i].0) == Some(d[i].1)
    decreases |d|
  {
    if i > 0 {
      GetStoredItem(d[1..], i - 1);
    }
  }

  /** The sum of f over the values, in order. */
  function SumBy<K, V>(d: Dict<K, V>, f: V -> int): int
    decreases |d|
  {
    if d == [] then 0 else f(d[0].1) + SumBy(d[1..], f)
  }

  /** Storing v under k removes the old value's share of the sum and adds v's. */
  lemma {:induction false} SumByPut<K, V>(d: Dict<K, V>, k: K, v: V, f: V -> int)
    ensures SumBy(Put(d, k, v), f) ==
            SumBy(d, f) - (if HasKey(d, k) then f(Get(d, k).value) else 0) + f(v)
    decreases |d|
  {
    if d != [] && d[0].0 != k {
      SumByPut(d[1..], k, v, f);
    }
  }

  function Identity(n: int): int { n }

  /** Sum of an int-valued dict, e.g. a count per language. */
  function SumValues<K>(d: Dict<K, int>): int {
    SumBy(d, Identity)
  }

  /** `d[k] = d.get(k, 0) + c` adds exactly c to the sum of the values. */
  lemma AddToCountSum<K>(d: Dict<K, int>, k: K, c: int)
    ensures SumValues(Put(d, k, Get(d, k).GetOr(0) + c)) == SumValues(d) + c
  {
    SumByPut(d, k, Get(d, k).GetOr(0) + c, Identity);
  }

  /** The item Get finds is one of the dict's items. */
  lemma {:induction false} GetFindsItem<K, V>(d: Dict<K, V>, k: K)
    requires HasKey(d, k)
    ensures (k, Get(d, k).value) in d
    decreases |d|
  {
    if d[0].0 != k {
      GetFindsItem(d[1..], k);
    }
  }

  /** After a store, every item is the stored one or an item that was there before. */
  lemma {:induction false} PutItemsFrom<K, V>(d: Dict<K, V>, k: K, v: V, e: (K, V))
    requires e in Put(d, k, v)
    ensures e == (k, v) || e in d
    decreases |d|
  {
    if d != [] && d[0].0 != k && e != d[0] {
      PutItemsFrom(d[1..], k, v, e);
    }
  }

  /** A store adds at most one item. */
  lemma PutLength<K, V>(d: Dict<K, V>, k: K, v: V)
    ensures |Put(d, k, v)| == if HasKey(d, k) then |d| else |d| + 1
  {
    if HasKey(d, k) {
      assert |Keys(Put(d, k, v))| == |Keys(d)|;
    }
  }

  /** `k in d` is `k in d.keys()`. */
  lemma {:induction false} HasKeyIffInKeys<K, V>(d: Dict<K, V>, k: K)
    ensures HasKey(d, k) <==> k in Keys(d)
    decreases |d|
  {
    if d != [] {
      assert Keys(d) == [d[0].0] + Keys(d[1..]);
      HasKeyIffInKeys(d[1..], k);
    }
  }

  /** In a dict whose keys are distinct, Get finds every item the dict holds. */
  lemma GetOfItem<K, V>(d: Dict<K, V>, e: (K, V))
    requires DistinctKeys(d) && e in d
    ensures Get(d, e.0) == Some(e.1)
  {
    var i :| 0 <= i < |d| && d[i] == e;
    GetStoredItem(d, i);
  }
}
