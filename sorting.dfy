/**
 * Python's `sorted(xs, key=k, reverse=True)`: a stable sort into
 * descending key order. Elements with equal keys keep their original
 * relative order.
 */
module Sorting {

  predicate SortedDesc<T>(xs: seq<T>, key: T -> int) {
    forall i, j :: 0 <= i < j < |xs| ==> key(xs[i]) >= key(xs[j])
  }

  /** Places x before the first element whose key is not larger than x's. */
  function Insert<T>(x: T, xs: seq<T>, key: T -> int): (r: seq<T>)
    requires SortedDesc(xs, key)
    ensures SortedDesc(r, key)
    ensures multiset(r) == multiset(xs) + multiset{x}
    ensures |r| == |xs| + 1
    ensures r[0] == x || (xs != [] && r[0] == xs[0])
    decreases |xs|
  {
    if xs == [] || key(xs[0]) <= key(x) then [x] + xs
    else
      var rest := Insert(x, xs[1..], key);
      assert xs == [xs[0]] + xs[1..];
      [xs[0]] + rest
  }

  /**
   * Stable descending sort: each element is inserted into the sorted rest
   * of the list ahead of every element with an equal key, so among equal
   * keys the earlier element stays first.
   */
  function SortDesc<T>(xs: seq<T>, key: T -> int): (r: seq<T>)
    ensures SortedDesc(r, key)
    ensures multiset(r) == multiset(xs)
    ensures |r| == |xs|
    decreases |xs|
  {
    if xs == [] then []
    else
      assert xs == [xs[0]] + xs[1..];
      Insert(xs[0], SortDesc(xs[1..], key), key)
  }

  /** The elements of xs whose key is k, in their order in xs. */
  function WithKey<T>(xs: seq<T>, key: T -> int, k: int): seq<T>
    decreases |xs|
  {
    if xs == [] then [] else (if key(xs[0]) == k then [xs[0]] else []) + WithKey(xs[1..], key, k)
  }

  /** The elements with key k of x followed by ys. */
  lemma WithKeyCons<T>(x: T, ys: seq<T>, key: T -> int, k: int)
    ensures WithKey([x] + ys, key, k) == (if key(x) == k then [x] else []) + WithKey(ys, key, k)
  {
    assert ([x] + ys)[0] == x && ([x] + ys)[1..] == ys;
  }

  /** Inserting x puts it ahead of every element with the same key. */
  lemma {:induction false} InsertGoesFirstAmongEquals<T>(x: T, ys: seq<T>, key: T -> int, k: int)
    requires SortedDesc(ys, key)
    ensures WithKey(Insert(x, ys, key), key, k) == (if key(x) == k then [x] else []) + WithKey(ys, key, k)
    decreases |ys|
  {
    InsertSteps(x, ys, key);
    if ys == [] || key(ys[0]) <= key(x) {
      WithKeyCons(x, ys, key, k);
    } else {
      InsertGoesFirstAmongEquals(x, ys[1..], key, k);
      PassOverGreater(x, ys[0], Insert(x, ys[1..], key), ys[1..], key, k);
    }
  }

  /** Putting a first element with a greater key in front of both sides keeps x first among its equals. */
  lemma PassOverGreater<T>(x: T, y: T, rest: seq<T>, tail: seq<T>, key: T -> int, k: int)
    requires key(y) > key(x)
    requires WithKey(rest, key, k) == (if key(x) == k then [x] else []) + WithKey(tail, key, k)
    ensures WithKey([y] + rest, key, k) == (if key(x) == k then [x] else []) + WithKey([y] + tail, key, k)
  {
    var px: seq<T> := if key(x) == k then [x] else [];
    var py: seq<T> := if key(y) == k then [y] else [];
    var wt := WithKey(tail, key, k);
    WithKeyCons(y, rest, key, k);
    WithKeyCons(y, tail, key, k);
    if key(x) == k {
      assert py == [];
      assert py + (px + wt) == px + wt;
      assert py + wt == wt;
    } else {
      assert px == [];
      assert px + wt == wt;
      assert px + (py + wt) == py + wt;
    }
  }

  /** The two cases of Insert: x goes in front, or the first element stays in front. */
  lemma InsertSteps<T>(x: T, ys: seq<T>, key: T -> int)
    requires SortedDesc(ys, key)
    ensures ys == [] || key(ys[0]) <= key(x) ==> Insert(x, ys, key) == [x] + ys
    ensures ys != [] && key(ys[0]) > key(x) ==>
              ys == [ys[0]] + ys[1..] && Insert(x, ys, key) == [ys[0]] + Insert(x, ys[1..], key)
  {
  }

  /**
   * The sort is stable: for every key, the elements with that key come out
   * in the order they went in.
   */
  lemma {:induction false} SortDescIsStable<T>(xs: seq<T>, key: T -> int, k: int)
    ensures WithKey(SortDesc(xs, key), key, k) == WithKey(xs, key, k)
    decreases |xs|
  {
    if xs != [] {
      SortDescIsStable(xs[1..], key, k);
      InsertGoesFirstAmongEquals(xs[0], SortDesc(xs[1..], key), key, k);
    }
  }

  /** Sorting keeps exactly the elements it was given. */
  lemma SortDescSameElements<T>(xs: seq<T>, key: T -> int, x: T)
    ensures x in SortDesc(xs, key) <==> x in xs
  {
    assert x in SortDesc(xs, key) <==> x in multiset(SortDesc(xs, key));
    assert x in xs <==> x in multiset(xs);
  }

  /** An already sorted list is left as it is. */
  lemma {:induction false} SortDescOfSorted<T>(xs: seq<T>, key: T -> int)
    requires SortedDesc(xs, key)
    ensures SortDesc(xs, key) == xs
    decreases |xs|
  {
    if xs != [] {
      SortDescOfSorted(xs[1..], key);
    }
  }

  // ---------------------------------------------------------------------
  // Ordering items by a text key (`sort_keys=True`)
  // ---------------------------------------------------------------------

  /** Python's `a < b` on str: code point by code point, a proper prefix first. */
  predicate TextLess(a: string, b: string)
    decreases |a|
  {
    b != [] && (a == [] || a[0] < b[0] || (a[0] == b[0] && TextLess(a[1..], b[1..])))
  }

  lemma {:induction false} TextLessIrreflexive(a: string)
    ensures !TextLess(a, a)
    decreases |a|
  {
    if a != [] {
      TextLessIrreflexive(a[1..]);
    }
  }

  lemma {:induction false} TextLessTransitive(a: string, b: string, c: string)
    requires TextLess(a, b) && TextLess(b, c)
    ensures TextLess(a, c)
    decreases |a|
  {
    if a != [] && a[0] == b[0] && b[0] == c[0] {
      TextLessTransitive(a[1..], b[1..], c[1..]);
    }
  }

  lemma TextLessAsymmetric(a: string, b: string)
    requires TextLess(a, b)
    ensures !TextLess(b, a)
  {
    if TextLess(b, a) {
      TextLessTransitive(a, b, a);
      TextLessIrreflexive(a);
    }
  }

  /** Any two different texts are ordered one way or the other. */
  lemma {:induction false} TextLessTotal(a: string, b: string)
    requires a != b
    ensures TextLess(a, b) || TextLess(b, a)
    decreases |a|
  {
    if a != [] && b != [] && a[0] == b[0] {
      assert a == [a[0]] + a[1..] && b == [b[0]] + b[1..];
      TextLessTotal(a[1..], b[1..]);
    }
  }

  predicate DistinctTextKeys<V>(items: seq<(string, V)>) {
    forall i, j :: 0 <= i < j < |items| ==> items[i].0 != items[j].0
  }

  predicate KeysAscending<V>(items: seq<(string, V)>) {
    forall i, j :: 0 <= i < j < |items| ==> TextLess(items[i].0, items[j].0)
  }

  /** An item whose key is below the first key can go in front. */
  lemma {:induction false} PrependAscending<V>(x: (string, V), items: seq<(string, V)>)
    requires KeysAscending(items)
    requires items != [] ==> TextLess(x.0, items[0].0)
    ensures KeysAscending([x] + items)
  {
    var r := [x] + items;
    forall i, j | 0 <= i < j < |r|
      ensures TextLess(r[i].0, r[j].0)
    {
      if i == 0 && j > 1 {
        TextLessTransitive(x.0, items[0].0, items[j - 1].0);
      }
    }
  }

  /** Places x before the first item whose key is greater than x's. */
  function InsertByKey<V>(x: (string, V), items: seq<(string, V)>): (r: seq<(string, V)>)
    requires KeysAscending(items)
    requires forall y :: y in items ==> y.0 != x.0
    ensures KeysAscending(r)
    ensures multiset(r) == multiset(items) + multiset{x}
    ensures r != [] && (r[0] == x || (items != [] && r[0] == items[0]))
    decreases |items|
  {
    if items == [] || TextLess(x.0, items[0].0) then
      PrependAscending(x, items);
      [x] + items
    else
      var rest := InsertByKey(x, items[1..]);
      InsertByKeyStep(x, items, rest);
      [items[0]] + rest
  }

  lemma InsertByKeyStep<V>(x: (string, V), items: seq<(string, V)>, rest: seq<(string, V)>)
    requires KeysAscending(items) && items != []
    requires forall y :: y in items ==> y.0 != x.0
    requires !TextLess(x.0, items[0].0)
    requires KeysAscending(rest)
    requires multiset(rest) == multiset(items[1..]) + multiset{x}
    requires rest != [] && (rest[0] == x || (items[1..] != [] && rest[0] == items[1..][0]))
    ensures KeysAscending([items[0]] + rest)
    ensures multiset([items[0]] + rest) == multiset(items) + multiset{x}
  {
    assert items[0] in items;
    TextLessTotal(x.0, items[0].0);
    PrependAscending(items[0], rest);
    assert items == [items[0]] + items[1..];
  }

  /** `sorted(d.items())`: the items in ascending key order. */
  function SortByKey<V>(items: seq<(string, V)>): (r: seq<(string, V)>)
    requires DistinctTextKeys(items)
    ensures KeysAscending(r)
    ensures multiset(r) == multiset(items)
    decreases |items|
  {
    if items == [] then []
    else
      DistinctTail(items);
      var rest := SortByKey(items[1..]);
      RestAvoidsFirst(items, rest);
      InsertByKey(items[0], rest)
  }

  /** Dropping the first item keeps the keys distinct. */
  lemma DistinctTail<V>(items: seq<(string, V)>)
    requires items != [] && DistinctTextKeys(items)
    ensures DistinctTextKeys(items[1..])
  {
    forall i, j | 0 <= i < j < |items| - 1
      ensures items[1..][i].0 != items[1..][j].0
    {
      assert items[1..][i] == items[i + 1] && items[1..][j] == items[j + 1];
    }
  }

  /** A rearrangement of the later items has no item with the first item's key, and puts the first item back. */
  lemma RestAvoidsFirst<V>(items: seq<(string, V)>, rest: seq<(string, V)>)
    requires items != [] && DistinctTextKeys(items)
    requires multiset(rest) == multiset(items[1..])
    ensures forall y :: y in rest ==> y.0 != items[0].0
    ensures multiset(rest) + multiset{items[0]} == multiset(items)
  {
    forall y | y in rest
      ensures y.0 != items[0].0
    {
      assert y in multiset(items[1..]);
      var j :| 0 <= j < |items[1..]| && items[1..][j] == y;
      assert items[j + 1] == y;
    }
    assert items == [items[0]] + items[1..];
  }

  /** The key-sorted order is the only ascending arrangement of the items. */
  lemma SortByKeyIsTheAscendingOrder<V>(items: seq<(string, V)>)
    requires DistinctTextKeys(items)
    ensures forall s :: KeysAscending(s) && multiset(s) == multiset(items) ==> s == SortByKey(items)
  {
    forall s | KeysAscending(s) && multiset(s) == multiset(items)
      ensures s == SortByKey(items)
    {
      AscendingIsUnique(s, SortByKey(items));
    }
  }

  /** Of two ascending lists with the same items, neither can start with a later item. */
  lemma SameFirstItem<V>(a: seq<(string, V)>, b: seq<(string, V)>)
    requires KeysAscending(a) && KeysAscending(b)
    requires a != [] && b != []
    requires multiset(a) == multiset(b)
    ensures a[0] == b[0]
  {
    assert a[0] in multiset(b) && b[0] in multiset(a);
    var j :| 0 <= j < |b| && b[j] == a[0];
    var i :| 0 <= i < |a| && a[i] == b[0];
    if i > 0 && j > 0 {
      TextLessAsymmetric(a[0].0, a[i].0);
    }
  }

  lemma SameTail<T>(a: seq<T>, b: seq<T>)
    requires a != [] && b != [] && a[0] == b[0]
    requires multiset(a) == multiset(b)
    ensures multiset(a[1..]) == multiset(b[1..])
  {
    assert a == [a[0]] + a[1..] && b == [b[0]] + b[1..];
    assert multiset(a) == multiset{a[0]} + multiset(a[1..]);
    assert multiset(b) == multiset{b[0]} + multiset(b[1..]);
    assert multiset(a[1..]) == multiset(a) - multiset{a[0]};
    assert multiset(b[1..]) == multiset(b) - multiset{b[0]};
  }

  /**
   * Two lists in ascending key order with the same items are the same list:
   * the order of the items going in does not show in the sorted result.
   */
  lemma {:induction false} AscendingIsUnique<V>(a: seq<(string, V)>, b: seq<(string, V)>)
    requires KeysAscending(a) && KeysAscending(b)
    requires multiset(a) == multiset(b)
    ensures a == b
    decreases |a|
  {
    assert |a| == |multiset(a)| == |multiset(b)| == |b|;
    if a != [] {
      SameFirstItem(a, b);
      SameTail(a, b);
      AscendingIsUnique(a[1..], b[1..]);
      assert a == [a[0]] + a[1..] && b == [b[0]] + b[1..];
    }
  }

  /** Sorting by key forgets the order in which the items were given. */
  lemma SortByKeyIgnoresOrder<V>(a: seq<(string, V)>, b: seq<(string, V)>)
    requires DistinctTextKeys(a) && DistinctTextKeys(b)
    requires multiset(a) == multiset(b)
    ensures SortByKey(a) == SortByKey(b)
  {
    AscendingIsUnique(SortByKey(a), SortByKey(b));
  }
}
