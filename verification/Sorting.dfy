/** Sorting a list by an integer key; elements of one key keep their order. */
module Sorting {

  function Insert<T>(xs: seq<T>, x: T, key: T -> int): seq<T> {
    if xs == [] || key(xs[|xs| - 1]) <= key(x) then xs + [x]
    else Insert(xs[..|xs| - 1], x, key) + [xs[|xs| - 1]]
  }

  function SortBy<T>(xs: seq<T>, key: T -> int): seq<T> {
    if xs == [] then [] else Insert(SortBy(xs[..|xs| - 1], key), xs[|xs| - 1], key)
  }

  ghost predicate SortedBy<T(!new)>(xs: seq<T>, key: T -> int) {
    forall i, j :: 0 <= i < j < |xs| ==> key(xs[i]) <= key(xs[j])
  }

  lemma {:induction false} InsertKeeps<T(!new)>(xs: seq<T>, x: T, key: T -> int)
    requires SortedBy(xs, key)
    ensures SortedBy(Insert(xs, x, key), key) && |Insert(xs, x, key)| == |xs| + 1
    ensures forall y :: y in Insert(xs, x, key) <==> y == x || y in xs
  {
    if xs != [] && key(xs[|xs| - 1]) > key(x) {
      var most, last := xs[..|xs| - 1], xs[|xs| - 1];
      InsertKeeps(most, x, key);
      assert xs == most + [last];
      var r := Insert(most, x, key);
      forall i | 0 <= i < |r|
        ensures key(r[i]) <= key(last)
      {
        assert r[i] in r;
      }
    }
  }

  /** The result is in order and holds what the list held. */
  lemma {:induction false} SortKeeps<T(!new)>(xs: seq<T>, key: T -> int)
    ensures SortedBy(SortBy(xs, key), key) && |SortBy(xs, key)| == |xs|
    ensures forall y :: y in SortBy(xs, key) <==> y in xs
  {
    if xs != [] {
      SortKeeps(xs[..|xs| - 1], key);
      InsertKeeps(SortBy(xs[..|xs| - 1], key), xs[|xs| - 1], key);
      assert xs == xs[..|xs| - 1] + [xs[|xs| - 1]];
    }
  }

  /** The elements of one key, in order. */
  function WithKey<T>(xs: seq<T>, key: T -> int, k: int): seq<T> {
    if xs == [] then []
    else WithKey(xs[..|xs| - 1], key, k) + (if key(xs[|xs| - 1]) == k then [xs[|xs| - 1]] else [])
  }

  lemma WithKeyLast<T>(xs: seq<T>, x: T, key: T -> int, k: int)
    ensures WithKey(xs + [x], key, k) == WithKey(xs, key, k) + if key(x) == k then [x] else []
  {
    assert (xs + [x])[..|xs|] == xs;
  }

  lemma {:induction false} InsertStable<T>(xs: seq<T>, x: T, key: T -> int, k: int)
    ensures WithKey(Insert(xs, x, key), key, k) == WithKey(xs + [x], key, k)
  {
    if xs != [] && key(xs[|xs| - 1]) > key(x) {
      var most, last := xs[..|xs| - 1], xs[|xs| - 1];
      assert xs == most + [last];
      InsertStable(most, x, key, k);
      WithKeyLast(most, x, key, k);
      WithKeyLast(most, last, key, k);
      WithKeyLast(xs, x, key, k);
      WithKeyLast(Insert(most, x, key), last, key, k);
      assert key(last) != k || key(x) != k;
    }
  }

  /** Elements of one key keep their order and their number: nothing is lost, doubled or swapped. */
  lemma {:induction false} SortStable<T>(xs: seq<T>, key: T -> int, k: int)
    ensures WithKey(SortBy(xs, key), key, k) == WithKey(xs, key, k)
  {
    if xs != [] {
      var most, last := xs[..|xs| - 1], xs[|xs| - 1];
      assert xs == most + [last];
      SortStable(most, key, k);
      InsertStable(SortBy(most, key), last, key, k);
      WithKeyLast(SortBy(most, key), last, key, k);
      WithKeyLast(most, last, key, k);
    }
  }
}
