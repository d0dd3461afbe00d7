/** A sort by an integer key (insertion sort). It orders rows as
    `Array.prototype.sort` with a numeric comparator, or an SQL `ORDER BY`,
    does, except possibly among rows with equal keys. */
module Sorting {

  predicate SortedBy<T>(xs: seq<T>, key: T -> int)
  {
    forall i, j :: 0 <= i < j < |xs| ==> key(xs[i]) <= key(xs[j])
  }

  /** Inserts x before the first element whose key is not smaller. */
  function Insert<T(==)>(x: T, xs: seq<T>, key: T -> int): (r: seq<T>)
    requires SortedBy(xs, key)
    ensures SortedBy(r, key)
    ensures multiset(r) == multiset(xs) + multiset{x}
    ensures |r| == |xs| + 1
    ensures r[0] == x || (|xs| > 0 && r[0] == xs[0])
    decreases |xs|
  {
    if |xs| == 0 then [x]
    else if key(x) <= key(xs[0]) then
      ConsSorted(x, xs, key);
      [x] + xs
    else
      var rest := Insert(x, xs[1..], key);
      InsertBehindHead(x, xs, key, rest);
      [xs[0]] + rest
  }

  /** The head of xs stays in front of x inserted into the rest of xs. */
  lemma InsertBehindHead<T>(x: T, xs: seq<T>, key: T -> int, rest: seq<T>)
    requires SortedBy(xs, key) && |xs| > 0 && key(x) > key(xs[0])
    requires SortedBy(rest, key) && multiset(rest) == multiset(xs[1..]) + multiset{x}
    requires |rest| == |xs| && (rest[0] == x || (|xs| > 1 && rest[0] == xs[1]))
    ensures SortedBy([xs[0]] + rest, key)
    ensures multiset([xs[0]] + rest) == multiset(xs) + multiset{x}
  {
    assert xs == [xs[0]] + xs[1..];
    ConsSorted(xs[0], rest, key);
  }

  /** An element no larger than the head of a sorted sequence can go in front. */
  lemma ConsSorted<T>(h: T, rest: seq<T>, key: T -> int)
    requires SortedBy(rest, key) && |rest| > 0 && key(h) <= key(rest[0])
    ensures SortedBy([h] + rest, key)
  {
    var r := [h] + rest;
    forall i, j | 0 <= i < j < |r|
      ensures key(r[i]) <= key(r[j])
    {
      if i == 0 {
        assert r[j] == rest[j - 1];
      } else {
        assert r[i] == rest[i - 1] && r[j] == rest[j - 1];
      }
    }
  }

  /** Insertion sort: the result is ordered by key and is a permutation of the input. */
  function SortBy<T(==)>(xs: seq<T>, key: T -> int): (r: seq<T>)
    ensures SortedBy(r, key)
    ensures multiset(r) == multiset(xs)
    ensures |r| == |xs|
    decreases |xs|
  {
    if |xs| == 0 then []
    else
      assert xs == [xs[0]] + xs[1..];
      Insert(xs[0], SortBy(xs[1..], key), key)
  }
}
