/** Ordering of query results: a stable insertion sort by an integer key. */
module Sorting {

  ghost predicate SortedBy<T>(xs: seq<T>, key: T -> int) {
    forall i, j :: 0 <= i < j < |xs| ==> key(xs[i]) <= key(xs[j])
  }

  /** Every element of `ys` has a key of at most `b`. */
  ghost predicate AllAtMost<T>(ys: seq<T>, key: T -> int, b: int) {
    forall i :: 0 <= i < |ys| ==> key(ys[i]) <= b
  }

  lemma AtMostPermuted<T>(ys: seq<T>, zs: seq<T>, key: T -> int, b: int)
    requires multiset(ys) == multiset(zs) && AllAtMost(zs, key, b)
    ensures AllAtMost(ys, key, b)
  {
    forall i | 0 <= i < |ys| ensures key(ys[i]) <= b {
      assert ys[i] in multiset(zs);
      var j :| 0 <= j < |zs| && zs[j] == ys[i];
    }
  }

  lemma SortedSnoc<T>(ys: seq<T>, z: T, key: T -> int)
    requires SortedBy(ys, key) && AllAtMost(ys, key, key(z))
    ensures SortedBy(ys + [z], key)
  {
  }

  /** Inserts `x` after every element whose key is not larger. */
  function InsertBy<T>(xs: seq<T>, x: T, key: T -> int): (r: seq<T>)
    requires SortedBy(xs, key)
    ensures SortedBy(r, key)
    ensures multiset(r) == multiset(xs) + multiset{x}
  {
    if xs == [] || key(xs[|xs| - 1]) <= key(x) then xs + [x]
    else
      var init, last := xs[..|xs| - 1], xs[|xs| - 1];
      var ins := InsertBy(init, x, key);
      assert xs == init + [last];
      assert AllAtMost(init + [x], key, key(last)) by {
        forall i | 0 <= i < |init| + 1 ensures key((init + [x])[i]) <= key(last) {
          if i < |init| { assert (init + [x])[i] == xs[i]; }
        }
      }
      AtMostPermuted(ins, init + [x], key, key(last));
      SortedSnoc(ins, last, key);
      ins + [last]
  }

  /** An element whose key is not smaller than the last one's goes at the end. */
  lemma InsertAtEnd<T>(xs: seq<T>, x: T, key: T -> int)
    requires SortedBy(xs, key) && (xs == [] || key(xs[|xs| - 1]) <= key(x))
    ensures InsertBy(xs, x, key) == xs + [x]
  {
  }

  /** An element whose key is smaller than the last one's goes before it. */
  lemma InsertBeforeLast<T>(xs: seq<T>, x: T, key: T -> int)
    requires SortedBy(xs, key) && xs != [] && key(x) < key(xs[|xs| - 1])
    ensures SortedBy(xs[..|xs| - 1], key)
    ensures InsertBy(xs, x, key) == InsertBy(xs[..|xs| - 1], x, key) + [xs[|xs| - 1]]
  {
  }

  /** Inserting adds exactly `x` and keeps every element already there. */
  lemma InsertByMembers<T>(xs: seq<T>, x: T, key: T -> int)
    requires SortedBy(xs, key)
    ensures var r := InsertBy(xs, x, key);
            |r| == |xs| + 1 && x in r && forall y :: y in r <==> y in xs || y == x
  {
    var r := InsertBy(xs, x, key);
    assert |multiset(r)| == |multiset(xs)| + 1;
    assert x in multiset(r);
    forall y ensures y in r <==> y in xs || y == x {
      assert y in r <==> y in multiset(r);
      assert y in xs <==> y in multiset(xs);
    }
  }

  /** The elements of `xs`, ordered by `key`; equal keys keep their order. */
  function SortBy<T>(xs: seq<T>, key: T -> int): (r: seq<T>)
    ensures SortedBy(r, key)
    ensures multiset(r) == multiset(xs)
  {
    if xs == [] then []
    else
      assert xs == xs[..|xs| - 1] + [xs[|xs| - 1]];
      InsertBy(SortBy(xs[..|xs| - 1], key), xs[|xs| - 1], key)
  }
}
