/**
 Stable sorting by an order on keys, as Python's `sorted(..., key=...)` does it,
 with the two facts its users need: the result is an ordered permutation, and an
 ordering without ties leaves only one possible result.
 */
module Sorting {
  ghost predicate TotalOrder<T(!new)>(le: (T, T) -> bool) {
    && (forall a, b :: le(a, b) || le(b, a))
    && (forall a, b, c :: le(a, b) && le(b, c) ==> le(a, c))
  }

  ghost predicate Ordered<T>(le: (T, T) -> bool, xs: seq<T>) {
    forall i, j :: 0 <= i < j < |xs| ==> le(xs[i], xs[j])
  }

  /** No element may stand before a different one and after it as well. */
  ghost predicate Untied<T>(le: (T, T) -> bool, xs: seq<T>) {
    forall i, j :: 0 <= i < |xs| && 0 <= j < |xs| && i != j ==> !(le(xs[i], xs[j]) && le(xs[j], xs[i]))
  }

  function Insert<T>(le: (T, T) -> bool, x: T, xs: seq<T>): seq<T> {
    if xs == [] then [x]
    else if le(x, xs[0]) then [x] + xs
    else [xs[0]] + Insert(le, x, xs[1..])
  }

  function Sort<T>(le: (T, T) -> bool, xs: seq<T>): seq<T> {
    if xs == [] then [] else Insert(le, xs[0], Sort(le, xs[1..]))
  }

  lemma {:induction false} InsertPermutes<T>(le: (T, T) -> bool, x: T, xs: seq<T>)
    ensures multiset(Insert(le, x, xs)) == multiset([x] + xs)
  {
    if xs != [] && !le(x, xs[0]) {
      InsertPermutes(le, x, xs[1..]);
      assert xs == [xs[0]] + xs[1..];
    }
  }

  lemma {:induction false} InsertOrders<T(!new)>(le: (T, T) -> bool, x: T, xs: seq<T>)
    requires TotalOrder(le) && Ordered(le, xs)
    ensures Ordered(le, Insert(le, x, xs))
  {
    if xs != [] {
      if le(x, xs[0]) {
        forall j | 0 < j < |[x] + xs|
          ensures le(x, ([x] + xs)[j])
        {
          assert ([x] + xs)[j] == xs[j - 1];
        }
      } else {
        InsertOrders(le, x, xs[1..]);
        InsertPermutes(le, x, xs[1..]);
        var rest := Insert(le, x, xs[1..]);
        forall j | 0 <= j < |rest|
          ensures le(xs[0], rest[j])
        {
          assert rest[j] in multiset(rest);
          assert rest[j] in multiset([x] + xs[1..]);
          assert rest[j] == x || rest[j] in xs[1..];
        }
      }
    }
  }

  /** Sorting gives an ordered permutation. */
  lemma {:induction false} SortOrders<T(!new)>(le: (T, T) -> bool, xs: seq<T>)
    requires TotalOrder(le)
    ensures Ordered(le, Sort(le, xs)) && multiset(Sort(le, xs)) == multiset(xs)
    ensures |Sort(le, xs)| == |xs| && (forall x :: x in Sort(le, xs) <==> x in xs)
  {
    if xs != [] {
      SortOrders(le, xs[1..]);
      InsertOrders(le, xs[0], Sort(le, xs[1..]));
      InsertPermutes(le, xs[0], Sort(le, xs[1..]));
      assert xs == [xs[0]] + xs[1..];
    }
    assert |Sort(le, xs)| == |multiset(Sort(le, xs))| == |multiset(xs)| == |xs|;
    forall x
      ensures x in Sort(le, xs) <==> x in xs
    {
      assert x in Sort(le, xs) <==> x in multiset(Sort(le, xs));
    }
  }

  lemma HeadFacts<T(!new)>(le: (T, T) -> bool, xs: seq<T>)
    ensures xs != [] ==> xs[0] in xs
    ensures Ordered(le, xs) ==> forall x :: x in xs ==> x == xs[0] || le(xs[0], x)
    ensures Untied(le, xs) ==> forall x, y :: x in xs && y in xs && x != y ==> !(le(x, y) && le(y, x))
  {
  }

  /** Without ties an ordered sequence is determined by its elements. */
  lemma {:induction false} OrderedIsUnique<T(!new)>(le: (T, T) -> bool, xs: seq<T>, ys: seq<T>)
    requires Ordered(le, xs) && Ordered(le, ys) && Untied(le, xs) && Untied(le, ys)
    requires forall x :: x in xs <==> x in ys
    ensures xs == ys
    decreases |xs|
  {
    HeadFacts(le, xs);
    HeadFacts(le, ys);
    if xs != [] {
      assert xs[0] == ys[0];
      HeadIsOut(le, xs);
      HeadIsOut(le, ys);
      forall x
        ensures x in xs[1..] <==> x in ys[1..]
      {
        assert x in xs <==> x == xs[0] || x in xs[1..];
        assert x in ys <==> x == ys[0] || x in ys[1..];
      }
      OrderedIsUnique(le, xs[1..], ys[1..]);
      assert xs == [xs[0]] + xs[1..] && ys == [ys[0]] + ys[1..];
    }
  }

  lemma HeadIsOut<T(!new)>(le: (T, T) -> bool, xs: seq<T>)
    requires xs != [] && Ordered(le, xs) && Untied(le, xs)
    ensures xs[0] !in xs[1..]
  {
    forall k | 0 < k < |xs|
      ensures xs[k] != xs[0]
    {
      assert le(xs[0], xs[k]);
    }
    forall x | x in xs[1..]
      ensures x != xs[0]
    {
      var k :| 0 <= k < |xs[1..]| && xs[1..][k] == x;
      assert x == xs[k + 1];
    }
  }

  // ---- Distinct elements -------------------------------------------------

  /** A permutation repeats nothing that was not repeated before. */
  lemma DistinctAfterSort<K(!new)>(before: seq<K>, after: seq<K>)
    requires multiset(before) == multiset(after)
    requires forall i, j :: 0 <= i < j < |before| ==> before[i] != before[j]
    ensures forall i, j :: 0 <= i < j < |after| ==> after[i] != after[j]
  {
    OncePerElement(before);
    forall i, j | 0 <= i < j < |after|
      ensures after[i] != after[j]
    {
      assert after == after[..i] + [after[i]] + after[i + 1..j] + [after[j]] + after[j + 1..];
      assert after[i] in multiset(before) && after[j] in multiset(before);
    }
  }

  lemma {:induction false} OncePerElement<K(!new)>(xs: seq<K>)
    requires forall i, j :: 0 <= i < j < |xs| ==> xs[i] != xs[j]
    ensures forall x :: multiset(xs)[x] <= 1
  {
    if xs != [] {
      OncePerElement(xs[1..]);
      assert xs == [xs[0]] + xs[1..];
      assert xs[0] !in xs[1..];
    }
  }
}
