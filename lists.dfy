/** The list operations the editors apply to their arrays. */
module Lists {

  /** `xs.splice(i, 1)` for a non-negative index: the element at `i` is deleted and the
      others keep their order; an index past the end deletes nothing. */
  function RemoveAt<T>(xs: seq<T>, i: nat): (r: seq<T>)
    ensures i < |xs| ==> |r| == |xs| - 1
    ensures i < |xs| ==> forall k :: 0 <= k < i ==> r[k] == xs[k]
    ensures i < |xs| ==> forall k :: i <= k < |r| ==> r[k] == xs[k + 1]
    ensures i >= |xs| ==> r == xs
  {
    if i < |xs| then xs[..i] + xs[i + 1..] else xs
  }

  /** Deleting at a valid index takes exactly that one element out of the multiset. */
  lemma RemoveAtMultiset<T>(xs: seq<T>, i: nat)
    requires i < |xs|
    ensures multiset(RemoveAt(xs, i)) + multiset{xs[i]} == multiset(xs)
  {
    assert xs == xs[..i] + [xs[i]] + xs[i + 1..];
  }

  /** Deleting the last element undoes an append. */
  lemma RemoveLast<T>(xs: seq<T>, x: T)
    ensures RemoveAt(xs + [x], |xs|) == xs
  {
    assert (xs + [x])[..|xs|] == xs;
  }

  /** `xs.filter(y => y !== x)`. */
  function RemoveAll<T(==)>(xs: seq<T>, x: T): seq<T> {
    if xs == [] then []
    else (if xs[0] == x then [] else [xs[0]]) + RemoveAll(xs[1..], x)
  }

  /** Every copy of `x` goes, and every other element keeps its number of occurrences. */
  lemma {:induction false} RemoveAllSpec<T(!new)>(xs: seq<T>, x: T)
    ensures x !in RemoveAll(xs, x)
    ensures forall y :: y != x ==> multiset(RemoveAll(xs, x))[y] == multiset(xs)[y]
    ensures |RemoveAll(xs, x)| == |xs| - multiset(xs)[x]
  {
    if xs != [] {
      RemoveAllSpec(xs[1..], x);
      assert xs == [xs[0]] + xs[1..];
    }
  }

  /** What the filter keeps comes from the list and differs from `x`. */
  lemma {:induction false} RemoveAllKeeps<T>(xs: seq<T>, x: T)
    ensures forall y :: y in RemoveAll(xs, x) ==> y in xs && y != x
  {
    if xs != [] {
      RemoveAllKeeps(xs[1..], x);
    }
  }

  /** The filter keeps order: it distributes over concatenation. */
  lemma {:induction false} RemoveAllConcat<T(!new)>(a: seq<T>, b: seq<T>, x: T)
    ensures RemoveAll(a + b, x) == RemoveAll(a, x) + RemoveAll(b, x)
  {
    if a == [] {
      assert a + b == b;
    } else {
      var ab := a + b;
      assert ab[0] == a[0] && ab[1..] == a[1..] + b;
      RemoveAllConcat(a[1..], b, x);
    }
  }

  /** Filtering out a value that does not occur changes nothing. */
  lemma {:induction false} RemoveAllAbsent<T(!new)>(xs: seq<T>, x: T)
    requires x !in xs
    ensures RemoveAll(xs, x) == xs
  {
    if xs != [] {
      RemoveAllAbsent(xs[1..], x);
    }
  }
}
