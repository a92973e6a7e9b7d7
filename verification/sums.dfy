/** `Iterator::sum` over a mapped sequence, with the facts both puzzles rely on:
    it splits over concatenation and ignores the order of its elements. */
module Sums {

  /** The sum of `f(x)` over the elements `x` of `xs`: no element's term exceeds it, and it
      is 0 when there are no elements. */
  function SumOf<T>(xs: seq<T>, f: T -> nat): (r: nat)
    ensures forall i :: 0 <= i < |xs| ==> f(xs[i]) <= r
    ensures |xs| == 0 ==> r == 0
  {
    if |xs| == 0 then 0
    else
      var rest := SumOf(xs[1..], f);
      assert forall i :: 0 < i < |xs| ==> xs[i] == xs[1..][i - 1];
      f(xs[0]) + rest
  }

  /** When `f` never exceeds `b`, the sum is at most `b` per element. */
  lemma {:induction false} SumOfBound<T>(xs: seq<T>, f: T -> nat, b: nat)
    requires forall x :: f(x) <= b
    ensures SumOf(xs, f) <= b * |xs|
  {
    if |xs| > 0 {
      SumOfBound(xs[1..], f, b);
    }
  }

  lemma {:induction false} SumOfAppend<T>(a: seq<T>, b: seq<T>, f: T -> nat)
    ensures SumOf(a + b, f) == SumOf(a, f) + SumOf(b, f)
  {
    if |a| > 0 {
      assert (a + b)[1..] == a[1..] + b;
      SumOfAppend(a[1..], b, f);
    } else {
      assert a + b == b;
    }
  }

  /** Removing the element at `i` takes `f` of it off the sum. */
  lemma SumOfRemove<T>(xs: seq<T>, i: nat, f: T -> nat)
    requires i < |xs|
    ensures SumOf(xs, f) == f(xs[i]) + SumOf(xs[..i] + xs[i + 1..], f)
  {
    assert xs == xs[..i] + xs[i..];
    SumOfAppend(xs[..i], xs[i..], f);
    SumOfAppend(xs[..i], xs[i + 1..], f);
    assert xs[i..][1..] == xs[i + 1..];
  }

  lemma MultisetRemove<T>(xs: seq<T>, i: nat)
    requires i < |xs|
    ensures multiset(xs[..i] + xs[i + 1..]) == multiset(xs) - multiset{xs[i]}
  {
    assert xs == xs[..i] + [xs[i]] + xs[i + 1..];
  }

  /** Taking the first element off one of two permutations of each other, and the same
      value off the other, leaves permutations of each other. */
  lemma RemoveMatching<T>(a: seq<T>, b: seq<T>, i: nat)
    requires multiset(a) == multiset(b)
    requires |a| > 0 && i < |b| && b[i] == a[0]
    ensures multiset(a[1..]) == multiset(b[..i] + b[i + 1..])
  {
    MultisetRemove(b, i);
    MultisetTail(a);
  }

  lemma MultisetTail<T>(a: seq<T>)
    requires |a| > 0
    ensures multiset(a[1..]) == multiset(a) - multiset{a[0]}
  {
    assert a == [a[0]] + a[1..];
  }

  /** The sum of a permutation is the same sum. */
  lemma {:induction false} SumOfPermutation<T>(a: seq<T>, b: seq<T>, f: T -> nat)
    requires multiset(a) == multiset(b)
    ensures SumOf(a, f) == SumOf(b, f)
  {
    if |a| > 0 {
      assert a[0] in multiset(b);
      var i :| 0 <= i < |b| && b[i] == a[0];
      RemoveMatching(a, b, i);
      SumOfRemove(b, i, f);
      SumOfPermutation(a[1..], b[..i] + b[i + 1..], f);
    } else {
      assert |b| == |multiset(b)| == 0;
    }
  }
}
