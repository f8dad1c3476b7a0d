/**
 * The abstract view of a stream: the sequence of values it still has to
 * yield.  Each stage of a pipeline is specified by what it does to that
 * sequence: a filter keeps an order-preserving subsequence, a map takes the
 * pointwise image, and a reduction is a strict left fold.
 */
module Sequences {

  /** The elements of `xs` that satisfy `keep`, in their original order. */
  function Filtered<T>(xs: seq<T>, keep: T -> bool): seq<T>
  {
    if xs == [] then []
    else if keep(xs[0]) then [xs[0]] + Filtered(xs[1..], keep)
    else Filtered(xs[1..], keep)
  }

  /** The image of `xs` under `f`, element by element. */
  function Mapped<T, R>(xs: seq<T>, f: T -> R): (r: seq<R>)
    ensures |r| == |xs|
    ensures forall i :: 0 <= i < |xs| ==> r[i] == f(xs[i])
  {
    if xs == [] then [] else [f(xs[0])] + Mapped(xs[1..], f)
  }

  /** `f(...f(f(acc, xs[0]), xs[1])..., xs[|xs| - 1])`. */
  function FoldLeft<T, R>(f: (R, T) -> R, acc: R, xs: seq<T>): R
  {
    if xs == [] then acc else FoldLeft(f, f(acc, xs[0]), xs[1..])
  }

  /** The arithmetic sum of `xs`, computed from the right. */
  function Total(xs: seq<int>): int
  {
    if xs == [] then 0 else xs[0] + Total(xs[1..])
  }

  /**
   * The filtered sequence holds exactly the accepted elements: each of its
   * elements occurs in `xs` and is accepted, each accepted element of `xs`
   * occurs in it, and it is no longer than `xs`.
   */
  lemma {:induction false} FilteredMembers<T>(xs: seq<T>, keep: T -> bool)
    ensures |Filtered(xs, keep)| <= |xs|
    ensures forall i :: 0 <= i < |Filtered(xs, keep)| ==>
      Filtered(xs, keep)[i] in xs && keep(Filtered(xs, keep)[i])
    ensures forall i :: 0 <= i < |xs| && keep(xs[i]) ==> xs[i] in Filtered(xs, keep)
  {
    if xs != [] {
      FilteredMembers(xs[1..], keep);
    }
  }

  /** The concatenation of `xs`, computed from the right. */
  function Concat(xs: seq<string>): string
  {
    if xs == [] then "" else xs[0] + Concat(xs[1..])
  }

  /** Filtering distributes over concatenation, so it keeps relative order. */
  lemma {:induction false} FilteredAppend<T>(a: seq<T>, b: seq<T>, keep: T -> bool)
    ensures Filtered(a + b, keep) == Filtered(a, keep) + Filtered(b, keep)
  {
    if a == [] {
      assert a + b == b;
    } else {
      assert (a + b)[1..] == a[1..] + b;
      FilteredAppend(a[1..], b, keep);
    }
  }

  /** With no element accepted, nothing is left. */
  lemma {:induction false} FilteredNoMatch<T>(xs: seq<T>, keep: T -> bool)
    requires forall i :: 0 <= i < |xs| ==> !keep(xs[i])
    ensures Filtered(xs, keep) == []
  {
    if xs != [] {
      FilteredNoMatch(xs[1..], keep);
    }
  }

  /**
   * Skipping a prefix of rejected values and stopping at the first accepted
   * one yields the head of the filtered sequence; the rest of the filtered
   * sequence is what filtering the untouched suffix gives.
   */
  lemma {:induction false} FilteredAtFirstMatch<T>(xs: seq<T>, k: nat, keep: T -> bool)
    requires 0 < k <= |xs| && keep(xs[k - 1])
    requires forall i :: 0 <= i < k - 1 ==> !keep(xs[i])
    ensures Filtered(xs, keep) == [xs[k - 1]] + Filtered(xs[k..], keep)
  {
    if k > 1 {
      FilteredAtFirstMatch(xs[1..], k - 1, keep);
      assert xs[1..][k - 1..] == xs[k..];
    }
  }

  /** A filter over a filter keeps exactly the values that pass both predicates. */
  lemma {:induction false} FilteredTwice<T>(xs: seq<T>, first: T -> bool, second: T -> bool)
    ensures Filtered(Filtered(xs, first), second) == Filtered(xs, x => first(x) && second(x))
  {
    if xs != [] {
      FilteredTwice(xs[1..], first, second);
      if first(xs[0]) {
        assert ([xs[0]] + Filtered(xs[1..], first))[1..] == Filtered(xs[1..], first);
      }
    }
  }

  /** A left fold combines the last element last: the fold is strict and sequential. */
  lemma {:induction false} FoldLeftSnoc<T, R>(f: (R, T) -> R, acc: R, xs: seq<T>, x: T)
    decreases xs
    ensures FoldLeft(f, acc, xs + [x]) == f(FoldLeft(f, acc, xs), x)
  {
    if xs == [] {
      assert ([] + [x])[1..] == [];
    } else {
      assert (xs + [x])[1..] == xs[1..] + [x];
      FoldLeftSnoc(f, f(acc, xs[0]), xs[1..], x);
    }
  }

  /** Folding with `+` from `acc` adds the sum of the elements to `acc`. */
  lemma {:induction false} FoldLeftAddIsTotal(acc: int, xs: seq<int>)
    decreases xs
    ensures FoldLeft((a: int, b: int) => a + b, acc, xs) == acc + Total(xs)
  {
    if xs != [] {
      FoldLeftAddIsTotal(acc + xs[0], xs[1..]);
    }
  }

  /** Folding with concatenation from `acc` appends the concatenation of the elements to `acc`. */
  lemma {:induction false} FoldLeftAppendIsConcat(acc: string, xs: seq<string>)
    ensures FoldLeft((a: string, b: string) => a + b, acc, xs) == acc + Concat(xs)
    decreases xs
  {
    if xs != [] {
      FoldLeftAppendIsConcat(acc + xs[0], xs[1..]);
    }
  }
}
