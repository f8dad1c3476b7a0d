/**
 * The pipeline handle.  A stream holds exactly one producer chain.  `Filter`
 * and `Map` wrap a copy of that chain in a new stage and return a new stream;
 * `Reduce` and `Sum` drain a copy and return only the result.  None of them
 * touches the receiver.  Only `Next` pulls the stream's own chain, and it
 * returns the stream as it is after that pull.
 */
module Streams {
  import opened Sequences
  import opened Producers

  datatype StreamType<!T> = StreamType(producer: Producer<T>)
  {
    ghost predicate Valid()
    {
      Producers.Valid(producer)
    }

    /** The values the stream will still yield, in order. */
    ghost function Remaining(): seq<T>
      requires Valid()
    {
      Rest(producer)
    }

    /** A stream of the values of this one that satisfy `pred`, in their order. */
    function Filter(pred: T -> bool): (s: StreamType<T>)
      requires Valid()
      ensures s.Valid() && s.Remaining() == Filtered(Remaining(), pred)
    {
      StreamType(FilterProducer(producer, pred))
    }

    /** A stream of the images under `mapper` of the values of this one. */
    function Map(mapper: T -> T): (s: StreamType<T>)
      requires Valid()
      ensures s.Valid() && s.Remaining() == Mapped(Remaining(), mapper)
    {
      StreamType(MapProducer(producer, mapper))
    }

    /** The left fold of the remaining values, computed on a copy of the chain. */
    method Reduce<R>(seed: R, reducer: (R, T) -> R) returns (r: R)
      requires Valid()
      ensures r == FoldLeft(reducer, seed, Remaining())
    {
      var drained;
      r, drained := Producers.Reduce(producer, reducer, seed);
    }

    /** One pull of the stream's own chain; `s` is this stream after the pull. */
    method Next() returns (next: Option<T>, s: StreamType<T>)
      requires Valid()
      ensures s.Valid() && Advances(Remaining(), next, s.Remaining())
    {
      var p;
      next, p := Pull(producer);
      s := StreamType(p);
    }
  }

  /** A stream over the elements of `xs`, its cursor on the first one. */
  function Stream<T>(xs: seq<T>): (s: StreamType<T>)
    ensures s.Valid() && s.Remaining() == xs
  {
    StreamType(SourceProducer(xs, 0))
  }

  /** The sum of the remaining values: the reduction from 0 with `+`. */
  method Sum(s: StreamType<int>) returns (r: int)
    requires s.Valid()
    ensures r == Total(s.Remaining())
  {
    r := s.Reduce(0, (a: int, b: int) => a + b);
    FoldLeftAddIsTotal(0, s.Remaining());
  }

  /** The sum of a stream of strings: the reduction from "" with concatenation. */
  method SumStrings(s: StreamType<string>) returns (r: string)
    requires s.Valid()
    ensures r == Concat(s.Remaining())
  {
    r := s.Reduce("", (a: string, b: string) => a + b);
    FoldLeftAppendIsConcat("", s.Remaining());
  }

  /**
   * `k` successive pulls of the stream's own chain: every value it has left,
   * in order, then `None` for every pull after exhaustion.
   */
  method NextTimes<T>(s: StreamType<T>, k: nat) returns (results: seq<Option<T>>, s': StreamType<T>)
    requires s.Valid()
    ensures s'.Valid() && results == Yields(s.Remaining(), k)
    ensures s'.Remaining() == if k <= |s.Remaining()| then s.Remaining()[k..] else []
  {
    ghost var all := s.Remaining();
    ghost var rest := all;
    results, s' := [], s;
    var i := 0;
    while i < k
      invariant i <= k && s'.Valid() && s'.Remaining() == rest
      invariant rest == if i <= |all| then all[i..] else []
      invariant Yields(all, k) == results + Yields(rest, k - i)
    {
      var next;
      next, s' := s'.Next();
      NextStep(all, k, i, results, rest, next, s'.Remaining());
      results, rest := results + [next], s'.Remaining();
      i := i + 1;
    }
  }

  /** One more call of `next` during `NextTimes` keeps its loop invariant. */
  lemma NextStep<T>(all: seq<T>, k: nat, i: nat, results: seq<Option<T>>, rest: seq<T>,
                    next: Option<T>, after: seq<T>)
    requires i < k && rest == (if i <= |all| then all[i..] else [])
    requires Yields(all, k) == results + Yields(rest, k - i)
    requires Advances(rest, next, after)
    ensures after == if i + 1 <= |all| then all[i + 1..] else []
    ensures Yields(all, k) == (results + [next]) + Yields(after, k - (i + 1))
  {
  }

  /** Two filters in a row pass on what one filter with both predicates does. */
  lemma FilterTwice<T>(s: StreamType<T>, first: T -> bool, second: T -> bool)
    requires s.Valid()
    ensures s.Filter(first).Filter(second).Remaining() ==
            s.Filter(x => first(x) && second(x)).Remaining()
  {
    FilteredTwice(s.Remaining(), first, second);
  }
}
