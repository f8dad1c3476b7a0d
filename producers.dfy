/**
 * The producers of a pipeline and the reduction that drains them.
 *
 * A producer answers each pull with the next value or with `None` once it is
 * exhausted.  The chain held by a stream is a source over a container
 * wrapped by any number of filter and map stages.  A chain is a value here:
 * pulling returns the advanced chain, which is how the copy that every stage
 * and every derived stream holds behaves.  The only part of a chain that a
 * pull changes is the cursor of its source.
 */
module Producers {
  import opened Sequences

  datatype Option<T> = None | Some(value: T)

  datatype Producer<!T> =
      /** The source: a container and a cursor into it (`pos == |data|` is the end). */
    | SourceProducer(data: seq<T>, pos: nat)
      /** A stage passing on only the upstream values that satisfy `pred`. */
    | FilterProducer(up: Producer<T>, pred: T -> bool)
      /** A stage passing on the image under `mapper` of each upstream value. */
    | MapProducer(up: Producer<T>, mapper: T -> T)

  /** The source cursor never passes the end of its container. */
  ghost predicate Valid<T>(p: Producer<T>)
  {
    match p
    case SourceProducer(data, pos) => pos <= |data|
    case FilterProducer(up, _) => Valid(up)
    case MapProducer(up, _) => Valid(up)
  }

  /** The values that `p` will yield, in order, from now until it is exhausted. */
  ghost function Rest<T>(p: Producer<T>): seq<T>
    requires Valid(p)
  {
    match p
    case SourceProducer(data, pos) => data[pos..]
    case FilterProducer(up, pred) => Filtered(Rest(up), pred)
    case MapProducer(up, mapper) => Mapped(Rest(up), mapper)
  }

  /** The number of stages above the source. */
  function Depth<T>(p: Producer<T>): nat
  {
    match p
    case SourceProducer(_, _) => 0
    case FilterProducer(up, _) => Depth(up) + 1
    case MapProducer(up, _) => Depth(up) + 1
  }

  /** `q` is `p` with the same container and callbacks: at most its cursor moved. */
  ghost predicate SameStages<T>(p: Producer<T>, q: Producer<T>)
  {
    match p
    case SourceProducer(data, _) => q.SourceProducer? && q.data == data
    case FilterProducer(up, pred) => q.FilterProducer? && q.pred == pred && SameStages(up, q.up)
    case MapProducer(up, mapper) => q.MapProducer? && q.mapper == mapper && SameStages(up, q.up)
  }

  /**
   * The contract of one pull: a producer with values left yields the first of
   * them and drops it; an exhausted producer yields `None` and stays exhausted.
   */
  ghost predicate Advances<T>(before: seq<T>, next: Option<T>, after: seq<T>)
  {
    if before == [] then next == None && after == []
    else next == Some(before[0]) && after == before[1..]
  }

  /** What `k` successive pulls yield from a producer whose remaining values are `rest`. */
  ghost function Yields<T>(rest: seq<T>, k: nat): seq<Option<T>>
  {
    if k == 0 then []
    else if rest == [] then [None] + Yields([], k - 1)
    else [Some(rest[0])] + Yields(rest[1..], k - 1)
  }

  /**
   * Pulling a producer that has the values `rest` left `k >= |rest|` times
   * yields exactly those values in order and then `None` every time:
   * exhaustion is absorbing.
   */
  lemma {:induction false} YieldsThenExhausted<T>(rest: seq<T>, k: nat)
    requires |rest| <= k
    ensures |Yields(rest, k)| == k
    ensures forall i :: 0 <= i < |rest| ==> Yields(rest, k)[i] == Some(rest[i])
    ensures forall i :: |rest| <= i < k ==> Yields(rest, k)[i] == None
  {
    if k > 0 {
      if rest != [] {
        YieldsThenExhausted(rest[1..], k - 1);
      } else {
        YieldsThenExhausted(rest, k - 1);
      }
    }
  }

  lemma {:induction false} SameStagesDepth<T>(p: Producer<T>, q: Producer<T>)
    requires SameStages(p, q)
    ensures Depth(p) == Depth(q)
  {
    match p
    case SourceProducer(_, _) =>
    case FilterProducer(up, _) => SameStagesDepth(up, q.up);
    case MapProducer(up, _) => SameStagesDepth(up, q.up);
  }

  /** The source's pull: the element under the cursor, advancing it, or `None` at the end. */
  method SourcePull<T>(data: seq<T>, pos: nat) returns (next: Option<T>, pos': nat)
    requires pos <= |data|
    ensures pos' <= |data|
    ensures Advances(data[pos..], next, data[pos'..])
  {
    if pos != |data| {
      next, pos' := Some(data[pos]), pos + 1;
    } else {
      next, pos' := None, pos;
    }
  }

  /**
   * A filter has scanned the first `k` values of `all`: none of them before
   * the last one passes `pred`, and `next` is the last one scanned, or `None`
   * once `all` is used up.
   */
  ghost predicate Scanned<T>(all: seq<T>, k: nat, next: Option<T>, pred: T -> bool)
  {
    && k <= |all|
    && (next.None? ==> k == |all| && forall i :: 0 <= i < k ==> !pred(all[i]))
    && (next.Some? ==> 0 < k && all[k - 1] == next.value && forall i :: 0 <= i < k - 1 ==> !pred(all[i]))
  }

  /** One more upstream pull after a rejected value extends the scan by that pull. */
  lemma ScannedStep<T>(all: seq<T>, k: nat, next: Option<T>, pred: T -> bool, next': Option<T>, after: seq<T>)
    requires Scanned(all, k, next, pred) && next.Some? && !pred(next.value)
    requires Advances(all[k..], next', after)
    ensures Scanned(all, if next'.Some? then k + 1 else k, next', pred)
    ensures after == all[if next'.Some? then k + 1 else k..]
  {
  }

  /**
   * The filter stage's pull: pull upstream until a value satisfies `pred` or
   * upstream is exhausted.  The predicate is applied to each pulled value in
   * order, and pulling stops right after the first match.
   */
  method FilterPull<T>(up: Producer<T>, pred: T -> bool) returns (next: Option<T>, up': Producer<T>)
    requires Valid(up)
    ensures Valid(up') && SameStages(up, up')
    ensures |Rest(up')| <= |Rest(up)|
    ensures var k := |Rest(up)| - |Rest(up')|;
      Rest(up') == Rest(up)[k..] && Scanned(Rest(up), k, next, pred)
    ensures next.Some? ==> pred(next.value)
    decreases Depth(up), 1
  {
    ghost var all := Rest(up);
    ghost var k: nat := 0;
    next, up' := Pull(up);
    SameStagesDepth(up, up');
    if next.Some? {
      k := 1;
    }
    while next.Some? && !pred(next.value)
      invariant Valid(up') && SameStages(up, up') && Depth(up') == Depth(up)
      invariant Scanned(all, k, next, pred) && Rest(up') == all[k..]
      decreases |all| - k + (if next.Some? then 1 else 0)
    {
      ghost var before := up';
      ghost var last := next;
      next, up' := Pull(up');
      SameStagesDepth(before, up');
      SameStagesTransitive(up, before, up');
      ScannedStep(all, k, last, pred, next, Rest(up'));
      k := if next.Some? then k + 1 else k;
    }
    assert |all| - |Rest(up')| == k;
  }

  /** The map stage's pull: exactly one upstream pull, with `mapper` applied to a value. */
  method MapPull<T>(up: Producer<T>, mapper: T -> T) returns (next: Option<T>, up': Producer<T>)
    requires Valid(up)
    ensures Valid(up') && SameStages(up, up')
    ensures Rest(up) == [] ==> next == None && Rest(up') == []
    ensures Rest(up) != [] ==> next == Some(mapper(Rest(up)[0])) && Rest(up') == Rest(up)[1..]
    decreases Depth(up), 1
  {
    var v;
    v, up' := Pull(up);
    if v.None? {
      return None, up';
    }
    next := Some(mapper(v.value));
  }

  /** One pull of any producer, dispatched on its outermost stage. */
  method Pull<T>(p: Producer<T>) returns (next: Option<T>, p': Producer<T>)
    requires Valid(p)
    ensures Valid(p') && SameStages(p, p')
    ensures Advances(Rest(p), next, Rest(p'))
    decreases Depth(p), 0
  {
    match p
    case SourceProducer(data, pos) =>
      var pos';
      next, pos' := SourcePull(data, pos);
      p' := SourceProducer(data, pos');
    case FilterProducer(up, pred) =>
      var up';
      next, up' := FilterPull(up, pred);
      p' := FilterProducer(up', pred);
      var k := |Rest(up)| - |Rest(up')|;
      if next.Some? {
        FilteredAtFirstMatch(Rest(up), k, pred);
      } else {
        FilteredNoMatch(Rest(up), pred);
      }
    case MapProducer(up, mapper) =>
      var up';
      next, up' := MapPull(up, mapper);
      p' := MapProducer(up', mapper);
  }

  /**
   * The reduction: pull until exhaustion, replacing the accumulator (which
   * starts as `seed`) by `reducer(accumulator, value)` for each value.  The
   * producer it drains is returned exhausted.
   */
  method Reduce<T, R>(p: Producer<T>, reducer: (R, T) -> R, seed: R) returns (r: R, p': Producer<T>)
    requires Valid(p)
    ensures Valid(p') && SameStages(p, p') && Rest(p') == []
    ensures r == FoldLeft(reducer, seed, Rest(p))
  {
    var next;
    r := seed;
    next, p' := Pull(p);
    while next.Some?
      invariant Valid(p') && SameStages(p, p')
      invariant next.None? ==> Rest(p') == []
      invariant FoldLeft(reducer, seed, Rest(p)) ==
        FoldLeft(reducer, r, (if next.Some? then [next.value] else []) + Rest(p'))
      decreases |Rest(p')| + (if next.Some? then 1 else 0)
    {
      ghost var before := p';
      assert ([next.value] + Rest(p'))[1..] == Rest(p');
      r := reducer(r, next.value);
      next, p' := Pull(p');
      SameStagesTransitive(p, before, p');
    }
  }

  lemma {:induction false} SameStagesTransitive<T>(p: Producer<T>, q: Producer<T>, s: Producer<T>)
    requires SameStages(p, q) && SameStages(q, s)
    ensures SameStages(p, s)
  {
    match p
    case SourceProducer(_, _) =>
    case FilterProducer(up, _) => SameStagesTransitive(up, q.up, s.up);
    case MapProducer(up, _) => SameStagesTransitive(up, q.up, s.up);
  }
}
