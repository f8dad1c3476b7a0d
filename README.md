# Feather streams in Dafny

This project models the lazy, pull-based stream pipeline of Feather
(`include/feather/stream.h`). A stream holds one producer. A producer answers
each pull with the next value, or with "nothing" once it is exhausted. The
producer chain is made of three kinds of stage:

- a source that walks a container with a cursor (`default_producer`);
- a filter stage that pulls upstream until a value passes its predicate
  (`filter_producer`);
- a map stage that pulls upstream once and applies its mapper
  (`map_producer`).

A reduction (`reduce_terminator`) drains a chain into a left fold. The stream
handle (`StreamType`) offers `filter`, `map`, `reduce`, `sum` and `next`. The
`Stream` factory builds a handle over a container.

Files:

- `sequences.dfy` (module `Sequences`): the specification vocabulary.
  `Filtered` is the order-preserving subsequence, `Mapped` the pointwise image,
  `FoldLeft` the strict left fold, and `Total` and `Concat` are the integer
  sum and the string concatenation. The lemmas about them are here too.
- `producers.dfy` (module `Producers`): the `Producer` datatype, the pull of
  each stage, the dispatching `Pull`, and `Reduce`. `Rest(p)` is the abstract
  state of a producer: the values it will still yield.
- `streams.dfy` (module `Streams`): the `StreamType` handle, the `Stream`
  factory, `Sum` for integers and strings, and repeated `next`.
- `scenarios.dfy` (module `Scenarios`): the library's test cases, and the
  copy behaviour of derived streams, stated as postconditions.

How the C++ maps to the model:

- Each C++ producer is a function object with a mutable cursor inside.
  `StreamType::filter`, `map` and `reduce` copy the held `std::function`,
  together with the cursor it captures, into the new stage
  (stream.h:121, 127, 132). The model therefore treats a producer chain as a
  value.
- A pull is a method that takes a chain and returns the value it pulled and
  the advanced chain. The filter loop (stream.h:51) and the reduce loop
  (stream.h:101-103) are `while` loops over that chain.
- Because chains are values, building or reducing a derived stream cannot
  move the receiver's cursor. `StreamType.Next` is the one operation that
  returns an advanced stream (stream.h:139-141, 145).
- Every pull is specified against `Rest`. `Advances` states the contract of
  one pull: a producer with values left yields the first one and drops it,
  and an exhausted producer yields `None` and stays exhausted. `SameStages`
  states that a pull only moves the source cursor: the container and every
  callback stay the same.
- The container is an owned `seq` with an index `pos`; `pos == |data|` plays
  the role of `it == end`.
- Callbacks are plain Dafny function values.

## Model

| member | source | states |
|---|---|---|
| `Producers.SourcePull` | include/feather/stream.h:26-30 | with the cursor before the end, yields the element under it and moves the cursor one step; at the end, yields `None` and the cursor stays, so the remaining elements follow the one-pull contract |
| `Producers.FilterPull` | include/feather/stream.h:49-53 | pulls upstream only up to and including the first value that passes the predicate, and returns that value; every value it skipped fails the predicate; it returns `None` only when upstream is exhausted and no remaining upstream value passes; only the source cursor moves |
| `Producers.MapPull` | include/feather/stream.h:73-79 | consumes exactly one upstream value and returns the mapper's image of it, or returns `None` and leaves upstream exhausted |
| `Producers.Pull` | include/feather/stream.h:26-79 | one pull of any chain (source, filter over a chain, map over a chain) yields the first of the chain's remaining values and drops it, or yields `None` and stays exhausted; the stages and callbacks are unchanged |
| `Producers.Reduce` | include/feather/stream.h:99-105 | returns the strict left fold of the reducer over the remaining values, starting from the seed, and leaves its producer exhausted |
| `Producers.YieldsThenExhausted` | include/feather/stream.h:26-30 | pulling a producer with n remaining values k >= n times yields exactly those n values in order, then `None` on every later pull |
| `Sequences.FilteredMembers` | include/feather/stream.h:49-53 | every value a filter yields passes the predicate and comes from upstream; every upstream value that passes is yielded; the output is no longer than upstream |
| `Sequences.FilteredAppend` | include/feather/stream.h:49-53 | filtering a concatenation is the concatenation of the filtered parts, so a filter keeps the upstream order |
| `Sequences.FilteredNoMatch` | include/feather/stream.h:51-52 | a filter over values none of which passes yields nothing |
| `Sequences.FilteredAtFirstMatch` | include/feather/stream.h:51-52 | after skipping rejected values, the first accepted value is the head of the filtered output, and the rest of the output is the filter of what follows it |
| `Sequences.FilteredTwice` | include/feather/stream.h:120-122 | a filter over a filter keeps exactly the values that pass both predicates, in order |
| `Sequences.Mapped` | include/feather/stream.h:73-79 | the mapped output has the upstream's length, and its i-th value is the mapper applied to the i-th upstream value |
| `Sequences.FoldLeftSnoc` | include/feather/stream.h:99-105 | the reducer combines the last value last, `f(...f(f(seed, x0), x1)..., xn-1)`: the fold is strict and left to right |
| `Sequences.FoldLeftAddIsTotal` | include/feather/stream.h:135-137 | folding with `+` from an accumulator adds the arithmetic sum of the values to it |
| `Sequences.FoldLeftAppendIsConcat` | include/feather/stream.h:135-137 | folding with string `+` from an accumulator appends the concatenation of the values to it |
| `Streams.Stream` | include/feather/stream.h:149-152 | a stream built over a container is valid and has exactly the container's elements remaining, in order |
| `Streams.StreamType.Filter` | include/feather/stream.h:120-122 | the new stream yields the receiver's remaining values that pass the predicate, in order |
| `Streams.StreamType.Map` | include/feather/stream.h:124-128 | the new stream yields the mapper's image of each of the receiver's remaining values, in order |
| `Streams.StreamType.Reduce` | include/feather/stream.h:130-133 | returns the left fold over the receiver's remaining values, computed on a copy of the chain |
| `Streams.StreamType.Next` | include/feather/stream.h:139-141 | pulls the stream's own chain once: yields its first remaining value and drops it, or yields `None` and stays exhausted |
| `Streams.Sum` | include/feather/stream.h:135-137 | the sum of an integer stream is the arithmetic sum of its remaining values (with unbounded integers; see "Left out"), so 0 for an empty stream |
| `Streams.SumStrings` | include/feather/stream.h:135-137 | the sum of a string stream is the concatenation of its remaining values, so "" for an empty stream |
| `Streams.NextTimes` | tests/test_stream.cpp:8-12 | k calls of `next` on a stream yield exactly what the one-pull contract gives k times, and leave the stream k values further on, or exhausted |
| `Streams.FilterTwice` | include/feather/stream.h:120-122 | chaining two `filter` calls gives the same remaining values as one `filter` with both predicates |
| `Scenarios.Construct` | tests/test_stream.cpp:7-13 | a stream over 1, 2, 3 yields 1, 2, 3, then `None` |
| `Scenarios.FilterEven` | tests/test_stream.cpp:15-22 | filtering 1..6 for even values yields 2, 4, 6, then `None`, and `None` again |
| `Scenarios.MapSquare` | tests/test_stream.cpp:24-31 | squaring 1, 2, 3 yields 1, 4, 9, then `None` |
| `Scenarios.ReduceProduct` | tests/test_stream.cpp:33-37 | the product of 2, 3, 4 from seed 1 is 24 |
| `Scenarios.SumSmall` | tests/test_stream.cpp:39-40 | the sum of 1, 2, 3 is 6, and the sum of an empty stream is 0 |
| `Scenarios.SumStringsSmall` | tests/test_stream.cpp:41-43 | the sum of "foo" and "bar" is "foobar" |
| `Scenarios.MapThenFilter` | include/feather/stream.h:120-128 | squaring 1, 2, 3, 4 and then keeping the values above 4 leaves 9 and 16 |
| `Scenarios.CopiesDoNotAdvance` | include/feather/stream.h:120-145 | a stream derived before a `next` still sees the pulled value; summing a stream does not advance it; the next `next` continues where the last one stopped |

## Left out

- Streams.StreamType.Map: the mapper's result type (also in `Producers.MapPull` and the `MapProducer` stage) is the element type. The declared return type of `map` is `StreamType<std::invoke_result_t<Mapper, const T&>>` (stream.h:124-126), but inside the class template the body's `StreamType(...)` (stream.h:127) names `StreamType<T>`, and `StreamType<T>` has no conversion to a stream of another element type. On that reading, which was not compiled, only a mapper from `T` to `T` is accepted by the code, and that is what the model supports. A type-changing map, as the declaration suggests, is not modelled.
- `std::function` type erasure (stream.h:11) is not modelled. Callbacks are Dafny function values. A chain is a datatype and not an erased callable.
- Iterator lifetime is not modelled. `default_producer` holds iterators into a container it does not own (stream.h:19-24). The model owns the container as a `seq`, so a dangling iterator cannot occur. Aliasing is not modelled either: in C++ a pull reads the caller's container through those iterators (stream.h:26-30), so writes to its elements after `Stream(c)` are seen by later pulls, whereas the model pulls from the container's contents as they were when the stream was built.
- Streams.Sum: `sum` is a template over any `T` with `T{}` and `+` (stream.h:135-137). It is modelled for `int` (`T{}` is 0), and as `Streams.SumStrings` for `string` (`T{}` is ""). These are the two element types the tests use. The model's `int` is unbounded, so C++ `int` width is not modelled: overflow of `+` in `sum` and of the reducers' arithmetic, such as the `*` in the product test (tests/test_stream.cpp:34-35, `Scenarios.ReduceProduct`) and the squaring in `Scenarios.MapSquare`, is undefined behaviour in C++ and is not captured. `Streams.Sum` equals the arithmetic sum only while the C++ result stays within `int`.
- `collect`, `count`, `any_match` and `all_match` are called by tests/test_stream.cpp:46-65 but are not defined in the header, so no behaviour exists to model. Their tests are not modelled either.
- Infinite sources are not modelled. The source is a finite container, and that finiteness is the termination measure of the filter and reduce loops.
- Callbacks that throw or fail are not modelled: every callback is a total, pure function. The unused `<iostream>` include has no behaviour.
- The producer-based constructor `StreamType(const producer_type<T>&)` (stream.h:118) accepts any callable that returns `std::optional<T>`, including one written by the user. Such a producer may be infinite, or may yield a value after it has yielded `nullopt`. Only chains that start at a container and are built by `filter` and `map` are modelled; the datatype constructor `StreamType(producer)` takes such a chain. A user-supplied producer is not modelled, and exhaustion is proved permanent only for the modelled chains.
