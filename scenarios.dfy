/**
 * The library's own usage examples, stated as methods whose postconditions
 * are the expected observations.
 */
module Scenarios {
  import opened Sequences
  import opened Producers
  import opened Streams

  /** A stream over 1, 2, 3 yields 1, 2, 3 and then nothing. */
  method Construct() returns (a: Option<int>, b: Option<int>, c: Option<int>, d: Option<int>)
    ensures a == Some(1) && b == Some(2) && c == Some(3) && d == None
  {
    var s := Stream([1, 2, 3]);
    a, s := s.Next();
    b, s := s.Next();
    c, s := s.Next();
    d, s := s.Next();
  }

  /** Filtering 1..6 for even values yields 2, 4, 6, then nothing, and nothing again. */
  method FilterEven() returns (results: seq<Option<int>>)
    ensures results == [Some(2), Some(4), Some(6), None, None]
  {
    var even := (x: int) => x % 2 == 0;
    var s := Stream([1, 2, 3, 4, 5, 6]).Filter(even);
    assert Filtered([5, 6], even) == [6] by {
      assert [5, 6][1..] == [6] && [6][1..] == [];
    }
    assert Filtered([3, 4, 5, 6], even) == [4, 6] by {
      assert [3, 4, 5, 6][1..] == [4, 5, 6] && [4, 5, 6][1..] == [5, 6];
    }
    assert Filtered([1, 2, 3, 4, 5, 6], even) == [2, 4, 6] by {
      assert [1, 2, 3, 4, 5, 6][1..] == [2, 3, 4, 5, 6] && [2, 3, 4, 5, 6][1..] == [3, 4, 5, 6];
    }
    results, s := NextTimes(s, 5);
    YieldsThenExhausted([2, 4, 6], 5);
  }

  /** Squaring 1, 2, 3 yields 1, 4, 9 and then nothing. */
  method MapSquare() returns (results: seq<Option<int>>)
    ensures results == [Some(1), Some(4), Some(9), None]
  {
    var s := Stream([1, 2, 3]).Map(x => x * x);
    results, s := NextTimes(s, 4);
    YieldsThenExhausted([1, 4, 9], 4);
  }

  /** The product of 2, 3, 4 from seed 1 is 24. */
  method ReduceProduct() returns (r: int)
    ensures r == 24
  {
    var xs := [2, 3, 4];
    r := Stream(xs).Reduce(1, (acc: int, x: int) => acc * x);
    assert xs[1..][1..][1..] == [];
  }

  /** The sum of 1, 2, 3 is 6, and the sum of no values is 0. */
  method SumSmall() returns (six: int, zero: int)
    ensures six == 6 && zero == 0
  {
    var xs := [1, 2, 3];
    six := Sum(Stream(xs));
    assert xs[1..][1..][1..] == [];
    zero := Sum(Stream([]));
  }

  /** The sum of the strings "foo" and "bar" is "foobar". */
  method SumStringsSmall() returns (r: string)
    ensures r == "foobar"
  {
    var xs := ["foo", "bar"];
    r := SumStrings(Stream(xs));
    assert xs[1..][1..] == [];
  }

  /** Squaring 1, 2, 3, 4 and keeping the squares above 4 leaves 9 and 16. */
  lemma MapThenFilter()
    ensures Stream([1, 2, 3, 4]).Map(x => x * x).Filter(x => x > 4).Remaining() == [9, 16]
  {
  }

  /**
   * Deriving, reducing or summing a stream works on a copy of its chain:
   * pulling the stream afterwards still starts where it was, and a stream
   * derived before a pull still sees the value that pull took.
   */
  method CopiesDoNotAdvance() returns (first: Option<int>, squares: int, total: int, second: Option<int>)
    ensures first == Some(1) && squares == 14 && total == 5 && second == Some(2)
  {
    var xs := [1, 2, 3];
    var s := Stream(xs);
    var t := s.Map(x => x * x);
    first, s := s.Next();
    squares := Sum(t);
    total := Sum(s);
    second, s := s.Next();
    assert xs[1..][1..][1..] == [];
  }
}
