/** `std::accumulate(first, last, 0)` over doubles: the initial value `0`
    is an `int`, so the accumulator is an `int` and every partial sum
    `acc + x` (a double) is converted back to `int`, truncating toward
    zero. */
module Accumulate {

  /** Conversion of a double to `int`: truncation toward zero. */
  function Trunc(x: real): (r: int)
    ensures 0.0 <= x ==> 0 <= r && r as real <= x < r as real + 1.0
    ensures x < 0.0 ==> r <= 0 && r as real - 1.0 < x <= r as real
  {
    if x >= 0.0 then x.Floor else -((-x).Floor)
  }

  /** The value `std::accumulate(s.begin(), s.end(), 0)` returns: a left
      fold, the last element added last. */
  function TruncSum(s: seq<real>): int
  {
    if |s| == 0 then 0 else Trunc(TruncSum(s[..|s| - 1]) as real + s[|s| - 1])
  }

  /** The exact sum over the reals, folded in the same order. */
  function Sum(s: seq<real>): real
  {
    if |s| == 0 then 0.0 else Sum(s[..|s| - 1]) + s[|s| - 1]
  }

  predicate IsIntegral(x: real)
  {
    x == x.Floor as real
  }

  /** The accumulation loop itself. */
  method AccumulateInt(s: seq<real>) returns (acc: int)
    ensures acc == TruncSum(s)
  {
    acc := 0;
    for i := 0 to |s|
      invariant acc == TruncSum(s[..i])
    {
      assert s[..i + 1][..i] == s[..i];
      acc := Trunc(acc as real + s[i]);
    }
    assert s[..|s|] == s;
  }

  /** Truncation leaves an integer unchanged. */
  lemma TruncOfIntegral(x: real)
    requires IsIntegral(x)
    ensures Trunc(x) as real == x
  {
    var k := x.Floor;
    if x < 0.0 {
      assert -x == (-k) as real;
      assert (-x).Floor == -k;
    }
  }

  /** On integer-valued elements the truncating fold is the exact sum. */
  lemma {:induction false} TruncSumOfIntegers(s: seq<real>)
    requires forall k :: 0 <= k < |s| ==> IsIntegral(s[k])
    ensures TruncSum(s) as real == Sum(s)
  {
    if |s| > 0 {
      var p := s[..|s| - 1];
      TruncSumOfIntegers(p);
      var last := s[|s| - 1];
      assert IsIntegral(last);
      var y := TruncSum(p) as real + last;
      assert y == (TruncSum(p) + last.Floor) as real;
      TruncOfIntegral(y);
      assert s[..|s| - 1] == p;
    }
  }

  /** Each addition loses less than one unit, so after |s| additions the
      fold is within |s| of the exact sum. */
  lemma {:induction false} TruncSumError(s: seq<real>)
    ensures Sum(s) - |s| as real <= TruncSum(s) as real <= Sum(s) + |s| as real
  {
    if |s| > 0 {
      TruncSumError(s[..|s| - 1]);
    }
  }

  /** Unfolding the fold for two elements. */
  lemma TruncSumOfPair(a: real, b: real)
    ensures TruncSum([a, b]) == Trunc(Trunc(a) as real + b)
  {
    assert [a, b][..1] == [a];
    assert [a][..0] == [];
    assert TruncSum([a]) == Trunc(0 as real + a);
    assert 0 as real + a == a;
  }

  /** The fractional parts are lost: two halves accumulate to 0, not 1. */
  lemma TruncSumLosesHalves()
    ensures TruncSum([0.5, 0.5]) == 0 && Sum([0.5, 0.5]) == 1.0
  {
    TruncSumOfPair(0.5, 0.5);
    assert [0.5, 0.5][..1] == [0.5];
    assert [0.5][..0] == [];
  }
}
