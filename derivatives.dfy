/**
 * The finite-difference series the monitoring script plots under the temperature traces,
 * and the split of a series into a non-negative and a negative trace.
 *
 * The source divides by the time step without a guard, so a series is defined only when no
 * two consecutive timestamps are equal (`DistinctSteps`); the acquisition tick models what
 * happens otherwise.
 */
module Derivatives {

  import opened Wrappers

  /** No two consecutive timestamps are equal. */
  predicate DistinctSteps(t: seq<real>)
  {
    forall i :: 1 <= i < |t| ==> t[i] != t[i - 1]
  }

  /** First differences: element 0 is 0, element i is (v[i] - v[i-1]) / (t[i] - t[i-1]). */
  function FirstDerivative(t: seq<real>, v: seq<real>): (d: seq<real>)
    requires 1 <= |t| == |v| && DistinctSteps(t)
    ensures |d| == |t| && d[0] == 0.0
  {
    [0.0] + seq(|t| - 1, j requires 0 <= j < |t| - 1 => (v[j + 1] - v[j]) / (t[j + 1] - t[j]))
  }

  function Square(x: real): (sq: real) { x * x }

  /** A nonzero step has a nonzero square. */
  lemma SquareNonzero(h: real)
    requires h != 0.0
    ensures Square(h) != 0.0
  {
    DivideTwice(1.0, h, h);
  }

  /** Dividing by two nonzero factors one after the other is dividing by their product. */
  lemma DivideTwice(a: real, h: real, g: real)
    requires h != 0.0 && g != 0.0
    ensures h * g != 0.0 && (a / h) / g == a / (h * g)
  {
  }

  /**
   * Second differences: elements 0 and 1 are 0, element i is
   * (v[i] - 2 v[i-1] + v[i-2]) / (t[i] - t[i-1])^2.
   */
  function SecondDerivative(t: seq<real>, v: seq<real>): (d: seq<real>)
    requires 2 <= |t| == |v| && DistinctSteps(t)
    ensures |d| == |t| && d[0] == 0.0 && d[1] == 0.0
  {
    [0.0, 0.0] + seq(|t| - 2, j requires 0 <= j < |t| - 2 =>
      SquareNonzero(t[j + 2] - t[j + 1]);
      (v[j + 2] - 2.0 * v[j + 1] + v[j]) / Square(t[j + 2] - t[j + 1]))
  }

  /** The trace of the non-negative values: `val if val >= 0 else None`. */
  function Positive(d: seq<real>): (p: seq<Option<real>>)
  {
    seq(|d|, i requires 0 <= i < |d| => if d[i] >= 0.0 then Some(d[i]) else None)
  }

  /** The trace of the negative values: `val if val < 0 else None`. */
  function Negative(d: seq<real>): (n: seq<Option<real>>)
  {
    seq(|d|, i requires 0 <= i < |d| => if d[i] < 0.0 then Some(d[i]) else None)
  }

  /** Every index is present in exactly one of the two traces. */
  predicate Complementary(p: seq<Option<real>>, n: seq<Option<real>>)
  {
    |p| == |n| && forall i :: 0 <= i < |p| ==> p[i].Some? != n[i].Some?
  }

  /** Reassembles a series from its two traces. */
  function Merge(p: seq<Option<real>>, n: seq<Option<real>>): (d: seq<real>)
    requires Complementary(p, n)
    ensures |d| == |p|
  {
    seq(|p|, i requires 0 <= i < |p| => if p[i].Some? then p[i].value else n[i].value)
  }

  /**
   * The split partitions the indices: each value lands in exactly one trace, the
   * non-negative trace takes exactly the values >= 0, and each carries the value unchanged.
   */
  lemma SplitPartitions(d: seq<real>)
    ensures Complementary(Positive(d), Negative(d))
    ensures forall i :: 0 <= i < |d| ==>
      (Positive(d)[i] == Some(d[i]) <==> d[i] >= 0.0) &&
      (Negative(d)[i] == Some(d[i]) <==> d[i] < 0.0)
  {
  }

  /** Nothing is lost by the split: merging the two traces gives the series back. */
  lemma MergeSplit(d: seq<real>)
    ensures Complementary(Positive(d), Negative(d))
    ensures Merge(Positive(d), Negative(d)) == d
  {
    SplitPartitions(d);
    var m := Merge(Positive(d), Negative(d));
    forall i | 0 <= i < |d|
      ensures m[i] == d[i]
    {
    }
  }

  /** v[0] plus the area under the first differences up to index i. */
  function Integral(t: seq<real>, d: seq<real>, v0: real, i: nat): (v: real)
    requires i < |t| == |d|
  {
    if i == 0 then v0 else Integral(t, d, v0, i - 1) + d[i] * (t[i] - t[i - 1])
  }

  /**
   * The first differences lose only the starting value: summing slope times step from v[0]
   * gives back every sample.
   */
  lemma {:induction false} IntegralOfFirstDerivative(t: seq<real>, v: seq<real>, i: nat)
    requires 1 <= |t| == |v| && DistinctSteps(t) && i < |t|
    ensures Integral(t, FirstDerivative(t, v), v[0], i) == v[i]
  {
    if i > 0 {
      IntegralOfFirstDerivative(t, v, i - 1);
      var d := FirstDerivative(t, v);
      var dt := t[i] - t[i - 1];
      assert d[i] == (v[i] - v[i - 1]) / dt;
      assert d[i] * dt == v[i] - v[i - 1];
    }
  }

  /** The algebra behind SecondIsSlopeOfFirst, on plain numbers. */
  lemma DifferenceOfSlopes(a: real, b: real, c: real, h: real)
    requires h != 0.0
    ensures Square(h) != 0.0
    ensures ((a - b) / h - (b - c) / h) / h == (a - 2.0 * b + c) / Square(h)
  {
    SquareNonzero(h);
    assert (a - b) / h - (b - c) / h == (a - 2.0 * b + c) / h;
    DivideTwice(a - 2.0 * b + c, h, h);
  }

  /**
   * On an evenly spaced stretch the second difference is the first difference of the first
   * differences, divided by the step.
   */
  lemma SecondIsSlopeOfFirst(t: seq<real>, v: seq<real>, i: nat)
    requires 2 <= |t| == |v| && DistinctSteps(t) && 2 <= i < |t|
    requires t[i] - t[i - 1] == t[i - 1] - t[i - 2]
    ensures SecondDerivative(t, v)[i] ==
      (FirstDerivative(t, v)[i] - FirstDerivative(t, v)[i - 1]) / (t[i] - t[i - 1])
  {
    var h := t[i] - t[i - 1];
    var d1 := FirstDerivative(t, v);
    var d2 := SecondDerivative(t, v);
    assert d1[i] == (v[i] - v[i - 1]) / h;
    assert d1[i - 1] == (v[i - 1] - v[i - 2]) / h;
    DifferenceOfSlopes(v[i], v[i - 1], v[i - 2], h);
    assert d2[i] == (v[i] - 2.0 * v[i - 1] + v[i - 2]) / Square(h);
  }

  /** Three samples one second apart: 300 K, 302 K, 303 K. */
  lemma ThreeSampleScenario()
    ensures FirstDerivative([0.0, 1.0, 2.0], [300.0, 302.0, 303.0]) == [0.0, 2.0, 1.0]
    ensures SecondDerivative([0.0, 1.0, 2.0], [300.0, 302.0, 303.0]) == [0.0, 0.0, -1.0]
  {
  }
}
