/** The alignment as the method it implements intends it: means divided by
    N, sums taken exactly, and the dominant eigenvalue chosen by a true
    arg-max. These are the corrected counterparts of the pieces of `align`
    whose written form departs from that intent. */
module Intended {
  import opened Shapes
  import opened Accumulate
  import opened CrossCovariance
  import opened QMatrix
  import opened Selection
  import opened Althloothi

  function Mean(x: seq<real>): real
  {
    if |x| == 0 then 0.0 else Sum(x) / (|x| as real)
  }

  /** Entry (i, j) of equation (18): the products of the centred rows,
      each divided by N, summed exactly. */
  function IntendedCovEntry(x: seq<real>, y: seq<real>): real
    requires |x| == |y|
  {
    Sum(Products(x, y, Mean(x), Mean(y), |x|))
  }

  /** Both inputs have three rows of one common length N. */
  predicate SameShape(from: Coefficients, to: Coefficients)
  {
    var n := |from[0]|;
    |from[1]| == n && |from[2]| == n && |to[0]| == n && |to[1]| == n && |to[2]| == n
  }

  function IntendedCovariance(from: Coefficients, to: Coefficients): Mat3
    requires SameShape(from, to)
  {
    [[IntendedCovEntry(from[0], to[0]), IntendedCovEntry(from[0], to[1]), IntendedCovEntry(from[0], to[2])],
     [IntendedCovEntry(from[1], to[0]), IntendedCovEntry(from[1], to[1]), IntendedCovEntry(from[1], to[2])],
     [IntendedCovEntry(from[2], to[0]), IntendedCovEntry(from[2], to[1]), IntendedCovEntry(from[2], to[2])]]
  }

  function Shift(x: seq<real>, t: real): (r: seq<real>)
    ensures |r| == |x| && forall k :: 0 <= k < |x| ==> r[k] == x[k] + t
  {
    seq(|x|, k requires 0 <= k < |x| => x[k] + t)
  }

  function Scale(x: seq<real>, a: real): (r: seq<real>)
    ensures |r| == |x| && forall k :: 0 <= k < |x| ==> r[k] == a * x[k]
  {
    seq(|x|, k requires 0 <= k < |x| => a * x[k])
  }

  lemma {:induction false} SumOfShift(x: seq<real>, t: real)
    ensures Sum(Shift(x, t)) == Sum(x) + |x| as real * t
  {
    if |x| > 0 {
      var p := x[..|x| - 1];
      SumOfShift(p, t);
      assert Shift(x, t)[..|x| - 1] == Shift(p, t);
    }
  }

  lemma {:induction false} SumOfScale(x: seq<real>, a: real)
    ensures Sum(Scale(x, a)) == a * Sum(x)
  {
    if |x| > 0 {
      var p := x[..|x| - 1];
      SumOfScale(p, a);
      assert forall k :: 0 <= k < |p| ==> Scale(x, a)[..|x| - 1][k] == Scale(p, a)[k];
      assert Scale(x, a)[..|x| - 1] == Scale(p, a);
    }
  }

  lemma MeanOfShift(x: seq<real>, t: real)
    ensures Mean(Shift(x, t)) == if |x| == 0 then 0.0 else Mean(x) + t
  {
    if |x| > 0 {
      SumOfShift(x, t);
      var n := |x| as real;
      assert (Sum(x) + n * t) / n == Sum(x) / n + t;
    }
  }

  lemma MeanOfScale(x: seq<real>, a: real)
    ensures Mean(Scale(x, a)) == a * Mean(x)
  {
    if |x| > 0 {
      SumOfScale(x, a);
      var n := |x| as real;
      assert (a * Sum(x)) / n == a * (Sum(x) / n);
    }
  }

  lemma TermOfShift(u: real, w: real, mx: real, my: real, n: nat, t: real)
    requires n > 0
    ensures Term(u + t, w, mx + t, my, n) == Term(u, w, mx, my, n)
  {
    assert (u + t) - (mx + t) == u - mx;
  }

  lemma TermOfScale(u: real, w: real, mx: real, my: real, n: nat, a: real)
    requires n > 0
    ensures Term(a * u, w, a * mx, my, n) == a * Term(u, w, mx, my, n)
  {
    var d, e, m := u - mx, w - my, n as real;
    assert a * u - a * mx == a * d;
    assert (a * d) * e == a * (d * e);
    assert (a * (d * e)) / m == a * ((d * e) / m);
  }

  /** Centring removes any constant offset: adding t to every entry of a
      row of `from` leaves its covariance with every row of `to` unchanged. */
  lemma IntendedCovEntryShiftInvariant(x: seq<real>, y: seq<real>, t: real)
    requires |x| == |y|
    ensures IntendedCovEntry(Shift(x, t), y) == IntendedCovEntry(x, y)
  {
    MeanOfShift(x, t);
    var n := |x|;
    var mx, my := Mean(x), Mean(y);
    var p := Products(Shift(x, t), y, Mean(Shift(x, t)), my, n);
    var q := Products(x, y, mx, my, n);
    forall k | 0 <= k < n
      ensures p[k] == q[k]
    {
      var u, w, su := x[k], y[k], Shift(x, t)[k];
      TermOfShift(u, w, mx, my, n, t);
      ProductsAt(Shift(x, t), y, mx + t, my, n, k);
      ProductsAt(x, y, mx, my, n, k);
      assert su == u + t;
    }
    assert p == q;
  }

  lemma ProductsOfScale(x: seq<real>, y: seq<real>, mx: real, my: real, a: real)
    requires |x| == |y|
    ensures Products(Scale(x, a), y, a * mx, my, |x|) == Scale(Products(x, y, mx, my, |x|), a)
  {
    var n := |x|;
    var p := Products(Scale(x, a), y, a * mx, my, n);
    var q := Products(x, y, mx, my, n);
    forall k | 0 <= k < n
      ensures p[k] == Scale(q, a)[k]
    {
      var u, w, su := x[k], y[k], Scale(x, a)[k];
      TermOfScale(u, w, mx, my, n, a);
      ProductsAt(Scale(x, a), y, a * mx, my, n, k);
      ProductsAt(x, y, mx, my, n, k);
      assert su == a * u;
    }
  }

  /** The covariance is linear: scaling a row of `from` by a scales its
      covariance with every row of `to` by a. */
  lemma IntendedCovEntryScales(x: seq<real>, y: seq<real>, a: real)
    requires |x| == |y|
    ensures IntendedCovEntry(Scale(x, a), y) == a * IntendedCovEntry(x, y)
  {
    var sx, mx, my := Scale(x, a), Mean(x), Mean(y);
    MeanOfScale(x, a);
    assert Mean(sx) == a * mx && |sx| == |x|;
    var p, q := Products(sx, y, a * mx, my, |x|), Products(x, y, mx, my, |x|);
    assert IntendedCovEntry(sx, y) == Sum(p);
    ProductsOfScale(x, y, mx, my, a);
    SumOfScale(q, a);
  }

  /** The selection loop as its comment describes it: `max` follows the
      newly chosen value, so the result is the first index of the largest
      eigenvalue. */
  method LargestIndex(vals: Vec4) returns (idx: nat)
    ensures idx < 4
    ensures forall k :: 0 <= k < 4 ==> vals[k] <= vals[idx]
    ensures forall k :: 0 <= k < idx ==> vals[k] < vals[idx]
  {
    idx := 0;
    var max := vals[idx];
    for i := 0 to 4
      invariant idx < 4 && max == vals[idx]
      invariant forall k :: 0 <= k < i ==> vals[k] <= max
      invariant forall k :: 0 <= k < idx ==> vals[k] < max
    {
      if vals[i] > max {
        max := vals[i];
        idx := i;
      }
    }
  }

  /** The alignment with the corrected covariance and selection: the
      column of the first largest eigenvalue, which under a correct solver
      is an eigenvector of Q for that eigenvalue. */
  method IntendedAlign(from: Coefficients, to: Coefficients, eigensolve: Mat4 -> Eigenpairs)
    returns (q: Quaternion)
    requires SameShape(from, to)
    ensures var qm := AssembleQ(IntendedCovariance(from, to));
            var e := eigensolve(qm);
            exists k :: 0 <= k < 4 && q == Column(e.vectors, k) &&
              (forall j :: 0 <= j < 4 ==> e.values[j] <= e.values[k]) &&
              (forall j :: 0 <= j < k ==> e.values[j] < e.values[k]) &&
              (Solves(qm, e) ==> IsEigenpair(qm, e.values[k], q))
  {
    var qm := AssembleQ(IntendedCovariance(from, to));
    var e := eigensolve(qm);
    var idx := LargestIndex(e.values);
    q := Column(e.vectors, idx);
  }
}
