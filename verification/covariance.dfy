/** Equation (18) as the code computes it: the 3 x 3 cross-covariance of
    the rows of `from` and `to`. Each "mean" is the truncating integer sum
    of a whole row (never divided by N), each per-column product is divided
    by N, and each entry is again summed with an integer accumulator. */
module CrossCovariance {
  import opened Shapes
  import opened Accumulate

  /** One element of the buffer `c`. */
  function Term(a: real, b: real, mx: real, my: real, n: nat): real
    requires n > 0
  {
    (a - mx) * (b - my) / (n as real)
  }

  /** The buffer `c` of the inner loop: `c[k] = (x[k] - mx) * (y[k] - my) / N`
      for the first N columns. */
  function Products(x: seq<real>, y: seq<real>, mx: real, my: real, n: nat): (c: seq<real>)
    requires |x| >= n && |y| >= n
    ensures |c| == n
  {
    seq(n, k requires 0 <= k < n => Term(x[k], y[k], mx, my, n))
  }

  lemma ProductsAt(x: seq<real>, y: seq<real>, mx: real, my: real, n: nat, k: nat)
    requires |x| >= n && |y| >= n && k < n
    ensures Products(x, y, mx, my, n)[k] == Term(x[k], y[k], mx, my, n)
  {
  }

  /** Entry (i, j) of the covariance for row `x` of `from` and row `y` of
      `to`, with N columns. */
  function CovEntry(x: seq<real>, y: seq<real>, n: nat): int
    requires |x| >= n && |y| >= n
  {
    TruncSum(Products(x, y, TruncSum(x) as real, TruncSum(y) as real, n))
  }

  /** The covariance matrix: entry (i, j) depends only on row i of `from`,
      row j of `to` and N, the length of row 0 of `from`. */
  function Covariance(from: Coefficients, to: Coefficients): Mat3
    requires WellShaped(from, to)
  {
    [CovarianceRow(from, to, 0), CovarianceRow(from, to, 1), CovarianceRow(from, to, 2)]
  }

  function CovarianceRow(from: Coefficients, to: Coefficients, i: nat): Vec3
    requires WellShaped(from, to) && i < 3
  {
    var n := |from[0]|;
    [CovEntry(from[i], to[0], n) as real, CovEntry(from[i], to[1], n) as real,
     CovEntry(from[i], to[2], n) as real]
  }

  function Transpose(m: Mat3): (t: Mat3)
    ensures forall i, j :: 0 <= i < 3 && 0 <= j < 3 ==> t[i][j] == m[j][i]
  {
    [[m[0][0], m[1][0], m[2][0]], [m[0][1], m[1][1], m[2][1]], [m[0][2], m[1][2], m[2][2]]]
  }

  predicate IsSymmetric(m: Mat3)
  {
    forall i, j :: 0 <= i < 3 && 0 <= j < 3 ==> m[i][j] == m[j][i]
  }

  /** The innermost loop of `align`: fill the buffer `c` with the N
      products for one pair of rows and sum it with an integer accumulator. */
  method SumOfProducts(x: seq<real>, y: seq<real>, muX: int, muY: int, n: nat) returns (e: int)
    requires |x| >= n && |y| >= n
    ensures e == TruncSum(Products(x, y, muX as real, muY as real, n))
  {
    var c := new real[n];
    for k := 0 to n
      invariant forall t :: 0 <= t < k ==>
        c[t] == Term(x[t], y[t], muX as real, muY as real, n)
    {
      c[k] := Term(x[k], y[k], muX as real, muY as real, n);
    }
    assert c[..] == Products(x, y, muX as real, muY as real, n);
    e := AccumulateInt(c[..]);
  }

  /** Entry (i, j) of the covariance matrix is the entry for row i of
      `from` and row j of `to`. */
  lemma CovarianceAt(from: Coefficients, to: Coefficients, i: nat, j: nat)
    requires WellShaped(from, to) && i < 3 && j < 3
    ensures Covariance(from, to)[i][j] == CovEntry(from[i], to[j], |from[0]|) as real
  {
  }

  /** Entry (i, j) depends on row i of `from`, row j of `to` and N alone. */
  lemma CovarianceEntryIsLocal(from: Coefficients, to: Coefficients,
                               from2: Coefficients, to2: Coefficients, i: nat, j: nat)
    requires WellShaped(from, to) && WellShaped(from2, to2) && i < 3 && j < 3
    requires |from[0]| == |from2[0]| && from[i] == from2[i] && to[j] == to2[j]
    ensures Covariance(from, to)[i][j] == Covariance(from2, to2)[i][j]
  {
    CovarianceAt(from, to, i, j);
    CovarianceAt(from2, to2, i, j);
  }

  /** The loop over j for one row i of `from` (whose row sum is `muFrom`):
      it writes `Cov(i, 0)`, `Cov(i, 1)` and `Cov(i, 2)` and nothing else. */
  method FillRow(cov: array2<real>, from: Coefficients, to: Coefficients, n: nat, i: nat, muFrom: int)
    requires WellShaped(from, to) && n == |from[0]| && i < 3 && muFrom == TruncSum(from[i])
    requires cov.Length0 == 3 && cov.Length1 == 3
    modifies cov
    ensures forall j :: 0 <= j < 3 ==> cov[i, j] == Covariance(from, to)[i][j]
    ensures forall r, j :: 0 <= r < 3 && r != i && 0 <= j < 3 ==> cov[r, j] == old(cov[r, j])
  {
    for j := 0 to 3
      invariant forall c :: 0 <= c < j ==> cov[i, c] == Covariance(from, to)[i][c]
      invariant forall r, c :: 0 <= r < 3 && r != i && 0 <= c < 3 ==> cov[r, c] == old(cov[r, c])
    {
      var muTo := AccumulateInt(to[j]);
      var s := SumOfProducts(from[i], to[j], muFrom, muTo, n);
      CovarianceAt(from, to, i, j);
      cov[i, j] := s as real;
    }
  }

  /** The nested loops of `align` that fill `Cov`: for each row i of
      `from` its row sum, then the entries of row i of `Cov`. */
  method ComputeCovariance(from: Coefficients, to: Coefficients) returns (cov: Mat3)
    requires WellShaped(from, to)
    ensures cov == Covariance(from, to)
    ensures forall i, j :: 0 <= i < 3 && 0 <= j < 3 ==> IsIntegral(cov[i][j])
  {
    var n := Dim(from)[1];
    ghost var spec := Covariance(from, to);
    var a := new real[3, 3];
    for i := 0 to 3
      invariant forall r, c :: 0 <= r < i && 0 <= c < 3 ==> a[r, c] == spec[r][c]
    {
      var muFrom := AccumulateInt(from[i]);
      FillRow(a, from, to, n, i, muFrom);
    }
    cov := [[a[0, 0], a[0, 1], a[0, 2]],
            [a[1, 0], a[1, 1], a[1, 2]],
            [a[2, 0], a[2, 1], a[2, 2]]];
    assert cov[0] == spec[0] && cov[1] == spec[1] && cov[2] == spec[2];
    CovarianceIsIntegral(from, to);
  }

  /** Every entry is an integer, converted back to a double. */
  lemma CovarianceIsIntegral(from: Coefficients, to: Coefficients)
    requires WellShaped(from, to)
    ensures forall i, j :: 0 <= i < 3 && 0 <= j < 3 ==> IsIntegral(Covariance(from, to)[i][j])
  {
    forall i, j | 0 <= i < 3 && 0 <= j < 3
      ensures IsIntegral(Covariance(from, to)[i][j])
    {
      var k := CovEntry(from[i], to[j], |from[0]|);
      assert (k as real).Floor == k;
    }
  }

  /** The per-column products commute, so swapping the two rows leaves an
      entry unchanged. */
  lemma CovEntryCommutes(x: seq<real>, y: seq<real>, n: nat)
    requires |x| >= n && |y| >= n
    ensures CovEntry(x, y, n) == CovEntry(y, x, n)
  {
    var mx, my := TruncSum(x) as real, TruncSum(y) as real;
    var p, q := Products(x, y, mx, my, n), Products(y, x, my, mx, n);
    forall k | 0 <= k < n
      ensures p[k] == q[k]
    {
      assert (x[k] - mx) * (y[k] - my) == (y[k] - my) * (x[k] - mx);
    }
    assert p == q;
  }

  /** Aligning `to` onto `from` yields the transposed covariance. */
  lemma CovarianceOfSwappedInputs(from: Coefficients, to: Coefficients)
    requires WellShaped(from, to)
    ensures WellShaped(to, from)
    ensures Covariance(to, from) == Transpose(Covariance(from, to))
  {
    SwappedRow(from, to, 0);
    SwappedRow(from, to, 1);
    SwappedRow(from, to, 2);
  }

  lemma SwappedRow(from: Coefficients, to: Coefficients, i: nat)
    requires WellShaped(from, to) && i < 3
    ensures WellShaped(to, from)
    ensures Covariance(to, from)[i] == Transpose(Covariance(from, to))[i]
  {
    var n := |from[0]|;
    CovEntryCommutes(to[i], from[0], n);
    CovEntryCommutes(to[i], from[1], n);
    CovEntryCommutes(to[i], from[2], n);
  }

  /** Aligning a matrix with itself gives a symmetric covariance. */
  lemma CovarianceOfSelfIsSymmetric(m: Coefficients)
    requires WellShaped(m, m)
    ensures IsSymmetric(Covariance(m, m))
  {
    CovarianceOfSwappedInputs(m, m);
  }

  /** An entry for two-column rows, spelled out. */
  lemma CovEntryOfPairs(x0: real, x1: real, y0: real, y1: real)
    ensures CovEntry([x0, x1], [y0, y1], 2) ==
      var mx, my := TruncSum([x0, x1]) as real, TruncSum([y0, y1]) as real;
      TruncSum([Term(x0, y0, mx, my, 2), Term(x1, y1, mx, my, 2)])
  {
    var mx, my := TruncSum([x0, x1]) as real, TruncSum([y0, y1]) as real;
    assert Products([x0, x1], [y0, y1], mx, my, 2) ==
      [Term(x0, y0, mx, my, 2), Term(x1, y1, mx, my, 2)];
  }

  /** Halving a natural number and truncating is integer division. */
  lemma TruncHalf(k: nat)
    ensures Trunc(k as real / 2.0) == k / 2
  {
    var q, r := k / 2, k % 2;
    assert k as real / 2.0 == q as real + r as real / 2.0;
  }

  /** The means are undivided sums, so centring does not remove a constant
      offset: the constant row [k, k] has no spread, yet its covariance
      with [1, 0] is k / 2 and grows with the offset k. */
  lemma OffsetChangesCovariance(k: nat)
    ensures CovEntry([k as real, k as real], [1.0, 0.0], 2) == k / 2
  {
    var x := k as real;
    TruncSumOfPair(x, x);
    assert Trunc(x) == k;
    assert Trunc(x + x) == 2 * k;
    TruncSumOfPair(1.0, 0.0);
    CovEntryOfPairs(x, x, 1.0, 0.0);
    assert Term(x, 1.0, 2.0 * x, 1.0, 2) == 0.0;
    assert Term(x, 0.0, 2.0 * x, 1.0, 2) == x / 2.0;
    TruncSumOfPair(0.0, x / 2.0);
    TruncHalf(k);
  }

  /** Two halves of k accumulate to k when k is even and to k - 1 when it
      is odd. */
  lemma TruncSumOfHalves(k: nat)
    ensures TruncSum([k as real / 2.0, k as real / 2.0]) == if k % 2 == 0 then k else k - 1
  {
    var h := k as real / 2.0;
    TruncSumOfPair(h, h);
    TruncHalf(k);
    var q := k / 2;
    if k % 2 == 0 {
      assert q as real + h == k as real;
    } else {
      assert q as real + h == k as real - 0.5;
    }
  }

  /** The truncating accumulation is not linear: the covariance of
      [k, -k] with [1, -1] is k for even k and k - 1 for odd k, so
      doubling the row [1, -1] takes its covariance from 0 to 2. */
  lemma TruncationBreaksScaling(k: nat)
    ensures CovEntry([k as real, -(k as real)], [1.0, -1.0], 2) ==
      if k % 2 == 0 then k else k - 1
  {
    var x := k as real;
    TruncSumOfPair(x, -x);
    assert Trunc(x) == k;
    TruncSumOfPair(1.0, -1.0);
    CovEntryOfPairs(x, -x, 1.0, -1.0);
    assert Term(x, 1.0, 0.0, 0.0, 2) == x / 2.0;
    assert Term(-x, -1.0, 0.0, 0.0, 2) == x / 2.0;
    TruncSumOfHalves(k);
  }
}
