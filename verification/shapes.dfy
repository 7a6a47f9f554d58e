/** Shapes of the values `align` works on: the two 3 x N coefficient
    matrices, the 3 x 3 covariance, the 4 x 4 Q-matrix and the quaternion. */
module Shapes {

  type Vec3 = s: seq<real> | |s| == 3 witness [0.0, 0.0, 0.0]
  type Vec4 = s: seq<real> | |s| == 4 witness [0.0, 0.0, 0.0, 0.0]

  const Zero3: Vec3 := [0.0, 0.0, 0.0]
  const Zero4: Vec4 := [0.0, 0.0, 0.0, 0.0]

  /** A 3 x 3 matrix, row-major. */
  type Mat3 = m: seq<Vec3> | |m| == 3 witness [Zero3, Zero3, Zero3]

  /** A 4 x 4 matrix, row-major: `m[r][c]` is entry (r, c). */
  type Mat4 = m: seq<Vec4> | |m| == 4 witness [Zero4, Zero4, Zero4, Zero4]

  /** The rotation, in the component order (w, x, y, z). */
  type Quaternion = Vec4

  /** `std::array<std::vector<double>, 3>`: exactly three rows, and rows
      that may differ in length. */
  type Coefficients = m: seq<seq<real>> | |m| == 3 witness [[], [], []]

  /** The shape accessor: always three rows, and a column count read off
      row 0 alone. */
  function Dim(m: Coefficients): (d: seq<int>)
    ensures |d| == 2 && d[0] == 3 && d[1] == |m[0]|
  {
    [3, |m[0]|]
  }

  /** Rows 1 and 2 never influence the reported shape. */
  lemma DimSeesOnlyRowZero(m: Coefficients, m2: Coefficients)
    requires m[0] == m2[0]
    ensures Dim(m) == Dim(m2)
  {
  }

  /** What `align` needs of its inputs: the column counts `dim` reports
      agree (the debug-build assertion), and every row of both matrices is
      long enough for the product loop, which reads columns 0 .. N-1 of
      each row. Longer rows are legal; their extra entries still enter the
      row sums. */
  predicate WellShaped(from: Coefficients, to: Coefficients)
  {
    var n := |from[0]|;
    |to[0]| == n &&
    |from[1]| >= n && |from[2]| >= n &&
    |to[1]| >= n && |to[2]| >= n
  }
}
