/** `align`: the whole pipeline from two coefficient matrices to a
    quaternion. The eigen-decomposition is a library call; it is a
    parameter here, and only the real parts of its results enter. */
module Althloothi {
  import opened Shapes
  import opened CrossCovariance
  import opened QMatrix
  import opened Selection

  /** The real parts of the solver output: `values[k]` is the k-th
      eigenvalue and column k of `vectors` its eigenvector. */
  datatype Eigenpairs = Eigenpairs(values: Vec4, vectors: Mat4)

  /** The solver output really consists of eigenpairs of `m`. */
  predicate Solves(m: Mat4, e: Eigenpairs)
  {
    forall k :: 0 <= k < 4 ==> IsEigenpair(m, e.values[k], Column(e.vectors, k))
  }

  /** The quaternion `align` returns: covariance, Q-matrix, eigen-
      decomposition by `eigensolve`, and the column the scan selects. When
      the solver is correct the result is an eigenvector of Q whose
      eigenvalue is at least the first eigenvalue. */
  method Align(from: Coefficients, to: Coefficients, eigensolve: Mat4 -> Eigenpairs)
    returns (q: Quaternion)
    requires WellShaped(from, to)
    ensures var qm := AssembleQ(Covariance(from, to));
            var e := eigensolve(qm);
            var k := Selected(e.values);
            k < 4 && q == Column(e.vectors, k) && e.values[k] >= e.values[0] &&
            (Solves(qm, e) ==> IsEigenpair(qm, e.values[k], q))
  {
    var cov := ComputeCovariance(from, to);
    var qm := AssembleQ(cov);
    var e := eigensolve(qm);
    var idx := SelectIndex(e.values);
    q := Column(e.vectors, idx);
  }
}
