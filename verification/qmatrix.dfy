/** Equation (19): the symmetric 4 x 4 matrix built from the covariance,
    whose dominant eigenvector is taken as the rotation quaternion. */
module QMatrix {
  import opened Shapes
  import opened CrossCovariance

  predicate IsSymmetric4(q: Mat4)
  {
    forall r, c :: 0 <= r < 4 && 0 <= c < 4 ==> q[r][c] == q[c][r]
  }

  function Trace4(q: Mat4): real
  {
    q[0][0] + q[1][1] + q[2][2] + q[3][3]
  }

  /** The assignments to `Q`: the upper triangle from the covariance, every
      lower-triangle entry a copy of its mirror. */
  function AssembleQ(cov: Mat3): (q: Mat4)
    ensures IsSymmetric4(q)
    ensures Trace4(q) == 0.0
  {
    var q01 := cov[1][2] - cov[2][1];
    var q02 := cov[2][0] - cov[0][2];
    var q03 := cov[0][1] - cov[1][0];
    var q12 := cov[0][1] + cov[1][0];
    var q13 := cov[2][0] + cov[0][2];
    var q23 := cov[1][2] + cov[2][1];
    [[ cov[0][0] + cov[1][1] + cov[2][2], q01, q02, q03],
     [q01,  cov[0][0] - cov[1][1] - cov[2][2], q12, q13],
     [q02, q12, -cov[0][0] + cov[1][1] - cov[2][2], q23],
     [q03, q13, q23, -cov[0][0] - cov[1][1] + cov[2][2]]]
  }

  /** The scalar part of the matrix is the trace of the covariance, and
      the off-diagonal entries of the first row are its antisymmetric
      part: they vanish exactly when the covariance is symmetric. */
  lemma FirstRowOfQ(cov: Mat3)
    ensures AssembleQ(cov)[0][0] == cov[0][0] + cov[1][1] + cov[2][2]
    ensures IsSymmetric(cov) <==>
      AssembleQ(cov)[0][1] == 0.0 && AssembleQ(cov)[0][2] == 0.0 && AssembleQ(cov)[0][3] == 0.0
  {
    var q := AssembleQ(cov);
    if q[0][1] == 0.0 && q[0][2] == 0.0 && q[0][3] == 0.0 {
      forall i, j | 0 <= i < 3 && 0 <= j < 3
        ensures cov[i][j] == cov[j][i]
      {
      }
    }
  }

  /** The inner product of a row of a 4 x 4 matrix with a column vector. */
  function Dot(a: Vec4, b: Vec4): real
  {
    a[0] * b[0] + a[1] * b[1] + a[2] * b[2] + a[3] * b[3]
  }

  /** The eigen-equation `m v = ev v`, row by row. */
  predicate EigenEquation(m: Mat4, ev: real, v: Vec4)
  {
    Dot(m[0], v) == ev * v[0] && Dot(m[1], v) == ev * v[1] &&
    Dot(m[2], v) == ev * v[2] && Dot(m[3], v) == ev * v[3]
  }

  /** `v` is an eigenvector of `m` with eigenvalue `ev`: a nonzero vector
      that solves the eigen-equation. */
  predicate IsEigenpair(m: Mat4, ev: real, v: Vec4)
  {
    v != Zero4 && EigenEquation(m, ev, v)
  }

  /** The quaternion conjugate (w, -x, -y, -z), the inverse rotation of a
      unit quaternion. */
  function Conjugate(v: Quaternion): (c: Quaternion)
    ensures c[0] == v[0] && c[1] == -v[1] && c[2] == -v[2] && c[3] == -v[3]
  {
    [v[0], -v[1], -v[2], -v[3]]
  }

  /** D q D with D = diag(1, -1, -1, -1): the entries of the first row and
      column off the diagonal change sign, every other entry is kept. */
  function FlipFirst(q: Mat4): (f: Mat4)
    ensures forall r, c :: 0 <= r < 4 && 0 <= c < 4 ==>
      f[r][c] == if (r == 0) != (c == 0) then -q[r][c] else q[r][c]
  {
    [[ q[0][0], -q[0][1], -q[0][2], -q[0][3]],
     [-q[1][0],  q[1][1],  q[1][2],  q[1][3]],
     [-q[2][0],  q[2][1],  q[2][2],  q[2][3]],
     [-q[3][0],  q[3][1],  q[3][2],  q[3][3]]]
  }

  /** Transposing the covariance flips the sign of the first row and column
      of `Q`. */
  lemma AssembleQOfTranspose(cov: Mat3)
    ensures AssembleQ(Transpose(cov)) == FlipFirst(AssembleQ(cov))
  {
    var a, b := AssembleQ(Transpose(cov)), FlipFirst(AssembleQ(cov));
    assert a[0] == b[0] && a[1] == b[1] && a[2] == b[2] && a[3] == b[3];
  }

  /** Negating the last three entries of both vectors keeps their inner
      product. */
  lemma DotOfConjugates(a: Vec4, b: Vec4)
    ensures Dot(Conjugate(a), Conjugate(b)) == Dot(a, b)
  {
  }

  /** Negating the first entry of one vector and the last three of the
      other negates their inner product. */
  lemma DotOfOppositeSigns(a: Vec4, b: Vec4)
    ensures Dot([-a[0], a[1], a[2], a[3]], Conjugate(b)) == -Dot(a, b)
  {
  }

  /** Row r of the eigen-equation holds for q and v exactly when it holds
      for D q D and D v. */
  lemma FlipFirstRow(q: Mat4, ev: real, v: Vec4, r: nat)
    requires r < 4
    ensures Dot(q[r], v) == ev * v[r] <==>
            Dot(FlipFirst(q)[r], Conjugate(v)) == ev * Conjugate(v)[r]
  {
    var f, c := FlipFirst(q), Conjugate(v);
    if r == 0 {
      assert f[0] == Conjugate(q[0]);
      DotOfConjugates(q[0], v);
    } else {
      assert f[r] == [-q[r][0], q[r][1], q[r][2], q[r][3]];
      DotOfOppositeSigns(q[r], v);
      NegatedEquation(Dot(q[r], v), ev * v[r], Dot(f[r], c), ev * c[r]);
    }
  }

  lemma NegatedEquation(a: real, b: real, na: real, nb: real)
    requires na == -a && nb == -b
    ensures a == b <==> na == nb
  {
  }

  /** Only the zero vector has the zero vector as conjugate. */
  lemma ConjugateOfZero(v: Vec4)
    ensures Conjugate(v) == Zero4 <==> v == Zero4
  {
    if Conjugate(v) == Zero4 {
      assert v[1] == -Conjugate(v)[1] && v[2] == -Conjugate(v)[2] && v[3] == -Conjugate(v)[3];
      assert v == [v[0], v[1], v[2], v[3]];
    }
  }

  /** The eigenvalues of D q D are those of q, and its eigenvectors are the
      conjugates of those of q. */
  lemma FlipFirstEigenpair(q: Mat4, ev: real, v: Vec4)
    ensures IsEigenpair(q, ev, v) <==> IsEigenpair(FlipFirst(q), ev, Conjugate(v))
  {
    ConjugateOfZero(v);
    FlipFirstEquation(q, ev, v);
  }

  /** The eigen-equation part of `FlipFirstEigenpair`, row by row. */
  lemma FlipFirstEquation(q: Mat4, ev: real, v: Vec4)
    ensures EigenEquation(q, ev, v) <==> EigenEquation(FlipFirst(q), ev, Conjugate(v))
  {
    FlipFirstRow(q, ev, v, 0);
    FlipFirstRow(q, ev, v, 1);
    FlipFirstRow(q, ev, v, 2);
    FlipFirstRow(q, ev, v, 3);
  }

  /** Aligning `to` onto `from` instead of `from` onto `to`: `Q` has the same
      eigenvalues, and the conjugate (inverse rotation) of every eigenvector
      of the original `Q` is an eigenvector for the same eigenvalue. */
  lemma SwappedInputsConjugateEigenvectors(from: Coefficients, to: Coefficients, ev: real, v: Vec4)
    requires WellShaped(from, to)
    ensures WellShaped(to, from)
    ensures IsEigenpair(AssembleQ(Covariance(from, to)), ev, v) <==>
            IsEigenpair(AssembleQ(Covariance(to, from)), ev, Conjugate(v))
  {
    CovarianceOfSwappedInputs(from, to);
    AssembleQOfTranspose(Covariance(from, to));
    FlipFirstEigenpair(AssembleQ(Covariance(from, to)), ev, v);
  }

  /** The identity rotation (1, 0, 0, 0) is an eigenvector of `Q` exactly
      when the covariance is symmetric; its eigenvalue is then the trace of
      the covariance. */
  lemma IdentityEigenvector(cov: Mat3)
    ensures IsEigenpair(AssembleQ(cov), cov[0][0] + cov[1][1] + cov[2][2], [1.0, 0.0, 0.0, 0.0])
            <==> IsSymmetric(cov)
  {
    var q := AssembleQ(cov);
    var e: Vec4 := [1.0, 0.0, 0.0, 0.0];
    FirstRowOfQ(cov);
    assert Dot(q[0], e) == q[0][0] && Dot(q[1], e) == q[1][0];
    assert Dot(q[2], e) == q[2][0] && Dot(q[3], e) == q[3][0];
  }

  /** Aligning a matrix with itself: (1, 0, 0, 0) is an eigenvector of `Q`. */
  lemma SelfAlignmentHasIdentityEigenvector(m: Coefficients)
    requires WellShaped(m, m)
    ensures var cov := Covariance(m, m);
      IsEigenpair(AssembleQ(cov), cov[0][0] + cov[1][1] + cov[2][2], [1.0, 0.0, 0.0, 0.0])
  {
    CovarianceOfSelfIsSymmetric(m);
    IdentityEigenvector(Covariance(m, m));
  }
}
