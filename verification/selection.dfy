/** Picking the quaternion out of the eigen-decomposition: the scan over the
    four eigenvalues (real parts) and the read-out of the chosen column of
    the eigenvector matrix. */
module Selection {
  import opened Shapes

  /** The loop variables of the scan: the chosen index and `max`. */
  datatype ScanState = ScanState(idx: nat, max: real)

  /** The scan after its first k iterations. On a strict increase over
      `max`, `max` is first set from the value at the OLD index and only
      then does the index move, so `max` lags one selection behind. */
  function Scan(vals: Vec4, k: nat): (s: ScanState)
    requires k <= 4
    ensures s.idx < 4 && (k == 0 || s.idx < k)
    ensures s.max in vals && s.max >= vals[0]
    ensures vals[s.idx] >= vals[0]
    ensures s.idx != 0 ==> vals[s.idx] > vals[0]
  {
    if k == 0 then ScanState(0, vals[0])
    else
      var s := Scan(vals, k - 1);
      if vals[k - 1] > s.max then ScanState(k - 1, vals[s.idx]) else s
  }

  /** The index the scan settles on. */
  function Selected(vals: Vec4): nat
  {
    Scan(vals, 4).idx
  }

  /** The selection loop: `idx` starts at 0 and `max` at the first value. */
  method SelectIndex(vals: Vec4) returns (idx: nat)
    ensures idx == Selected(vals)
    ensures idx < 4 && vals[idx] >= vals[0]
    ensures idx != 0 ==> vals[idx] > vals[0]
  {
    idx := 0;
    var max := vals[idx];
    for i := 0 to 4
      invariant ScanState(idx, max) == Scan(vals, i)
    {
      if vals[i] > max {
        max := vals[idx];
        idx := i;
      }
    }
  }

  /** The comparison is strict: when no value exceeds the first one (in
      particular when all four are equal) the scan keeps index 0. */
  lemma SelectsFirstWhenFirstIsMaximal(vals: Vec4)
    requires forall k :: 0 <= k < 4 ==> vals[k] <= vals[0]
    ensures Selected(vals) == 0
  {
  }

  /** The scan is not an arg-max: for the values (0, 5, 3, -1) it settles on
      index 2, whose value 3 is below the value 5 at index 1. */
  lemma ScanMissesMaximum()
    ensures Selected([0.0, 5.0, 3.0, -1.0]) == 2
  {
    var vals: Vec4 := [0.0, 5.0, 3.0, -1.0];
    assert Scan(vals, 1) == ScanState(0, 0.0);
    assert Scan(vals, 2) == ScanState(1, 0.0);
    assert Scan(vals, 3) == ScanState(2, 5.0);
  }

  /** Column k of the eigenvector matrix, components 0..3 in order (the
      matrix is stored column-wise, so component r is entry (r, k)). */
  function Column(vecs: Mat4, k: nat): (q: Quaternion)
    requires k < 4
    ensures forall r :: 0 <= r < 4 ==> q[r] == vecs[r][k]
  {
    [vecs[0][k], vecs[1][k], vecs[2][k], vecs[3][k]]
  }

  /** The read-out loses nothing: a matrix is determined by its four
      columns. */
  lemma ColumnsDetermineMatrix(a: Mat4, b: Mat4)
    requires forall k :: 0 <= k < 4 ==> Column(a, k) == Column(b, k)
    ensures a == b
  {
    forall r | 0 <= r < 4
      ensures a[r] == b[r]
    {
      forall k | 0 <= k < 4
        ensures a[r][k] == b[r][k]
      {
        assert Column(a, k)[r] == Column(b, k)[r];
      }
    }
  }
}
