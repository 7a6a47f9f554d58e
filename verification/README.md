# Rotation estimate from spherical-harmonic coefficients (Althloothi et al.)

This project models `align` from `althloothi.hpp`. The routine estimates the
rotation between two objects from their 3 x N matrices of spherical-harmonic
coefficients. It follows equations (18) and (19) of Althloothi, Mahoor and
Voyles, "A robust method for rotation estimation using spherical harmonics
representation" (IEEE Transactions on Image Processing 22.6, 2013). The
routine has four steps:

1. It builds a 3 x 3 cross-covariance `Cov` in nested loops. The loops use
   `std::accumulate` with the `int` initial value `0` (modules `Accumulate`
   and `CrossCovariance`).
2. It assembles a 4 x 4 matrix `Q` from `Cov` (module `QMatrix`).
3. It calls Eigen's eigen-decomposition of `Q`.
4. It scans the four eigenvalues and reads out one eigenvector column as the
   quaternion (module `Selection`).

`Althloothi.Align` puts these steps together. It also models the shape
accessor `dim` (module `Shapes`).

The model follows the code as written:

- A row "mean" is the sum of the whole row. It is never divided by N.
- Every `std::accumulate` keeps an `int` accumulator, so each partial sum is
  truncated toward zero (`Accumulate.Trunc`, `Accumulate.TruncSum`).
- `Cov(i, j)` is the truncated sum of `(from[i][n] - mu_from) * (to[j][n] - mu_to) / N`
  over the first N columns.
- The selection loop sets `max` from the value at the old index before it
  moves the index. So the scan is not an arg-max.

Module `Intended` gives the corrected counterparts of these pieces and proves
the properties the method is meant to have (see "## Findings").

Where the code departs from the usual statement of the method, the model
follows the code:

- The entries `Q(0,1)`, `Q(0,2)` and `Q(0,3)` are `Cov(1,2) - Cov(2,1)`,
  `Cov(2,0) - Cov(0,2)` and `Cov(0,1) - Cov(1,0)`. Some descriptions of the
  method give these with the opposite sign.
- When N = 0, the row sums still add up whatever rows 1 and 2 hold, but the
  product buffer `c` is empty, so every `Cov(i, j)` is 0. The model gives the
  same result and does not treat this case as an error.
- The debug-build checks compare only the lengths of the two rows 0. The
  product loop reads columns 0 .. N-1 of every row, and the row sums read
  whole rows. So `Shapes.WellShaped` requires `|to[0]| == |from[0]| == N`, and
  it requires every other row to have at least N entries. Longer rows are
  legal, and their extra entries still enter the row sums.

The eigen-decomposition is a foreign library call. `Align` takes it as a
function parameter `eigensolve: Mat4 -> Eigenpairs`, which holds only the
real parts. The model states what holds whatever the solver returns. It also
states what holds when every column the solver returns is a nonzero
eigenvector of `Q` for its eigenvalue (`Althloothi.Solves`). That
conclusion only passes on the solver's promise: the model does not prove
that any solver meets it.

## Model

| member | source | states |
|---|---|---|
| `Shapes.Dim` | althloothi.hpp:17-20 | The shape is always reported as 3 rows, and the column count is the length of row 0. |
| `Shapes.DimSeesOnlyRowZero` | althloothi.hpp:18-19 | Two inputs with the same row 0 get the same reported shape: rows 1 and 2 are never inspected. |
| `Accumulate.Trunc` | althloothi.hpp:42 | Converting a partial sum to the `int` accumulator truncates toward zero: the result lies within one unit of x on the side of zero. |
| `Accumulate.AccumulateInt` | althloothi.hpp:42 | The accumulation loop returns the left fold of truncating additions that starts from the integer 0. |
| `Accumulate.TruncSumOfIntegers` | althloothi.hpp:46 | For integer-valued elements, the truncating fold equals the exact sum (the row "mean" of an integer row is its row sum). |
| `Accumulate.TruncSumError` | althloothi.hpp:52 | The truncating fold stays within `|s|` of the exact sum. |
| `Accumulate.TruncSumLosesHalves` | althloothi.hpp:52 | The fractions are lost: [0.5, 0.5] accumulates to 0, while the exact sum is 1. |
| `CrossCovariance.ProductsAt` | althloothi.hpp:48-51 | Element k of the buffer `c` is `(x[k] - mu_from) * (y[k] - mu_to) / N`. |
| `CrossCovariance.SumOfProducts` | althloothi.hpp:48-52 | The innermost loop fills `c` and sums it, giving the truncated sum of the N products. |
| `CrossCovariance.FillRow` | althloothi.hpp:44-53 | The loop over j writes entries (i, 0..2) with the covariance entries of row i, and no other row changes. |
| `CrossCovariance.ComputeCovariance` | althloothi.hpp:39-54 | The nested loops produce exactly the covariance matrix `Covariance(from, to)`, and every entry is an integer. |
| `CrossCovariance.CovarianceIsIntegral` | althloothi.hpp:52 | Every `Cov(i, j)` is an integer value. |
| `CrossCovariance.CovarianceEntryIsLocal` | althloothi.hpp:42-52 | `Cov(i, j)` depends only on row i of `from`, row j of `to` and N. |
| `CrossCovariance.CovEntryCommutes` | althloothi.hpp:50 | Swapping the two rows leaves an entry unchanged, because the per-column products commute. |
| `CrossCovariance.CovarianceOfSwappedInputs` | althloothi.hpp:40-53 | Aligning `to` onto `from` gives the transpose of the covariance for `from` onto `to`. |
| `CrossCovariance.CovarianceOfSelfIsSymmetric` | althloothi.hpp:48-52 | When `from == to`, `Cov` is symmetric. |
| `CrossCovariance.OffsetChangesCovariance` | althloothi.hpp:42-50 | The undivided means do not remove an offset: the constant row [k, k] has covariance k / 2 with [1, 0]. |
| `CrossCovariance.TruncationBreaksScaling` | althloothi.hpp:52 | The covariance of [k, -k] with [1, -1] is k for even k and k - 1 for odd k, so it is not linear in the row. |
| `QMatrix.AssembleQ` | althloothi.hpp:57-73 | `Q` is exactly symmetric, because every lower entry copies its mirror, and its trace is zero. |
| `QMatrix.FirstRowOfQ` | althloothi.hpp:58-61 | `Q(0,0)` is the trace of `Cov`. `Q(0,1)`, `Q(0,2)` and `Q(0,3)` are all zero if and only if `Cov` is symmetric. |
| `QMatrix.AssembleQOfTranspose` | althloothi.hpp:58-73 | Transposing `Cov` negates the off-diagonal entries of the first row and column of `Q`, and keeps every other entry. |
| `QMatrix.FlipFirstEigenpair` | althloothi.hpp:76-78 | (ev, v) is an eigenpair of `Q` (v nonzero) if and only if (ev, conjugate of v) is an eigenpair of that sign-flipped `Q`. |
| `QMatrix.SwappedInputsConjugateEigenvectors` | althloothi.hpp:39-78 | Swapping `from` and `to` keeps the eigenvalues of `Q` and conjugates its eigenvectors: the inverse rotation. |
| `QMatrix.IdentityEigenvector` | althloothi.hpp:58-73 | (1, 0, 0, 0) is an eigenvector of `Q` with eigenvalue trace(`Cov`) if and only if `Cov` is symmetric. |
| `QMatrix.SelfAlignmentHasIdentityEigenvector` | althloothi.hpp:39-76 | When `from == to`, the identity rotation (1, 0, 0, 0) is an eigenvector of `Q`. |
| `Selection.Scan` | althloothi.hpp:82-91 | After k steps the index is in 0..3 and below k. Its value is at least `val(0)`, and strictly greater unless the index is 0. `max` is one of the values and is at least `val(0)`. |
| `Selection.SelectIndex` | althloothi.hpp:82-91 | The loop returns the scan's index. It is in 0..3, its value is at least `val(0)`, and strictly greater when the index is not 0. |
| `Selection.SelectsFirstWhenFirstIsMaximal` | althloothi.hpp:85-87 | The comparison is strict, so when no value exceeds `val(0)` (for example, all four are equal) the result is 0. |
| `Selection.ScanMissesMaximum` | althloothi.hpp:85-91 | For the values (0, 5, 3, -1) the scan selects index 2, not index 1 which holds the largest value. |
| `Selection.Column` | althloothi.hpp:93-95 | The quaternion is column `idx` of the eigenvector matrix, components 0..3 in order. |
| `Selection.ColumnsDetermineMatrix` | althloothi.hpp:93-95 | The read-out loses nothing: two matrices with the same four columns are equal. |
| `Althloothi.Align` | althloothi.hpp:28-97 | The result is column `Selected(values)` of the solver's eigenvectors for `Q` built from `Cov(from, to)`. That eigenvalue is at least the first one. If every column the solver returns is a nonzero eigenvector of `Q` for its eigenvalue, so is the result: this clause only passes the solver's promise on to the selected column. |
| `Intended.IntendedCovEntryShiftInvariant` | althloothi.hpp:42-50 | With means divided by N, adding a constant to a row leaves its covariance entries unchanged. |
| `Intended.IntendedCovEntryScales` | althloothi.hpp:52 | With exact sums, scaling a row by a scales its covariance entries by a. |
| `Intended.LargestIndex` | althloothi.hpp:80-91 | The corrected scan returns the first index of the largest value. |
| `Intended.IntendedAlign` | althloothi.hpp:28-97 | The corrected pipeline returns the column of the first largest eigenvalue: no eigenvalue is larger, and every earlier one is strictly smaller. If every column the solver returns is a nonzero eigenvector of `Q` for its eigenvalue, so is the result: this clause only passes the solver's promise on. |

## Left out

- `Eigen::EigenSolver` (althloothi.hpp:76-78) is a foreign library call. It is a function parameter. The model does not prove that the solver returns eigenpairs, that the vectors are normalised, or that the result is a rotation.
- Complex-typed eigen-results: only the real parts are used, so `Eigenpairs` holds only reals.
- IEEE-754 rounding of ordinary arithmetic: values are `real`. Only the explicit double-to-`int` truncation inside `std::accumulate` is modelled.
- `Accumulate.Trunc`: does not model the undefined behaviour of converting a double outside the `int` range. Integers, including the `int` accumulator, are unbounded.
- `Shapes.Dim`: does not model the narrowing `static_cast<int>` of a row length above the `int` range.
- The debug-build `assert`s (althloothi.hpp:30-34) are preconditions (`Shapes.WellShaped`), not runtime checks.
- The spherical-harmonics test file and its tolerance comparisons depend on the eigensolver and floating point, so they are not modelled.
- The unused includes are not modelled.

## Findings

| source | as written | input that shows it | evidently intended | confidence | as-written member | corrected member |
|---|---|---|---|---|---|---|
| althloothi.hpp:85-91 | `max` is set from the value at the old index before the index moves, so each comparison is against a stale value | eigenvalues (0, 5, 3, -1): index 2 (value 3) is selected instead of index 1 (value 5) | the index of the largest eigenvalue, as the comment at lines 80-81 says | not executed | `Selection.ScanMissesMaximum` | `Intended.LargestIndex` |
| althloothi.hpp:42-46 | the row "means" are row sums that are never divided by N | row [2, 2] against row [1, 0], N = 2: covariance 1, while [0, 0] against [1, 0] gives 0 | means divided by N, so that centring removes a constant offset | not executed | `CrossCovariance.OffsetChangesCovariance` | `Intended.IntendedCovEntryShiftInvariant` |
| althloothi.hpp:52 | `std::accumulate` with initial value `0` keeps an `int` accumulator and truncates every partial sum | rows [1, -1] and [1, -1]: covariance 0, and doubling the first row gives 2 | an exact double sum (initial value `0.0`), so the covariance is linear in each row | not executed | `CrossCovariance.TruncationBreaksScaling` | `Intended.IntendedCovEntryScales` |
