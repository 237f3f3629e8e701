/** softmean of chainrob/robustify.py: each column of an (n, k) batch is
    z-scored with its own mean and floored standard deviation, scaled by
    s = sqrt(n / (2 log(1/delta))), passed through psi, averaged, and mapped
    back to the original scale and location. */
module ColumnwiseSoftMean {
  import opened Numerics
  import opened Stats
  import opened Outcomes
  import opened Influence

  /** s = sqrt(n / (2 log(1/delta))); it depends on n alone and is positive
      because 1/delta > 1. */
  function Scale(e: Env, n: nat): (s: real)
    requires Valid(e) && n > 0
    ensures s > 0.0
  {
    var l := e.log(1.0 / ConfDelta);
    SqrtPositive(e, n as real / (2.0 * l));
    e.sqrt(n as real / (2.0 * l))
  }

  /** The scaled z-score (x - mean) / (sd s). */
  function ZScore(x: real, m: real, sd: real, s: real): real
    requires sd * s != 0.0
  {
    (x - m) / (sd * s)
  }

  /** psi of the scaled z-score of every entry of a column. */
  function PsiTerms(e: Env, col: seq<real>, m: real, sd: real, s: real): (p: seq<real>)
    requires sd * s != 0.0
    ensures |p| == |col|
  {
    seq(|col|, i requires 0 <= i < |col| => Psi(e, ZScore(col[i], m, sd, s)))
  }

  /** Maps an average a of psi values back to the data scale. */
  function Rescale(a: real, s: real, sd: real, m: real): real {
    a * (s * sd) + m
  }

  /** The estimate for one column: mean + s sd mean(psi(z)). */
  function ColumnSoftMean(e: Env, col: seq<real>, s: real): real
    requires Valid(e) && |col| > 0 && s > 0.0
  {
    var m := Mean(col);
    var sd := FlooredSd(e, col);
    Rescale(Mean(PsiTerms(e, col, m, sd, s)), s, sd, m)
  }

  /** Since psi is capped at 2 sqrt(2) / 3, a column's estimate never lies
      further than s sd 2 sqrt(2) / 3 from the column mean. */
  lemma ColumnSoftMeanDeviation(e: Env, col: seq<real>, s: real)
    requires Valid(e) && |col| > 0 && s > 0.0
    ensures Abs(ColumnSoftMean(e, col, s) - Mean(col)) <= s * FlooredSd(e, col) * Cap(e)
  {
    var m, sd := Mean(col), FlooredSd(e, col);
    var a := Mean(PsiTerms(e, col, m, sd, s));
    assert ColumnSoftMean(e, col, s) == Rescale(a, s, sd, m);
    PsiMeanBounded(e, col, m, sd, s);
    RescaleWithin(a, Cap(e), s, sd, m);
  }

  lemma PsiMeanBounded(e: Env, col: seq<real>, m: real, sd: real, s: real)
    requires Valid(e) && |col| > 0 && sd * s != 0.0
    ensures -Cap(e) <= Mean(PsiTerms(e, col, m, sd, s)) <= Cap(e)
  {
    PsiTermsBounded(e, col, m, sd, s);
    MeanBounded(PsiTerms(e, col, m, sd, s), Cap(e));
  }

  lemma PsiTermsBounded(e: Env, col: seq<real>, m: real, sd: real, s: real)
    requires Valid(e) && sd * s != 0.0
    ensures forall i :: 0 <= i < |col| ==> -Cap(e) <= PsiTerms(e, col, m, sd, s)[i] <= Cap(e)
  {
    forall i | 0 <= i < |col| ensures -Cap(e) <= PsiTerms(e, col, m, sd, s)[i] <= Cap(e) {
      PsiBounded(e, ZScore(col[i], m, sd, s));
    }
  }

  lemma RescaleWithin(a: real, b: real, s: real, sd: real, m: real)
    requires -b <= a <= b && s > 0.0 && sd > 0.0
    ensures Abs(Rescale(a, s, sd, m) - m) <= s * sd * b
  {
    var k := s * sd;
    assert k > 0.0;
    assert a * k <= b * k;
    assert -b * k <= a * k;
  }

  /** softmean(x) for x of shape (n, k), n >= 1: one estimate per column.
      `n, k = x.shape` raises ValueError for a rank-1 array. */
  function SoftMean(e: Env, x: NdArray): (r: Result<seq<real>>)
    requires Valid(e)
    requires x.Matrix? ==> IsBatch(x.rows)
    ensures r.Err? <==> x.Vector?
    ensures r.Err? ==> r.error.ValueError?
    ensures r.Ok? ==> |r.value| == Width(x.rows)
  {
    match x
    case Vector(_) => Err(ValueError("not enough values to unpack (expected 2, got 1)"))
    case Matrix(rows) =>
      var s := Scale(e, |rows|);
      Ok(seq(Width(rows), j requires 0 <= j < Width(rows) => ColumnSoftMean(e, Column(rows, j), s)))
  }

  // ---- properties of the per-column estimate ----

  lemma ZScoreShifted(x: real, m: real, x': real, m': real, sd: real, s: real)
    requires sd * s != 0.0 && x' - m' == x - m
    ensures ZScore(x', m', sd, s) == ZScore(x, m, sd, s)
  {
  }

  lemma ZScoreNegated(x: real, m: real, x': real, m': real, sd: real, s: real)
    requires sd * s != 0.0 && x' - m' == -(x - m)
    ensures ZScore(x', m', sd, s) == -ZScore(x, m, sd, s)
  {
  }

  lemma PsiTermsShifted(e: Env, col: seq<real>, c: real, m: real, sd: real, s: real)
    requires sd * s != 0.0
    ensures PsiTerms(e, AffineVec(col, 1.0, c), m + c, sd, s) == PsiTerms(e, col, m, sd, s)
  {
    var col' := AffineVec(col, 1.0, c);
    forall i | 0 <= i < |col|
      ensures PsiTerms(e, col', m + c, sd, s)[i] == PsiTerms(e, col, m, sd, s)[i]
    {
      ZScoreShifted(col[i], m, col'[i], m + c, sd, s);
    }
  }

  lemma PsiTermsNegated(e: Env, col: seq<real>, m: real, sd: real, s: real)
    requires sd * s != 0.0
    ensures forall i :: 0 <= i < |col| ==>
      PsiTerms(e, AffineVec(col, -1.0, 0.0), -m, sd, s)[i] == -PsiTerms(e, col, m, sd, s)[i]
  {
    var col' := AffineVec(col, -1.0, 0.0);
    forall i | 0 <= i < |col|
      ensures PsiTerms(e, col', -m, sd, s)[i] == -PsiTerms(e, col, m, sd, s)[i]
    {
      ZScoreNegated(col[i], m, col'[i], -m, sd, s);
      PsiOdd(e, ZScore(col[i], m, sd, s));
    }
  }

  /** Translation equivariance: adding c to every entry of a column adds c
      to its estimate. */
  lemma ColumnSoftMeanShift(e: Env, col: seq<real>, s: real, c: real)
    requires Valid(e) && |col| > 0 && s > 0.0
    ensures ColumnSoftMean(e, AffineVec(col, 1.0, c), s) == ColumnSoftMean(e, col, s) + c
  {
    var col' := AffineVec(col, 1.0, c);
    var m, sd := Mean(col), FlooredSd(e, col);
    MeanAffine(col, col', 1.0, c);
    assert Mean(col') == m + c;
    FlooredSdUnitAffine(e, col, 1.0, c);
    PsiTermsShifted(e, col, c, m, sd, s);
    var a := Mean(PsiTerms(e, col, m, sd, s));
    assert ColumnSoftMean(e, col', s) == Rescale(a, s, sd, m + c);
    RescaleShifted(a, s, sd, m, c);
  }

  lemma RescaleShifted(a: real, s: real, sd: real, m: real, c: real)
    ensures Rescale(a, s, sd, m + c) == Rescale(a, s, sd, m) + c
  {
  }

  /** Oddness: negating a column negates its estimate. */
  lemma ColumnSoftMeanOdd(e: Env, col: seq<real>, s: real)
    requires Valid(e) && |col| > 0 && s > 0.0
    ensures ColumnSoftMean(e, AffineVec(col, -1.0, 0.0), s) == -ColumnSoftMean(e, col, s)
  {
    var col' := AffineVec(col, -1.0, 0.0);
    var m, sd := Mean(col), FlooredSd(e, col);
    MeanAffine(col, col', -1.0, 0.0);
    FlooredSdUnitAffine(e, col, -1.0, 0.0);
    PsiTermsNegated(e, col, m, sd, s);
    var p, p' := PsiTerms(e, col, m, sd, s), PsiTerms(e, col', -m, sd, s);
    MeanNegated(p, p');
    RescaleNegated(Mean(p), Mean(p'), s, sd, m);
  }

  lemma RescaleNegated(a: real, a': real, s: real, sd: real, m: real)
    requires a' == -a
    ensures Rescale(a', s, sd, -m) == -Rescale(a, s, sd, m)
  {
  }

  /** A constant column is estimated by that constant. */
  lemma ColumnSoftMeanConstant(e: Env, col: seq<real>, s: real, c: real)
    requires Valid(e) && |col| > 0 && s > 0.0
    requires forall i :: 0 <= i < |col| ==> col[i] == c
    ensures ColumnSoftMean(e, col, s) == c
  {
    MeanConstant(col, c);
    var sd := FlooredSd(e, col);
    var p := PsiTerms(e, col, c, sd, s);
    forall i | 0 <= i < |col| ensures p[i] == 0.0 {
      ZScoreShifted(col[i], c, 0.0, 0.0, sd, s);
      PsiSign(e, 0.0);
    }
    MeanConstant(p, 0.0);
  }

  // ---- properties of softmean on a batch ----

  /** x + c with c[j] added to every entry of column j (c broadcast over
      the rows). */
  function ShiftColumns(rows: seq<seq<real>>, c: seq<real>): (y: seq<seq<real>>)
    requires IsMatrix(rows, |c|)
    ensures |y| == |rows| && IsMatrix(y, |c|)
  {
    seq(|rows|, i requires 0 <= i < |rows| => AddVec(rows[i], c))
  }

  lemma ShiftColumnsColumn(rows: seq<seq<real>>, c: seq<real>, j: nat)
    requires IsBatch(rows) && Width(rows) == |c| && j < |c|
    ensures IsBatch(ShiftColumns(rows, c)) && Width(ShiftColumns(rows, c)) == |c|
    ensures Column(ShiftColumns(rows, c), j) == AffineVec(Column(rows, j), 1.0, c[j])
  {
    var y := ShiftColumns(rows, c);
    var l, r := Column(y, j), AffineVec(Column(rows, j), 1.0, c[j]);
    forall i | 0 <= i < |rows| ensures l[i] == r[i] {
      assert y[i] == AddVec(rows[i], c);
    }
    assert l == r;
  }

  /** Output j is the estimate of column j alone: two batches with the same
      number of rows and the same column j agree at j, whatever their other
      columns hold. */
  lemma SoftMeanColumnsIndependent(e: Env, x: seq<seq<real>>, y: seq<seq<real>>, j: nat)
    requires Valid(e) && IsBatch(x) && IsBatch(y) && |x| == |y|
    requires j < Width(x) && j < Width(y) && Column(x, j) == Column(y, j)
    ensures SoftMean(e, Matrix(x)).Ok? && SoftMean(e, Matrix(y)).Ok?
    ensures SoftMean(e, Matrix(x)).value[j] == SoftMean(e, Matrix(y)).value[j]
  {
  }

  /** Adding c[j] to every entry of column j adds c[j] to output j. */
  lemma SoftMeanShift(e: Env, x: seq<seq<real>>, c: seq<real>)
    requires Valid(e) && IsBatch(x) && Width(x) == |c|
    ensures IsBatch(ShiftColumns(x, c))
    ensures SoftMean(e, Matrix(ShiftColumns(x, c))).Ok? && SoftMean(e, Matrix(x)).Ok?
    ensures SoftMean(e, Matrix(ShiftColumns(x, c))).value == AddVec(SoftMean(e, Matrix(x)).value, c)
  {
    var y := ShiftColumns(x, c);
    var s := Scale(e, |x|);
    var l, r := SoftMean(e, Matrix(y)).value, AddVec(SoftMean(e, Matrix(x)).value, c);
    forall j | 0 <= j < |c| ensures l[j] == r[j] {
      ShiftColumnsColumn(x, c, j);
      ColumnSoftMeanShift(e, Column(x, j), s, c[j]);
    }
    assert l == r;
  }

  /** softmean(-x) == -softmean(x); a rank-1 input fails either way. */
  lemma SoftMeanOdd(e: Env, x: NdArray)
    requires Valid(e) && (x.Matrix? ==> IsBatch(x.rows))
    ensures Affine(x, -1.0, 0.0).Matrix? ==> IsBatch(Affine(x, -1.0, 0.0).rows)
    ensures SoftMean(e, Affine(x, -1.0, 0.0)).Ok? == SoftMean(e, x).Ok?
    ensures SoftMean(e, x).Ok? ==>
      SoftMean(e, Affine(x, -1.0, 0.0)).value == AffineVec(SoftMean(e, x).value, -1.0, 0.0)
  {
    if x.Matrix? {
      var rows := x.rows;
      AffineMatShape(rows, -1.0, 0.0);
      var s := Scale(e, |rows|);
      var l, r := SoftMean(e, Affine(x, -1.0, 0.0)).value, AffineVec(SoftMean(e, x).value, -1.0, 0.0);
      forall j | 0 <= j < Width(rows) ensures l[j] == r[j] {
        AffineColumn(rows, -1.0, 0.0, j);
        ColumnSoftMeanOdd(e, Column(rows, j), s);
      }
      assert l == r;
    }
  }

  /** A constant column j gives that constant as output j. */
  lemma SoftMeanConstantColumn(e: Env, x: seq<seq<real>>, j: nat, c: real)
    requires Valid(e) && IsBatch(x) && j < Width(x)
    requires forall i :: 0 <= i < |x| ==> x[i][j] == c
    ensures SoftMean(e, Matrix(x)).Ok? && SoftMean(e, Matrix(x)).value[j] == c
  {
    ColumnSoftMeanConstant(e, Column(x, j), Scale(e, |x|), c);
  }

  /** Output j lies within s sd_j 2 sqrt(2) / 3 of the mean of column j. */
  lemma SoftMeanDeviation(e: Env, x: seq<seq<real>>, j: nat)
    requires Valid(e) && IsBatch(x) && j < Width(x)
    ensures SoftMean(e, Matrix(x)).Ok?
    ensures Abs(SoftMean(e, Matrix(x)).value[j] - Mean(Column(x, j)))
      <= Scale(e, |x|) * FlooredSd(e, Column(x, j)) * Cap(e)
  {
    ColumnSoftMeanDeviation(e, Column(x, j), Scale(e, |x|));
  }
}
