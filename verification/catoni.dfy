/** The Catoni-type estimator of helpers.py: the bias-correction term
    `correction`, the truncated moment and the column-wise estimator
    `est_robust`. */
module Catoni {
  import opened Numerics
  import opened Stats
  import opened Outcomes
  import opened Influence

  /** normCDF_1D: the standard normal CDF written through erf. */
  function NormCdf(e: Env, u: real): real
    requires Valid(e)
  {
    (1.0 + e.erf(u / R2(e))) / 2.0
  }

  /** np.exp(-v**2 / 2), the unnormalised normal density. */
  function Bell(e: Env, v: real): real {
    e.exp(-(v * v) / 2.0)
  }

  /** math.sqrt(2 * math.pi) */
  function Sqrt2Pi(e: Env): (r: real)
    requires Valid(e)
    ensures r > 0.0
  {
    SqrtPositive(e, 2.0 * e.pi);
    e.sqrt(2.0 * e.pi)
  }

  // The five terms t1..t5 of `correction`, as functions of m, sigma,
  // vm, vp and the values fm, fp, em, ep computed from vm and vp.

  function Term1(r2: real, fm: real, fp: real): real {
    2.0 * r2 * (fm - fp) / 3.0
  }

  function Term2(m: real, fm: real, fp: real): real {
    (-1.0) * Cubic(m) * (fm + fp)
  }

  function Term3(m: real, sigma: real, em: real, ep: real, s2pi: real): real
    requires s2pi != 0.0
  {
    sigma * (1.0 - m * m / 2.0) * (ep - em) / s2pi
  }

  function Term4(m: real, sigma: real, vm: real, vp: real,
                 fm: real, fp: real, em: real, ep: real, s2pi: real): real
    requires s2pi != 0.0
  {
    m * (sigma * sigma) * (fp + fm + (vp * ep + vm * em) / s2pi) / 2.0
  }

  function Term5(sigma: real, vm: real, vp: real, em: real, ep: real, s2pi: real): real
    requires s2pi != 0.0
  {
    (sigma * sigma * sigma) * ((2.0 + vm * vm) * em - (2.0 + vp * vp) * ep) / (6.0 * s2pi)
  }

  /** t1 + t2 + t3 + t4 + t5, added in source order. */
  function CorrectionSum(r2: real, s2pi: real, m: real, sigma: real,
                         vm: real, vp: real, fm: real, fp: real, em: real, ep: real): real
    requires s2pi != 0.0
  {
    Term1(r2, fm, fp) + Term2(m, fm, fp) + Term3(m, sigma, em, ep, s2pi)
      + Term4(m, sigma, vm, vp, fm, fp, em, ep, s2pi) + Term5(sigma, vm, vp, em, ep, s2pi)
  }

  // Negating m swaps vm with vp (hence fm with fp and em with ep); each
  // term then changes sign.

  lemma Term2Odd(m: real, fm: real, fp: real)
    ensures Term2(-m, fp, fm) == -Term2(m, fm, fp)
  {
    CubicOdd(m);
  }

  lemma Term3Odd(m: real, sigma: real, em: real, ep: real, s2pi: real)
    requires s2pi != 0.0
    ensures Term3(-m, sigma, ep, em, s2pi) == -Term3(m, sigma, em, ep, s2pi)
  {
    var a := sigma * (1.0 - m * m / 2.0);
    assert sigma * (1.0 - (-m) * (-m) / 2.0) == a;
    NegatedQuotient(a, ep - em, s2pi);
  }

  lemma Term4Odd(m: real, sigma: real, vm: real, vp: real,
                 fm: real, fp: real, em: real, ep: real, s2pi: real)
    requires s2pi != 0.0
    ensures Term4(-m, sigma, vp, vm, fp, fm, ep, em, s2pi)
         == -Term4(m, sigma, vm, vp, fm, fp, em, ep, s2pi)
  {
    var q := fp + fm + (vp * ep + vm * em) / s2pi;
    assert fm + fp + (vm * em + vp * ep) / s2pi == q;
    var s2 := sigma * sigma;
    assert (-m) * s2 * q == -(m * s2 * q);
  }

  lemma Term5Odd(sigma: real, vm: real, vp: real, em: real, ep: real, s2pi: real)
    requires s2pi != 0.0
    ensures Term5(sigma, vp, vm, ep, em, s2pi) == -Term5(sigma, vm, vp, em, ep, s2pi)
  {
    var d := (2.0 + vm * vm) * em - (2.0 + vp * vp) * ep;
    assert (2.0 + vp * vp) * ep - (2.0 + vm * vm) * em == -d;
    NegatedQuotient(sigma * sigma * sigma, d, 6.0 * s2pi);
  }

  lemma NegatedQuotient(a: real, d: real, s: real)
    requires s != 0.0
    ensures a * (-d) / s == -(a * d / s)
    ensures a == 1.0 ==> (-d) / s == -(d / s)
  {
  }

  lemma CorrectionSumOdd(r2: real, s2pi: real, m: real, sigma: real,
                         vm: real, vp: real, fm: real, fp: real, em: real, ep: real)
    requires s2pi != 0.0
    ensures CorrectionSum(r2, s2pi, -m, sigma, vp, vm, fp, fm, ep, em)
         == -CorrectionSum(r2, s2pi, m, sigma, vm, vp, fm, fp, em, ep)
  {
    Term2Odd(m, fm, fp);
    Term3Odd(m, sigma, em, ep, s2pi);
    Term4Odd(m, sigma, vm, vp, fm, fp, em, ep, s2pi);
    Term5Odd(sigma, vm, vp, em, ep, s2pi);
  }

  /** `correction(m, sigma)`; sigma must be non-zero, which every caller
      guarantees by flooring it. */
  function Correction(e: Env, m: real, sigma: real): real
    requires Valid(e) && sigma != 0.0
  {
    var vm := (R2(e) - m) / sigma;
    var vp := (R2(e) + m) / sigma;
    var fm := NormCdf(e, -vm);
    var fp := NormCdf(e, -vp);
    var em := Bell(e, vm);
    var ep := Bell(e, vp);
    CorrectionSum(R2(e), Sqrt2Pi(e), m, sigma, vm, vp, fm, fp, em, ep)
  }

  /** correction(-m, sigma) == -correction(m, sigma), whatever erf and exp are. */
  lemma CorrectionOdd(e: Env, m: real, sigma: real)
    requires Valid(e) && sigma != 0.0
    ensures Correction(e, -m, sigma) == -Correction(e, m, sigma)
  {
    var vm := (R2(e) - m) / sigma;
    var vp := (R2(e) + m) / sigma;
    var fm, fp := NormCdf(e, -vm), NormCdf(e, -vp);
    var em, ep := Bell(e, vm), Bell(e, vp);
    assert (R2(e) - -m) / sigma == vp;
    assert (R2(e) + -m) / sigma == vm;
    assert Correction(e, m, sigma) == CorrectionSum(R2(e), Sqrt2Pi(e), m, sigma, vm, vp, fm, fp, em, ep);
    assert Correction(e, -m, sigma) == CorrectionSum(R2(e), Sqrt2Pi(e), -m, sigma, vp, vm, fp, fm, ep, em);
    CorrectionSumOdd(R2(e), Sqrt2Pi(e), m, sigma, vm, vp, fm, fp, em, ep);
  }

  /** The raw truncated term x (1 - (lam x)^2 / (2 beta)) - lam^2 x^3 / 6;
      with lam == 0 it is x itself. */
  function Truncated(x: real, lam: real, beta: real): (r: real)
    requires beta != 0.0
    ensures lam == 0.0 ==> r == x
  {
    x * (1.0 - (lam * x) * (lam * x) / (2.0 * beta)) - (lam * lam) * (x * x * x) / 6.0
  }

  lemma TruncatedOdd(x: real, lam: real, beta: real)
    requires beta != 0.0
    ensures Truncated(-x, lam, beta) == -Truncated(x, lam, beta)
  {
    assert (-x) * (-x) * (-x) == -(x * x * x);
    assert (lam * -x) * (lam * -x) == (lam * x) * (lam * x);
  }

  /** lam_safe = np.clip(lam, LAM_MIN): lam raised to at least LAM_MIN. */
  function LamSafe(lam: real): (r: real)
    ensures r >= LamMin && r >= lam
    ensures r == lam || r == LamMin
  {
    Max(lam, LamMin)
  }

  /** The sigma handed to `correction`: lam_safe |x| floored at SIGMA_MIN,
      over sqrt(beta). It is at least SIGMA_MIN / sqrt(beta) > 0, so
      `correction` never divides by zero, and it depends on x only
      through |x|. */
  function Sigma(e: Env, lamSafe: real, x: real, beta: real): (r: real)
    requires Valid(e) && beta > 0.0
    ensures 0.0 < SigmaMin / e.sqrt(beta) <= r
    ensures lamSafe * Abs(x) <= r * e.sqrt(beta)
  {
    SqrtPositive(e, beta);
    var floored := Max(lamSafe * Abs(x), SigmaMin);
    assert SigmaMin / e.sqrt(beta) <= floored / e.sqrt(beta);
    floored / e.sqrt(beta)
  }

  /** comps for one column: the truncated term of every observation. */
  function Comps(col: seq<real>, lam: real, beta: real): (c: seq<real>)
    requires beta != 0.0
    ensures |c| == |col|
  {
    seq(|col|, i requires 0 <= i < |col| => Truncated(col[i], lam, beta))
  }

  /** One entry of corr: correction(lam_safe x, sigma) / lam_safe. */
  function CorrTerm(e: Env, ls: real, x: real, beta: real): real
    requires Valid(e) && beta > 0.0 && ls > 0.0
  {
    Correction(e, ls * x, Sigma(e, ls, x, beta)) / ls
  }

  /** corr for one column. */
  function Corrs(e: Env, col: seq<real>, lam: real, beta: real): (c: seq<real>)
    requires Valid(e) && beta > 0.0
    ensures |c| == |col|
  {
    var ls := LamSafe(lam);
    seq(|col|, i requires 0 <= i < |col| => CorrTerm(e, ls, col[i], beta))
  }

  /** The estimate for one column: mean(comps) + mean(corr). */
  function ColumnEstimate(e: Env, col: seq<real>, lam: real, beta: real): real
    requires Valid(e) && beta > 0.0 && |col| > 0
  {
    Mean(Comps(col, lam, beta)) + Mean(Corrs(e, col, lam, beta))
  }

  /** est_robust(x, lam, beta) with scalar lam and beta. `n, k = x.shape`
      raises ValueError for a rank-1 array, so the explicit rank check that
      follows it can never fire. A batch without entries, (0, k) or (n, 0),
      gets past the unpack but fails in `correction`: normCDF is an
      np.vectorize without otypes, which raises ValueError on size-0 input.
      Any other (n, k) batch gives one estimate per column. */
  function EstRobust(e: Env, x: NdArray, lam: real, beta: real): (r: Result<seq<real>>)
    requires Valid(e) && beta > 0.0
    requires x.Matrix? ==> IsRectangular(x.rows)
    ensures r.Err? <==> x.Vector? || |Entries(x)| == 0
    ensures r.Err? ==> r.error.ValueError?
    ensures r.Ok? ==> IsBatch(x.rows) && Width(x.rows) > 0 && |r.value| == Width(x.rows)
  {
    match x
    case Vector(_) => Err(ValueError("not enough values to unpack (expected 2, got 1)"))
    case Matrix(rows) =>
      if |Flatten(rows)| == 0 then
        Err(ValueError("cannot call `vectorize` on size 0 inputs unless `otypes` is set"))
      else
        FlattenEmpty(rows, Width(rows));
        Ok(seq(Width(rows), j requires 0 <= j < Width(rows) =>
          ColumnEstimate(e, Column(rows, j), lam, beta)))
  }

  // ---- properties of est_robust ----

  lemma SigmaEven(e: Env, lamSafe: real, x: real, beta: real)
    requires Valid(e) && beta > 0.0
    ensures Sigma(e, lamSafe, -x, beta) == Sigma(e, lamSafe, x, beta)
  {
  }

  /** One entry of corr is odd in the observation. */
  lemma CorrTermOdd(e: Env, ls: real, x: real, beta: real)
    requires Valid(e) && beta > 0.0 && ls > 0.0
    ensures CorrTerm(e, ls, -x, beta) == -CorrTerm(e, ls, x, beta)
  {
    var sigma := Sigma(e, ls, x, beta);
    SigmaEven(e, ls, x, beta);
    CorrectionOdd(e, ls * x, sigma);
    assert ls * -x == -(ls * x);
    var c := Correction(e, ls * x, sigma);
    assert CorrTerm(e, ls, x, beta) == c / ls;
    assert CorrTerm(e, ls, -x, beta) == Correction(e, ls * -x, sigma) / ls;
    assert Correction(e, ls * -x, sigma) == -c;
    NegatedQuotient(1.0, c, ls);
  }

  lemma CompsOdd(col: seq<real>, lam: real, beta: real)
    requires beta > 0.0
    ensures forall i :: 0 <= i < |col| ==>
      Comps(AffineVec(col, -1.0, 0.0), lam, beta)[i] == -Comps(col, lam, beta)[i]
  {
    forall i | 0 <= i < |col|
      ensures Comps(AffineVec(col, -1.0, 0.0), lam, beta)[i] == -Comps(col, lam, beta)[i]
    {
      TruncatedOdd(col[i], lam, beta);
    }
  }

  lemma CorrsOdd(e: Env, col: seq<real>, lam: real, beta: real)
    requires Valid(e) && beta > 0.0
    ensures forall i :: 0 <= i < |col| ==>
      Corrs(e, AffineVec(col, -1.0, 0.0), lam, beta)[i] == -Corrs(e, col, lam, beta)[i]
  {
    forall i | 0 <= i < |col|
      ensures Corrs(e, AffineVec(col, -1.0, 0.0), lam, beta)[i] == -Corrs(e, col, lam, beta)[i]
    {
      CorrTermOdd(e, LamSafe(lam), col[i], beta);
    }
  }

  /** Negating a column negates its estimate. */
  lemma ColumnEstimateOdd(e: Env, col: seq<real>, lam: real, beta: real)
    requires Valid(e) && beta > 0.0 && |col| > 0
    ensures ColumnEstimate(e, AffineVec(col, -1.0, 0.0), lam, beta)
         == -ColumnEstimate(e, col, lam, beta)
  {
    var neg := AffineVec(col, -1.0, 0.0);
    CompsOdd(col, lam, beta);
    MeanNegated(Comps(col, lam, beta), Comps(neg, lam, beta));
    CorrsOdd(e, col, lam, beta);
    MeanNegated(Corrs(e, col, lam, beta), Corrs(e, neg, lam, beta));
  }

  /** A result with its estimates negated and its error kept. */
  function Negated(r: Result<seq<real>>): Result<seq<real>> {
    match r
    case Err(err) => Err(err)
    case Ok(v) => Ok(AffineVec(v, -1.0, 0.0))
  }

  /** est_robust(-x) == -est_robust(x), the failures included: the truncated
      term and the correction are odd, and sigma depends on x only through
      |x|. */
  lemma EstRobustOdd(e: Env, x: NdArray, lam: real, beta: real)
    requires Valid(e) && beta > 0.0
    requires x.Matrix? ==> IsRectangular(x.rows)
    ensures x.Matrix? ==> IsRectangular(Affine(x, -1.0, 0.0).rows)
    ensures EstRobust(e, Affine(x, -1.0, 0.0), lam, beta) == Negated(EstRobust(e, x, lam, beta))
  {
    EntriesAffine(x, -1.0, 0.0);
    if x.Matrix? && |x.rows| > 0 {
      var rows := x.rows;
      AffineMatShape(rows, -1.0, 0.0);
      if EstRobust(e, x, lam, beta).Ok? {
        var r, r' := EstRobust(e, x, lam, beta).value, EstRobust(e, Affine(x, -1.0, 0.0), lam, beta).value;
        forall j | 0 <= j < Width(rows) ensures r'[j] == AffineVec(r, -1.0, 0.0)[j] {
          AffineColumn(rows, -1.0, 0.0, j);
          ColumnEstimateOdd(e, Column(rows, j), lam, beta);
        }
        assert r' == AffineVec(r, -1.0, 0.0);
      }
    }
  }

  /** An all-zero batch has estimate zero in every column: comps vanish and
      so does correction(0, sigma). */
  lemma EstRobustZero(e: Env, rows: seq<seq<real>>, lam: real, beta: real)
    requires Valid(e) && beta > 0.0 && IsBatch(rows)
    requires forall i, j :: 0 <= i < |rows| && 0 <= j < |rows[i]| ==> rows[i][j] == 0.0
    ensures EstRobust(e, Matrix(rows), lam, beta).Ok? <==> Width(rows) > 0
    ensures forall j :: 0 <= j < Width(rows) ==> EstRobust(e, Matrix(rows), lam, beta).value[j] == 0.0
  {
    FlattenEmpty(rows, Width(rows));
    var ls := LamSafe(lam);
    forall j | 0 <= j < Width(rows)
      ensures EstRobust(e, Matrix(rows), lam, beta).value[j] == 0.0
    {
      var col := Column(rows, j);
      var c, d := Comps(col, lam, beta), Corrs(e, col, lam, beta);
      forall i | 0 <= i < |col| ensures c[i] == 0.0 && d[i] == 0.0 {
        assert col[i] == 0.0;
        CorrTermOdd(e, ls, 0.0, beta);
      }
      MeanConstant(c, 0.0);
      MeanConstant(d, 0.0);
    }
  }

  /** x as an (n, 1) batch. */
  function ColumnBatch(col: seq<real>): (x: seq<seq<real>>)
    ensures |x| == |col|
    ensures |col| > 0 ==> IsBatch(x) && Width(x) == 1
  {
    seq(|col|, i requires 0 <= i < |col| => [col[i]])
  }

  /** Columns are estimated independently: column j of the result is the
      estimate of column j taken alone as an (n, 1) batch. */
  lemma EstRobustColumnwise(e: Env, rows: seq<seq<real>>, lam: real, beta: real, j: nat)
    requires Valid(e) && beta > 0.0 && IsBatch(rows) && j < Width(rows)
    ensures EstRobust(e, Matrix(rows), lam, beta).value[j]
         == EstRobust(e, Matrix(ColumnBatch(Column(rows, j))), lam, beta).value[0]
  {
    var col := Column(rows, j);
    FlattenEmpty(rows, Width(rows));
    FlattenEmpty(ColumnBatch(col), 1);
    assert Column(ColumnBatch(col), 0) == col;
  }
}
