/** softmean of robustify.py: the entries of x are pooled into one mean and
    one floored standard deviation, x is standardised with them, the
    Catoni-type estimator est_robust runs with lambda and beta fixed by
    x.size and delta, and its column estimates are mapped back to the data
    scale. */
module PooledSoftMean {
  import opened Numerics
  import opened Stats
  import opened Outcomes
  import opened Catoni

  /** log(1/delta), positive because 1/delta == 200 > 1. */
  function LogInvDelta(e: Env): (l: real)
    requires Valid(e)
    ensures l > 0.0
  {
    e.log(1.0 / ConfDelta)
  }

  /** lam = sqrt(2 log(1/delta) / (size vbound)) with vbound == 1. */
  function Lam(e: Env, size: nat): (lam: real)
    requires Valid(e) && size > 0
    ensures lam > 0.0
  {
    var l := LogInvDelta(e);
    var vbound := 1.0;
    SqrtPositive(e, 2.0 * l / (size as real * vbound));
    e.sqrt(2.0 * l / (size as real * vbound))
  }

  /** beta = sqrt(2 Tbound log(1/delta) / vbound) with Tbound == vbound == 1;
      it does not depend on the data at all. */
  function Beta(e: Env): (beta: real)
    requires Valid(e)
    ensures beta > 0.0
  {
    var l := LogInvDelta(e);
    var tbound := 1.0;
    var vbound := tbound;
    SqrtPositive(e, 2.0 * tbound * l / vbound);
    e.sqrt(2.0 * tbound * l / vbound)
  }

  /** (x - m) / sd entrywise, written as the affine map x / sd - m / sd. */
  function Standardise(x: NdArray, m: real, sd: real): (z: NdArray)
    requires sd > 0.0
    ensures z.Vector? == x.Vector?
  {
    Affine(x, 1.0 / sd, -m / sd)
  }

  /** softmean(x). An empty x fails with ZeroDivisionError when lam divides
      by x.size == 0; a non-empty rank-1 x reaches est_robust, whose
      `n, k = x.shape` raises ValueError; a non-empty (n, k) batch yields one
      estimate per column. */
  function SoftMean(e: Env, x: NdArray): (r: Result<seq<real>>)
    requires Valid(e)
    requires x.Matrix? ==> IsRectangular(x.rows)
    ensures r.Ok? <==> x.Matrix? && |Entries(x)| > 0
    ensures |Entries(x)| == 0 ==> r == Err(ZeroDivisionError)
    ensures x.Vector? && |Entries(x)| > 0 ==> r.Err? && r.error.ValueError?
    ensures r.Ok? ==> |x.rows| > 0 && |r.value| == Width(x.rows)
  {
    var v := Entries(x);
    if |v| == 0 then Err(ZeroDivisionError)
    else
      var m := Mean(v);
      var sd := FlooredSd(e, v);
      var z := Standardise(x, m, sd);
      StandardiseShape(x, m, sd);
      EntriesAffine(x, 1.0 / sd, -m / sd);
      match EstRobust(e, z, Lam(e, |v|), Beta(e))
      case Err(err) => Err(err)
      case Ok(h) => Ok(AffineVec(h, sd, m))
  }

  /** A non-empty rectangular batch has rows, and standardising keeps its
      shape. */
  lemma StandardiseShape(x: NdArray, m: real, sd: real)
    requires sd > 0.0 && |Entries(x)| > 0
    requires x.Matrix? ==> IsRectangular(x.rows)
    ensures x.Matrix? ==> |x.rows| > 0 && IsBatch(Standardise(x, m, sd).rows)
    ensures x.Matrix? ==> Width(Standardise(x, m, sd).rows) == Width(x.rows)
  {
    if x.Matrix? && |x.rows| > 0 {
      AffineMatShape(x.rows, 1.0 / sd, -m / sd);
    }
  }

  // ---- properties ----

  lemma ShiftCancels(sd: real, m: real, c: real)
    requires sd > 0.0
    ensures -m / sd == 1.0 / sd * c + -(m + c) / sd
  {
  }

  lemma NegationCommutes(sd: real, m: real)
    requires sd > 0.0
    ensures -(-m) / sd == m / sd
    ensures m / sd == -(-m / sd)
  {
  }

  /** Standardising x + c with the shifted mean gives what standardising x
      gives. */
  lemma StandardiseShifted(x: NdArray, m: real, sd: real, c: real)
    requires sd > 0.0
    ensures Standardise(Affine(x, 1.0, c), m + c, sd) == Standardise(x, m, sd)
  {
    ShiftCancels(sd, m, c);
    AffineTwice(x, 1.0, c, 1.0 / sd, -(m + c) / sd, 1.0 / sd, -m / sd);
  }

  /** Standardising -x with the negated mean negates the standardised x. */
  lemma StandardiseNegated(x: NdArray, m: real, sd: real)
    requires sd > 0.0
    ensures Standardise(Affine(x, -1.0, 0.0), -m, sd) == Affine(Standardise(x, m, sd), -1.0, 0.0)
  {
    NegationCommutes(sd, m);
    AffineTwice(x, -1.0, 0.0, 1.0 / sd, -(-m) / sd, -(1.0 / sd), m / sd);
    AffineTwice(x, 1.0 / sd, -m / sd, -1.0, 0.0, -(1.0 / sd), m / sd);
  }

  /** Translation equivariance: adding c to every entry of x adds c to every
      output, and the failure cases are unchanged. */
  lemma SoftMeanShift(e: Env, x: NdArray, c: real)
    requires Valid(e) && (x.Matrix? ==> IsRectangular(x.rows))
    ensures Affine(x, 1.0, c).Matrix? ==> IsRectangular(Affine(x, 1.0, c).rows)
    ensures SoftMean(e, Affine(x, 1.0, c)).Ok? == SoftMean(e, x).Ok?
    ensures SoftMean(e, x).Err? ==> SoftMean(e, Affine(x, 1.0, c)) == SoftMean(e, x)
    ensures SoftMean(e, x).Ok? ==>
      SoftMean(e, Affine(x, 1.0, c)).value == AffineVec(SoftMean(e, x).value, 1.0, c)
  {
    var x' := Affine(x, 1.0, c);
    if x.Matrix? && |x.rows| > 0 {
      AffineMatShape(x.rows, 1.0, c);
    }
    var v, v' := Entries(x), Entries(x');
    EntriesAffine(x, 1.0, c);
    if |v| > 0 {
      var m, sd := Mean(v), FlooredSd(e, v);
      MeanAffine(v, v', 1.0, c);
      FlooredSdUnitAffine(e, v, 1.0, c);
      StandardiseShifted(x, m, sd, c);
      var z := Standardise(x, m, sd);
      StandardiseShape(x, m, sd);
      assert Standardise(x', Mean(v'), FlooredSd(e, v')) == z;
      var r := EstRobust(e, z, Lam(e, |v|), Beta(e));
      if r.Ok? {
        AffineVecTwice(r.value, sd, m, 1.0, c, sd, m + c);
      }
    }
  }

  /** softmean(-x) == -softmean(x), and the failure cases are unchanged. */
  lemma SoftMeanOdd(e: Env, x: NdArray)
    requires Valid(e) && (x.Matrix? ==> IsRectangular(x.rows))
    ensures Affine(x, -1.0, 0.0).Matrix? ==> IsRectangular(Affine(x, -1.0, 0.0).rows)
    ensures SoftMean(e, Affine(x, -1.0, 0.0)).Ok? == SoftMean(e, x).Ok?
    ensures SoftMean(e, x).Err? ==> SoftMean(e, Affine(x, -1.0, 0.0)) == SoftMean(e, x)
    ensures SoftMean(e, x).Ok? ==>
      SoftMean(e, Affine(x, -1.0, 0.0)).value == AffineVec(SoftMean(e, x).value, -1.0, 0.0)
  {
    var x' := Affine(x, -1.0, 0.0);
    if x.Matrix? && |x.rows| > 0 {
      AffineMatShape(x.rows, -1.0, 0.0);
    }
    var v, v' := Entries(x), Entries(x');
    EntriesAffine(x, -1.0, 0.0);
    if |v| > 0 {
      var m, sd := Mean(v), FlooredSd(e, v);
      MeanAffine(v, v', -1.0, 0.0);
      FlooredSdUnitAffine(e, v, -1.0, 0.0);
      StandardiseNegated(x, m, sd);
      var z := Standardise(x, m, sd);
      StandardiseShape(x, m, sd);
      assert Standardise(x', Mean(v'), FlooredSd(e, v')) == Affine(z, -1.0, 0.0);
      var lam, beta := Lam(e, |v|), Beta(e);
      EstRobustOdd(e, z, lam, beta);
      var r := EstRobust(e, z, lam, beta);
      if r.Ok? {
        AffineVecTwice(r.value, -1.0, 0.0, sd, -m, -sd, -m);
        AffineVecTwice(r.value, sd, m, -1.0, 0.0, -sd, -m);
      }
    }
  }

  /** A batch whose entries all equal c is estimated by c in every column. */
  lemma SoftMeanConstant(e: Env, rows: seq<seq<real>>, c: real)
    requires Valid(e) && IsBatch(rows) && Width(rows) > 0
    requires forall i, j :: 0 <= i < |rows| && 0 <= j < |rows[i]| ==> rows[i][j] == c
    ensures SoftMean(e, Matrix(rows)).Ok?
    ensures forall j :: 0 <= j < Width(rows) ==> SoftMean(e, Matrix(rows)).value[j] == c
  {
    var x := Matrix(rows);
    var v := Entries(x);
    FlattenEmpty(rows, Width(rows));
    FlattenConstant(rows, c);
    MeanConstant(v, c);
    var sd := FlooredSd(e, v);
    var z := Standardise(x, c, sd);
    StandardiseShape(x, c, sd);
    StandardisedConstant(rows, c, sd);
    var lam, beta := Lam(e, |v|), Beta(e);
    EstRobustZero(e, z.rows, lam, beta);
    var h := EstRobust(e, z, lam, beta).value;
    assert SoftMean(e, x) == Ok(AffineVec(h, sd, c));
    forall j | 0 <= j < Width(rows) ensures AffineVec(h, sd, c)[j] == c {
      assert h[j] == 0.0;
    }
  }

  /** Standardising a constant batch with its own mean gives all zeros. */
  lemma StandardisedConstant(rows: seq<seq<real>>, c: real, sd: real)
    requires sd > 0.0
    requires forall i, j :: 0 <= i < |rows| && 0 <= j < |rows[i]| ==> rows[i][j] == c
    ensures var z := Standardise(Matrix(rows), c, sd).rows;
      forall i, j :: 0 <= i < |z| && 0 <= j < |z[i]| ==> z[i][j] == 0.0
  {
    var z := Standardise(Matrix(rows), c, sd).rows;
    forall i, j | 0 <= i < |z| && 0 <= j < |z[i]| ensures z[i][j] == 0.0 {
      assert z[i] == AffineVec(rows[i], 1.0 / sd, -c / sd);
      assert z[i][j] == 1.0 / sd * c + -c / sd;
    }
  }
}
