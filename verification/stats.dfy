/** The numpy reductions and array shapes the estimators are built from:
    sums, np.mean and np.var (population variance), columns of an n x k
    batch, the flattened view used by x.size, and affine maps a*x + c
    applied entrywise (shifts, negation and scaling are all of this form). */
module Stats {
  import opened Numerics

  // ---- vectors ----

  function Sum(s: seq<real>): real {
    if |s| == 0 then 0.0 else s[0] + Sum(s[1..])
  }

  /** np.mean of a non-empty vector. */
  function Mean(s: seq<real>): real
    requires |s| > 0
  {
    Sum(s) / |s| as real
  }

  /** Squared deviations from m; np.var averages those from the mean. */
  function SquaredDeviations(s: seq<real>, m: real): (d: seq<real>)
    ensures |d| == |s|
  {
    seq(|s|, i requires 0 <= i < |s| => (s[i] - m) * (s[i] - m))
  }

  /** np.var with the default ddof = 0. */
  function Var(s: seq<real>): real
    requires |s| > 0
  {
    Mean(SquaredDeviations(s, Mean(s)))
  }

  /** est_sd in both softmean variants: the square root of the variance
      floored at 0.001. It is positive, so dividing by it is safe. */
  function FlooredSd(e: Env, s: seq<real>): (sd: real)
    requires Valid(e) && |s| > 0
    ensures sd > 0.0
  {
    e.sqrt(Max(Var(s), VarFloor))
  }

  /** a * s + c, entrywise. */
  function AffineVec(s: seq<real>, a: real, c: real): (t: seq<real>)
    ensures |t| == |s|
  {
    seq(|s|, i requires 0 <= i < |s| => a * s[i] + c)
  }

  /** Entrywise sum of two vectors of equal length. */
  function AddVec(s: seq<real>, t: seq<real>): (u: seq<real>)
    requires |s| == |t|
    ensures |u| == |s|
  {
    seq(|s|, i requires 0 <= i < |s| => s[i] + t[i])
  }

  lemma {:induction false} SumAffine(s: seq<real>, t: seq<real>, a: real, c: real)
    requires |t| == |s|
    requires forall i :: 0 <= i < |s| ==> t[i] == a * s[i] + c
    ensures Sum(t) == a * Sum(s) + c * |s| as real
  {
    if |s| > 0 {
      SumAffine(s[1..], t[1..], a, c);
      assert a * Sum(s) == a * s[0] + a * Sum(s[1..]);
    }
  }

  lemma MeanAffine(s: seq<real>, t: seq<real>, a: real, c: real)
    requires |t| == |s| > 0
    requires forall i :: 0 <= i < |s| ==> t[i] == a * s[i] + c
    ensures Mean(t) == a * Mean(s) + c
  {
    SumAffine(s, t, a, c);
    var n := |s| as real;
    assert Mean(t) == (a * Sum(s) + c * n) / n;
    assert (a * Sum(s) + c * n) / n == a * (Sum(s) / n) + c;
  }

  /** Every entry scaled by a: so is the mean. */
  lemma MeanScaled(s: seq<real>, t: seq<real>, a: real)
    requires |t| == |s| > 0
    requires forall i :: 0 <= i < |s| ==> t[i] == a * s[i]
    ensures Mean(t) == a * Mean(s)
  {
    forall i | 0 <= i < |s| ensures t[i] == a * s[i] + 0.0 {
    }
    MeanAffine(s, t, a, 0.0);
  }

  /** Every entry negated: so is the mean. */
  lemma MeanNegated(s: seq<real>, t: seq<real>)
    requires |t| == |s| > 0
    requires forall i :: 0 <= i < |s| ==> t[i] == -s[i]
    ensures Mean(t) == -Mean(s)
  {
    MeanScaled(s, t, -1.0);
  }

  /** Every entry equal to c: the mean is c. */
  lemma MeanConstant(s: seq<real>, c: real)
    requires |s| > 0
    requires forall i :: 0 <= i < |s| ==> s[i] == c
    ensures Mean(s) == c
  {
    MeanAffine(s, s, 0.0, c);
  }

  lemma {:induction false} SumAdd(s: seq<real>, t: seq<real>)
    requires |s| == |t|
    ensures Sum(AddVec(s, t)) == Sum(s) + Sum(t)
  {
    if |s| > 0 {
      assert AddVec(s, t)[1..] == AddVec(s[1..], t[1..]);
      SumAdd(s[1..], t[1..]);
    }
  }

  lemma {:induction false} SumBounded(s: seq<real>, b: real)
    requires forall i :: 0 <= i < |s| ==> -b <= s[i] <= b
    ensures -b * |s| as real <= Sum(s) <= b * |s| as real
  {
    if |s| > 0 {
      SumBounded(s[1..], b);
    }
  }

  /** Every entry within [-b, b]: so is the mean. */
  lemma MeanBounded(s: seq<real>, b: real)
    requires |s| > 0
    requires forall i :: 0 <= i < |s| ==> -b <= s[i] <= b
    ensures -b <= Mean(s) <= b
  {
    SumBounded(s, b);
    QuotientWithin(Sum(s), b, |s| as real);
  }

  lemma QuotientWithin(x: real, b: real, n: real)
    requires n > 0.0 && -b * n <= x <= b * n
    ensures -b <= x / n <= b
  {
    assert x / n <= (b * n) / n;
    assert (-b * n) / n <= x / n;
  }

  /** Var(a * s + c) == a^2 Var(s): shifting leaves the variance alone and
      negation does too. */
  lemma VarAffine(s: seq<real>, a: real, c: real)
    requires |s| > 0
    ensures Var(AffineVec(s, a, c)) == a * a * Var(s)
  {
    var t := AffineVec(s, a, c);
    var ms, mt := Mean(s), Mean(t);
    MeanAffine(s, t, a, c);
    var ds, dt := SquaredDeviations(s, ms), SquaredDeviations(t, mt);
    DeviationsScaled(s, t, a, c, ms, mt);
    MeanScaled(ds, dt, a * a);
  }

  /** The floored sd is unchanged by a shift and by negation. */
  lemma FlooredSdUnitAffine(e: Env, s: seq<real>, a: real, c: real)
    requires Valid(e) && |s| > 0 && (a == 1.0 || a == -1.0)
    ensures FlooredSd(e, AffineVec(s, a, c)) == FlooredSd(e, s)
  {
    VarAffine(s, a, c);
    assert Var(AffineVec(s, a, c)) == Var(s);
  }

  /** Two affine maps in a row are one affine map. */
  lemma AffineVecTwice(s: seq<real>, a: real, c: real, a2: real, c2: real, a3: real, c3: real)
    requires a3 == a2 * a && c3 == a2 * c + c2
    ensures AffineVec(AffineVec(s, a, c), a2, c2) == AffineVec(s, a3, c3)
  {
    var l, r := AffineVec(AffineVec(s, a, c), a2, c2), AffineVec(s, a3, c3);
    forall i | 0 <= i < |s| ensures l[i] == r[i] {
      ComposeAt(s[i], a, c, a2, c2, a3, c3);
    }
    assert l == r;
  }

  lemma ComposeAt(u: real, a: real, c: real, a2: real, c2: real, a3: real, c3: real)
    requires a3 == a2 * a && c3 == a2 * c + c2
    ensures a2 * (a * u + c) + c2 == a3 * u + c3
  {
    assert a2 * (a * u + c) == (a2 * a) * u + a2 * c;
  }

  lemma DeviationsScaled(s: seq<real>, t: seq<real>, a: real, c: real, ms: real, mt: real)
    requires t == AffineVec(s, a, c)
    requires mt == a * ms + c
    ensures forall i :: 0 <= i < |s| ==>
      SquaredDeviations(t, mt)[i] == a * a * SquaredDeviations(s, ms)[i]
  {
    forall i | 0 <= i < |s|
      ensures SquaredDeviations(t, mt)[i] == a * a * SquaredDeviations(s, ms)[i]
    {
      DeviationScaled(s, t, a, c, ms, mt, i);
    }
  }

  lemma DeviationScaled(s: seq<real>, t: seq<real>, a: real, c: real, ms: real, mt: real, i: nat)
    requires t == AffineVec(s, a, c) && i < |s|
    requires mt == a * ms + c
    ensures SquaredDeviations(t, mt)[i] == a * a * SquaredDeviations(s, ms)[i]
  {
    var d, e := s[i] - ms, t[i] - mt;
    assert e == a * d;
    ScaledSquare(a, d, e, SquaredDeviations(s, ms)[i], SquaredDeviations(t, mt)[i]);
  }

  lemma ScaledSquare(a: real, d: real, e: real, dd: real, ee: real)
    requires e == a * d && dd == d * d && ee == e * e
    ensures ee == a * a * dd
  {
  }

  // ---- n x k batches ----

  /** Every row of x has length k. */
  predicate IsMatrix(x: seq<seq<real>>, k: nat) {
    forall i :: 0 <= i < |x| ==> |x[i]| == k
  }

  /** A non-empty rectangular batch: rows are observations. */
  predicate IsBatch(x: seq<seq<real>>) {
    |x| > 0 && IsMatrix(x, |x[0]|)
  }

  /** Number of columns of a batch (x.shape[1]). */
  function Width(x: seq<seq<real>>): nat
    requires IsBatch(x)
  {
    |x[0]|
  }

  /** x[:, j], for any x (possibly without rows) whose rows all reach j. */
  function Column(x: seq<seq<real>>, j: nat): (c: seq<real>)
    requires forall i :: 0 <= i < |x| ==> j < |x[i]|
    ensures |c| == |x|
  {
    seq(|x|, i requires 0 <= i < |x| => x[i][j])
  }

  /** a * x + c, entrywise. */
  function AffineMat(x: seq<seq<real>>, a: real, c: real): (y: seq<seq<real>>)
    ensures |y| == |x|
    ensures forall i :: 0 <= i < |x| ==> y[i] == AffineVec(x[i], a, c)
  {
    seq(|x|, i requires 0 <= i < |x| => AffineVec(x[i], a, c))
  }

  lemma AffineMatShape(x: seq<seq<real>>, a: real, c: real)
    requires IsBatch(x)
    ensures IsBatch(AffineMat(x, a, c)) && Width(AffineMat(x, a, c)) == Width(x)
  {
  }

  lemma AffineColumn(x: seq<seq<real>>, a: real, c: real, j: nat)
    requires IsBatch(x) && j < Width(x)
    ensures IsBatch(AffineMat(x, a, c)) && Width(AffineMat(x, a, c)) == Width(x)
    ensures Column(AffineMat(x, a, c), j) == AffineVec(Column(x, j), a, c)
  {
    var y := AffineMat(x, a, c);
    AffineMatShape(x, a, c);
    var l, r := Column(y, j), AffineVec(Column(x, j), a, c);
    forall i | 0 <= i < |x| ensures l[i] == r[i] {
      assert y[i] == AffineVec(x[i], a, c);
    }
    assert l == r;
  }

  lemma AffineMatTwice(x: seq<seq<real>>, a: real, c: real, a2: real, c2: real, a3: real, c3: real)
    requires a3 == a2 * a && c3 == a2 * c + c2
    ensures AffineMat(AffineMat(x, a, c), a2, c2) == AffineMat(x, a3, c3)
  {
    var l, r := AffineMat(AffineMat(x, a, c), a2, c2), AffineMat(x, a3, c3);
    forall i | 0 <= i < |x| ensures l[i] == r[i] {
      AffineVecTwice(x[i], a, c, a2, c2, a3, c3);
    }
    assert l == r;
  }

  /** The entries of x in row-major order (np.mean(x) and x.size see these). */
  function Flatten(x: seq<seq<real>>): seq<real> {
    if |x| == 0 then [] else x[0] + Flatten(x[1..])
  }

  lemma {:induction false} FlattenAffine(x: seq<seq<real>>, a: real, c: real)
    ensures Flatten(AffineMat(x, a, c)) == AffineVec(Flatten(x), a, c)
  {
    if |x| > 0 {
      assert AffineMat(x, a, c)[1..] == AffineMat(x[1..], a, c);
      FlattenAffine(x[1..], a, c);
      var u, v := x[0], Flatten(x[1..]);
      var l, r := AffineVec(u + v, a, c), AffineVec(u, a, c) + AffineVec(v, a, c);
      assert |l| == |r|;
      forall i | 0 <= i < |l| ensures l[i] == r[i] {
        if i < |u| {
          assert (u + v)[i] == u[i];
        } else {
          assert (u + v)[i] == v[i - |u|];
        }
      }
      assert l == r;
    }
  }

  /** A batch has no entries exactly when it has no columns. */
  lemma {:induction false} FlattenEmpty(x: seq<seq<real>>, k: nat)
    requires IsMatrix(x, k)
    ensures |Flatten(x)| == 0 <==> |x| == 0 || k == 0
  {
    if |x| > 0 {
      FlattenEmpty(x[1..], k);
    }
  }

  // ---- numpy arrays of rank 1 or 2 ----

  /** A (k,) vector or an (n, k) matrix whose rows are the observations. */
  datatype NdArray = Vector(v: seq<real>) | Matrix(rows: seq<seq<real>>)

  /** The entries in row-major order; x.size is their number. */
  function Entries(x: NdArray): seq<real> {
    match x
    case Vector(v) => v
    case Matrix(rows) => Flatten(rows)
  }

  /** a * x + c, entrywise, keeping the shape. */
  function Affine(x: NdArray, a: real, c: real): (y: NdArray)
    ensures y.Vector? == x.Vector?
  {
    match x
    case Vector(v) => Vector(AffineVec(v, a, c))
    case Matrix(rows) => Matrix(AffineMat(rows, a, c))
  }

  lemma EntriesAffine(x: NdArray, a: real, c: real)
    ensures Entries(Affine(x, a, c)) == AffineVec(Entries(x), a, c)
  {
    if x.Matrix? {
      FlattenAffine(x.rows, a, c);
    }
  }

  lemma AffineTwice(x: NdArray, a: real, c: real, a2: real, c2: real, a3: real, c3: real)
    requires a3 == a2 * a && c3 == a2 * c + c2
    ensures Affine(Affine(x, a, c), a2, c2) == Affine(x, a3, c3)
  {
    match x
    case Vector(v) => AffineVecTwice(v, a, c, a2, c2, a3, c3);
    case Matrix(rows) => AffineMatTwice(rows, a, c, a2, c2, a3, c3);
  }

  /** A batch that may have no rows: n x k for some k. */
  predicate IsRectangular(x: seq<seq<real>>) {
    |x| == 0 || IsBatch(x)
  }

  /** Every entry of x equals c: so does every element of its flattening. */
  lemma {:induction false} FlattenConstant(x: seq<seq<real>>, c: real)
    requires forall i, j :: 0 <= i < |x| && 0 <= j < |x[i]| ==> x[i][j] == c
    ensures forall k :: 0 <= k < |Flatten(x)| ==> Flatten(x)[k] == c
  {
    if |x| > 0 {
      FlattenConstant(x[1..], c);
      assert forall i, j :: 0 <= i < |x[1..]| && 0 <= j < |x[1..][i]| ==> x[1..][i][j] == c by {
        forall i, j | 0 <= i < |x[1..]| && 0 <= j < |x[1..][i]| ensures x[1..][i][j] == c {
          assert x[1..][i] == x[i + 1];
        }
      }
      forall k | 0 <= k < |Flatten(x)| ensures Flatten(x)[k] == c {
        if k < |x[0]| {
          assert Flatten(x)[k] == x[0][k];
        } else {
          assert Flatten(x)[k] == Flatten(x[1..])[k - |x[0]|];
        }
      }
    }
  }
}
