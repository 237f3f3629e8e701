/** LinearFunction_Robust of models.py: an ordinary linear layer whose
    backward pass, for a mini-batch of at least three observations and a
    robustifier, replaces the sums over the batch that make up the weight
    and bias gradients by a robust aggregate. */
module LinearRobust {
  import opened Stats
  import opened Outcomes
  import opened LinAlg

  /** A robustifier maps an (n, d) batch to one aggregate per column. It is
      an arbitrary function here; `PerColumn` is what backward relies on. */
  type Robustifier = seq<seq<real>> -> seq<real>

  ghost predicate PerColumn(rob: Robustifier) {
    forall m :: IsBatch(m) ==> |rob(m)| == Width(m)
  }

  /** forward: y = x.dot(W.T), plus b on every row when a bias is given. */
  function Forward(x: seq<seq<real>>, W: seq<seq<real>>, b: Option<seq<real>>, d: nat): (y: seq<seq<real>>)
    requires IsMatrix(x, d) && IsMatrix(W, d)
    requires b.Some? ==> |b.value| == |W|
    ensures |y| == |x| && IsMatrix(y, |W|)
  {
    var xw := MulT(x, W, d);
    match b
    case None => xw
    case Some(bias) => AddMat(xw, Broadcast(bias, |x|))
  }

  /** The gradients backward returns; a component is present exactly when
      its input index (0 for x, 1 for W, 2 for b) was requested. */
  datatype Grads = Grads(
    gx: Option<seq<seq<real>>>,
    gW: Option<seq<seq<real>>>,
    gb: Option<seq<real>>)

  /** `n < 3 or self.robustifier is None`: the plain sums are used. */
  predicate PlainPath(n: nat, rob: Option<Robustifier>) {
    n < 3 || rob.None?
  }

  /** The shapes backward works with: x is (n, d), W is (k, d), gy is (n, k). */
  predicate Shapes(x: seq<seq<real>>, W: seq<seq<real>>, d: nat, gy: seq<seq<real>>) {
    |x| == |gy| && IsMatrix(x, d) && IsMatrix(W, d) && IsMatrix(gy, |W|)
  }

  /** x * gy[:, [i]]: observation s of x weighted by gy[s][i]. */
  function GradsW(x: seq<seq<real>>, gy: seq<seq<real>>, i: nat): (m: seq<seq<real>>)
    requires |x| == |gy| && forall s :: 0 <= s < |gy| ==> i < |gy[s]|
    ensures |m| == |x| && forall s :: 0 <= s < |x| ==> |m[s]| == |x[s]|
  {
    seq(|x|, s requires 0 <= s < |x| =>
      seq(|x[s]|, j requires 0 <= j < |x[s]| => x[s][j] * gy[s][i]))
  }

  /** m multiplied by the batch size n when nfactor is set. */
  function Boost(m: seq<seq<real>>, n: nat, nfactor: bool): (r: seq<seq<real>>)
    ensures |r| == |m| && forall s :: 0 <= s < |m| ==> |r[s]| == |m[s]|
  {
    if nfactor then AffineMat(m, n as real, 0.0) else m
  }

  /** The gradient with respect to W, of shape (k, d). */
  function WeightGrad(x: seq<seq<real>>, W: seq<seq<real>>, d: nat, gy: seq<seq<real>>,
                      rob: Option<Robustifier>, nfactor: bool): (gW: seq<seq<real>>)
    requires Shapes(x, W, d, gy)
    requires rob.Some? ==> PerColumn(rob.value)
    ensures |gW| == |W| && IsMatrix(gW, d)
  {
    var n, k := |gy|, |W|;
    if PlainPath(n, rob) then TMul(gy, x, k, d)
    else
      assert forall i :: 0 <= i < k ==> IsBatch(Boost(GradsW(x, gy, i), n, nfactor));
      seq(k, i requires 0 <= i < k => rob.value(Boost(GradsW(x, gy, i), n, nfactor)))
  }

  /** The gradient with respect to b, of shape (k,): one robustifier call on
      the whole of gy (times n when nfactor is set), not one per output. */
  function BiasGrad(gy: seq<seq<real>>, k: nat, rob: Option<Robustifier>, nfactor: bool): (gb: seq<real>)
    requires IsMatrix(gy, k)
    requires rob.Some? ==> PerColumn(rob.value)
    ensures |gb| == k
  {
    var n := |gy|;
    if PlainPath(n, rob) then ColumnSums(gy, k)
    else
      assert IsBatch(Boost(gy, n, nfactor));
      rob.value(Boost(gy, n, nfactor))
  }

  /** backward(indices, (gy,)): gy @ W for x, and the weight and bias
      gradients above, each computed only when its index is requested. */
  function Backward(x: seq<seq<real>>, W: seq<seq<real>>, d: nat, gy: seq<seq<real>>,
                    rob: Option<Robustifier>, nfactor: bool, indices: set<nat>): (g: Grads)
    requires Shapes(x, W, d, gy)
    requires rob.Some? ==> PerColumn(rob.value)
    ensures g.gx.Some? <==> 0 in indices
    ensures g.gW.Some? <==> 1 in indices
    ensures g.gb.Some? <==> 2 in indices
    ensures g.gx.Some? ==> |g.gx.value| == |x| && IsMatrix(g.gx.value, d)
    ensures g.gW.Some? ==> |g.gW.value| == |W| && IsMatrix(g.gW.value, d)
    ensures g.gb.Some? ==> |g.gb.value| == |W|
  {
    Grads(
      if 0 in indices then Some(Mul(gy, W, d)) else None,
      if 1 in indices then Some(WeightGrad(x, W, d, gy, rob, nfactor)) else None,
      if 2 in indices then Some(BiasGrad(gy, |W|, rob, nfactor)) else None)
  }

  // ---- properties ----

  /** Forward adds the bias to every row of x W^T. */
  lemma ForwardBias(x: seq<seq<real>>, W: seq<seq<real>>, b: seq<real>, d: nat, s: nat, i: nat)
    requires IsMatrix(x, d) && IsMatrix(W, d) && |b| == |W|
    requires s < |x| && i < |W|
    ensures Forward(x, W, Some(b), d)[s][i] == Forward(x, W, None, d)[s][i] + b[i]
  {
  }

  /** On the plain path backward returns the exact gradients of the forward
      map: for every gy, <gy, x W^T> == <gx, x> == <gW, W> and
      <gy, 1 b^T> == <gb, b>. */
  lemma PlainBackwardIsGradient(x: seq<seq<real>>, W: seq<seq<real>>, b: seq<real>, d: nat,
                                gy: seq<seq<real>>, rob: Option<Robustifier>, nfactor: bool)
    requires Shapes(x, W, d, gy) && |b| == |W|
    requires rob.Some? ==> PerColumn(rob.value)
    requires PlainPath(|gy|, rob)
    ensures var g := Backward(x, W, d, gy, rob, nfactor, {0, 1, 2});
      && SameShape(gy, Forward(x, W, None, d))
      && SameShape(g.gx.value, x) && SameShape(g.gW.value, W)
      && Frob(gy, Forward(x, W, None, d)) == Frob(g.gx.value, x)
      && Frob(gy, Forward(x, W, None, d)) == Frob(g.gW.value, W)
      && Frob(gy, Broadcast(b, |gy|)) == Dot(g.gb.value, b)
  {
    AdjointInput(gy, x, W, d);
    AdjointWeights(gy, x, W, d);
    AdjointBias(gy, b);
  }

  /** gx == gy @ W whatever the robustifier and nfactor. */
  lemma InputGradIgnoresRobustifier(x: seq<seq<real>>, W: seq<seq<real>>, d: nat, gy: seq<seq<real>>,
                                    rob: Option<Robustifier>, nfactor: bool,
                                    rob': Option<Robustifier>, nfactor': bool, indices: set<nat>)
    requires Shapes(x, W, d, gy)
    requires rob.Some? ==> PerColumn(rob.value)
    requires rob'.Some? ==> PerColumn(rob'.value)
    ensures Backward(x, W, d, gy, rob, nfactor, indices).gx == Backward(x, W, d, gy, rob', nfactor', indices).gx
  {
  }

  /** With fewer than three observations the robustifier and nfactor are
      ignored: backward is the plain backward. */
  lemma SmallBatchIsPlain(x: seq<seq<real>>, W: seq<seq<real>>, d: nat, gy: seq<seq<real>>,
                          rob: Option<Robustifier>, nfactor: bool, indices: set<nat>)
    requires Shapes(x, W, d, gy) && |gy| < 3
    requires rob.Some? ==> PerColumn(rob.value)
    ensures Backward(x, W, d, gy, rob, nfactor, indices) == Backward(x, W, d, gy, None, false, indices)
  {
  }

  /** Row i of the weight gradient depends on gy only through column i of
      gy, on either path. */
  lemma WeightRowUsesOneColumn(x: seq<seq<real>>, W: seq<seq<real>>, d: nat,
                               gy: seq<seq<real>>, gy': seq<seq<real>>,
                               rob: Option<Robustifier>, nfactor: bool, i: nat)
    requires Shapes(x, W, d, gy) && Shapes(x, W, d, gy')
    requires rob.Some? ==> PerColumn(rob.value)
    requires i < |W| && Column(gy, i) == Column(gy', i)
    ensures WeightGrad(x, W, d, gy, rob, nfactor)[i] == WeightGrad(x, W, d, gy', rob, nfactor)[i]
  {
    if !PlainPath(|gy|, rob) {
      var m, m' := GradsW(x, gy, i), GradsW(x, gy', i);
      forall s | 0 <= s < |x| ensures m[s] == m'[s] {
        assert gy[s][i] == Column(gy, i)[s] == Column(gy', i)[s] == gy'[s][i];
      }
      assert m == m';
    }
  }

  lemma ScaledProduct(a: real, g: real, n: real)
    ensures a * (n * g) == n * (a * g)
  {
  }

  /** Setting nfactor is the same as robustifying n * gy without it: the
      inputs of every robustifier call are multiplied by the batch size. */
  lemma NfactorScalesGy(x: seq<seq<real>>, W: seq<seq<real>>, d: nat, gy: seq<seq<real>>,
                        rob: Robustifier)
    requires Shapes(x, W, d, gy) && PerColumn(rob) && |gy| >= 3
    ensures Shapes(x, W, d, AffineMat(gy, |gy| as real, 0.0))
    ensures WeightGrad(x, W, d, gy, Some(rob), true)
      == WeightGrad(x, W, d, AffineMat(gy, |gy| as real, 0.0), Some(rob), false)
    ensures BiasGrad(gy, |W|, Some(rob), true)
      == BiasGrad(AffineMat(gy, |gy| as real, 0.0), |W|, Some(rob), false)
  {
    var n, k := |gy|, |W|;
    var gy' := AffineMat(gy, n as real, 0.0);
    var l, r := WeightGrad(x, W, d, gy, Some(rob), true), WeightGrad(x, W, d, gy', Some(rob), false);
    forall i | 0 <= i < k ensures l[i] == r[i] {
      RobustWeightRow(x, W, d, gy, rob, true, i);
      RobustWeightRow(x, W, d, gy', rob, false, i);
      BoostedGradsW(x, d, gy, i);
    }
    assert l == r;
  }

  /** Off the plain path, row i of the weight gradient is one robustifier
      call on the boosted per-sample gradients of that row. */
  lemma RobustWeightRow(x: seq<seq<real>>, W: seq<seq<real>>, d: nat, gy: seq<seq<real>>,
                        rob: Robustifier, nfactor: bool, i: nat)
    requires Shapes(x, W, d, gy) && PerColumn(rob) && |gy| >= 3 && i < |W|
    ensures WeightGrad(x, W, d, gy, Some(rob), nfactor)[i]
      == rob(Boost(GradsW(x, gy, i), |gy|, nfactor))
  {
  }

  /** Multiplying the per-sample gradients by n is the same as computing them
      from n * gy. */
  lemma BoostedGradsW(x: seq<seq<real>>, d: nat, gy: seq<seq<real>>, i: nat)
    requires |x| == |gy| && IsMatrix(x, d) && forall s :: 0 <= s < |gy| ==> i < |gy[s]|
    ensures Boost(GradsW(x, gy, i), |gy|, true) == Boost(GradsW(x, AffineMat(gy, |gy| as real, 0.0), i), |gy|, false)
  {
    var n := |gy|;
    var gy' := AffineMat(gy, n as real, 0.0);
    var l, r := Boost(GradsW(x, gy, i), n, true), GradsW(x, gy', i);
    forall s | 0 <= s < n ensures l[s] == r[s] {
      forall j | 0 <= j < d ensures l[s][j] == r[s][j] {
        assert gy'[s][i] == n as real * gy[s][i] + 0.0;
        ScaledProduct(x[s][j], gy[s][i], n as real);
        assert l[s][j] == n as real * (x[s][j] * gy[s][i]) + 0.0;
      }
    }
    assert l == r;
  }

  // ---- the sample mean as robustifier ----

  /** The column means of a batch (and nothing for anything else). */
  function ColumnMeans(m: seq<seq<real>>): (r: seq<real>)
    ensures IsBatch(m) ==> |r| == Width(m)
  {
    if IsBatch(m) then seq(Width(m), j requires 0 <= j < Width(m) => Mean(Column(m, j))) else []
  }

  lemma ColumnMeansPerColumn()
    ensures PerColumn(ColumnMeans)
  {
  }

  lemma MeanTimesCount(s: seq<real>, t: seq<real>)
    requires |s| == |t| > 0
    requires forall i :: 0 <= i < |s| ==> t[i] == |s| as real * s[i]
    ensures Mean(t) == Sum(s)
  {
    MeanScaled(s, t, |s| as real);
    var n := |s| as real;
    assert n * (Sum(s) / n) == Sum(s);
  }

  lemma GradsWColumn(x: seq<seq<real>>, W: seq<seq<real>>, d: nat, gy: seq<seq<real>>, i: nat, j: nat)
    requires Shapes(x, W, d, gy) && i < |W| && j < d
    ensures Column(GradsW(x, gy, i), j) == Hadamard(Column(gy, i), Column(x, j))
  {
    var l, r := Column(GradsW(x, gy, i), j), Hadamard(Column(gy, i), Column(x, j));
    forall s | 0 <= s < |x| ensures l[s] == r[s] {
      assert l[s] == x[s][j] * gy[s][i];
    }
    assert l == r;
  }

  /** With the column mean as robustifier and nfactor set, the robust path
      reproduces the plain sums exactly: n * mean == sum. */
  lemma MeanRobustifierIsPlain(x: seq<seq<real>>, W: seq<seq<real>>, d: nat, gy: seq<seq<real>>,
                               indices: set<nat>)
    requires Shapes(x, W, d, gy)
    ensures PerColumn(ColumnMeans)
    ensures Backward(x, W, d, gy, Some(ColumnMeans), true, indices) == Backward(x, W, d, gy, None, false, indices)
  {
    var n, k := |gy|, |W|;
    if n >= 3 {
      var l, r := WeightGrad(x, W, d, gy, Some(ColumnMeans), true), TMul(gy, x, k, d);
      forall i | 0 <= i < k ensures l[i] == r[i] {
        var g := GradsW(x, gy, i);
        var m := Boost(g, n, true);
        assert IsBatch(g) && Width(g) == d;
        forall j | 0 <= j < d ensures l[i][j] == r[i][j] {
          AffineColumn(g, n as real, 0.0, j);
          MeanTimesCount(Column(g, j), Column(m, j));
          GradsWColumn(x, W, d, gy, i, j);
        }
      }
      assert l == r;
      var lb, rb := BiasGrad(gy, k, Some(ColumnMeans), true), ColumnSums(gy, k);
      forall i | 0 <= i < k ensures lb[i] == rb[i] {
        AffineColumn(gy, n as real, 0.0, i);
        MeanTimesCount(Column(gy, i), Column(AffineMat(gy, n as real, 0.0), i));
      }
      assert lb == rb;
    }
  }
}
