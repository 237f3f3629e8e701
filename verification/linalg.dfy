/** The matrix products of the linear layer (x.dot(W.T), gy @ W, gy.T @ x,
    the column sums of gy) and the identities that make gy @ W, gy.T @ x
    and the column sums the gradients of the forward map. */
module LinAlg {
  import opened Stats

  /** u * v, entrywise. */
  function Hadamard(u: seq<real>, v: seq<real>): (w: seq<real>)
    requires |u| == |v|
    ensures |w| == |u|
  {
    seq(|u|, i requires 0 <= i < |u| => u[i] * v[i])
  }

  function Dot(u: seq<real>, v: seq<real>): real
    requires |u| == |v|
  {
    Sum(Hadamard(u, v))
  }

  /** Entry i is the dot product of v with row i of W (W v). */
  function MatVec(W: seq<seq<real>>, v: seq<real>): (r: seq<real>)
    requires IsMatrix(W, |v|)
    ensures |r| == |W|
  {
    seq(|W|, i requires 0 <= i < |W| => Dot(v, W[i]))
  }

  /** Entry j is the dot product of u with column j of W (u W). */
  function VecMat(u: seq<real>, W: seq<seq<real>>, d: nat): (r: seq<real>)
    requires |u| == |W| && IsMatrix(W, d)
    ensures |r| == d
  {
    seq(d, j requires 0 <= j < d => Dot(u, Column(W, j)))
  }

  /** x.dot(W.T) for x of shape (n, d) and W of shape (k, d). */
  function MulT(x: seq<seq<real>>, W: seq<seq<real>>, d: nat): (y: seq<seq<real>>)
    requires IsMatrix(x, d) && IsMatrix(W, d)
    ensures |y| == |x| && IsMatrix(y, |W|)
  {
    seq(|x|, s requires 0 <= s < |x| => MatVec(W, x[s]))
  }

  /** gy @ W for gy of shape (n, k) and W of shape (k, d). */
  function Mul(gy: seq<seq<real>>, W: seq<seq<real>>, d: nat): (g: seq<seq<real>>)
    requires IsMatrix(gy, |W|) && IsMatrix(W, d)
    ensures |g| == |gy| && IsMatrix(g, d)
  {
    seq(|gy|, s requires 0 <= s < |gy| => VecMat(gy[s], W, d))
  }

  /** gy.T @ x for gy of shape (n, k) and x of shape (n, d). */
  function TMul(gy: seq<seq<real>>, x: seq<seq<real>>, k: nat, d: nat): (g: seq<seq<real>>)
    requires |gy| == |x| && IsMatrix(gy, k) && IsMatrix(x, d)
    ensures |g| == k && IsMatrix(g, d)
  {
    seq(k, i requires 0 <= i < k =>
      seq(d, j requires 0 <= j < d => Dot(Column(gy, i), Column(x, j))))
  }

  /** sum(gy, axis=0) for gy of shape (n, k). */
  function ColumnSums(gy: seq<seq<real>>, k: nat): (g: seq<real>)
    requires IsMatrix(gy, k)
    ensures |g| == k
  {
    seq(k, i requires 0 <= i < k => Sum(Column(gy, i)))
  }

  /** b repeated as each of n rows (numpy broadcasting of a bias). */
  function Broadcast(b: seq<real>, n: nat): (y: seq<seq<real>>)
    ensures |y| == n && IsMatrix(y, |b|)
  {
    seq(n, s requires 0 <= s < n => b)
  }

  /** Entrywise sum of two matrices of the same shape. */
  function AddMat(a: seq<seq<real>>, b: seq<seq<real>>): (c: seq<seq<real>>)
    requires |a| == |b| && forall r :: 0 <= r < |a| ==> |a[r]| == |b[r]|
    ensures |c| == |a| && forall r :: 0 <= r < |a| ==> c[r] == AddVec(a[r], b[r])
  {
    seq(|a|, r requires 0 <= r < |a| => AddVec(a[r], b[r]))
  }

  /** Same shape, row by row. */
  predicate SameShape(a: seq<seq<real>>, b: seq<seq<real>>) {
    |a| == |b| && forall r :: 0 <= r < |a| ==> |a[r]| == |b[r]|
  }

  /** The Frobenius inner product: the sum of a * b over all entries. */
  function Frob(a: seq<seq<real>>, b: seq<seq<real>>): real
    requires SameShape(a, b)
  {
    Sum(seq(|a|, r requires 0 <= r < |a| => Dot(a[r], b[r])))
  }

  // ---- dot products ----

  lemma SumZero(s: seq<real>)
    requires forall i :: 0 <= i < |s| ==> s[i] == 0.0
    ensures Sum(s) == 0.0
  {
    SumAffine(s, s, 0.0, 0.0);
  }

  lemma DotCons(u: seq<real>, v: seq<real>)
    requires |u| == |v| > 0
    ensures Dot(u, v) == u[0] * v[0] + Dot(u[1..], v[1..])
  {
    var h, h' := Hadamard(u, v)[1..], Hadamard(u[1..], v[1..]);
    forall i | 0 <= i < |h'| ensures h[i] == h'[i] {
      assert h[i] == u[i + 1] * v[i + 1];
    }
    assert h == h';
  }

  lemma DotCommutes(u: seq<real>, v: seq<real>)
    requires |u| == |v|
    ensures Dot(u, v) == Dot(v, u)
  {
    assert Hadamard(u, v) == Hadamard(v, u);
  }

  lemma DotAdd(a: seq<real>, b: seq<real>, v: seq<real>)
    requires |a| == |b| == |v|
    ensures Dot(AddVec(a, b), v) == Dot(a, v) + Dot(b, v)
  {
    var l, r := Hadamard(AddVec(a, b), v), AddVec(Hadamard(a, v), Hadamard(b, v));
    forall i | 0 <= i < |v| ensures l[i] == r[i] {
      assert (a[i] + b[i]) * v[i] == a[i] * v[i] + b[i] * v[i];
    }
    assert l == r;
    SumAdd(Hadamard(a, v), Hadamard(b, v));
  }

  lemma DotScale(c: real, w: seq<real>, v: seq<real>)
    requires |w| == |v|
    ensures Dot(AffineVec(w, c, 0.0), v) == c * Dot(w, v)
  {
    var h, h' := Hadamard(w, v), Hadamard(AffineVec(w, c, 0.0), v);
    forall i | 0 <= i < |v| ensures h'[i] == c * h[i] + 0.0 {
      assert (c * w[i] + 0.0) * v[i] == c * (w[i] * v[i]);
    }
    SumAffine(h, h', c, 0.0);
  }

  lemma DotZero(u: seq<real>, v: seq<real>)
    requires |u| == |v|
    requires forall i :: 0 <= i < |u| ==> u[i] == 0.0
    ensures Dot(u, v) == 0.0
  {
    SumZero(Hadamard(u, v));
  }

  // ---- u (W v) == (u W) v ----

  lemma ColumnTail(W: seq<seq<real>>, d: nat, j: nat)
    requires |W| > 0 && IsMatrix(W, d) && j < d
    ensures Column(W, j)[1..] == Column(W[1..], j)
  {
  }

  /** The bilinear form u W v can be evaluated as u (W v) or as (u W) v. */
  lemma {:induction false} BilinearSwap(u: seq<real>, W: seq<seq<real>>, v: seq<real>)
    requires |u| == |W| && IsMatrix(W, |v|)
    ensures Dot(u, MatVec(W, v)) == Dot(VecMat(u, W, |v|), v)
  {
    var d := |v|;
    if |u| == 0 {
      DotZero(VecMat(u, W, d), v);
    } else {
      var u', W' := u[1..], W[1..];
      BilinearSwap(u', W', v);
      DotCons(u, MatVec(W, v));
      assert MatVec(W, v)[1..] == MatVec(W', v);
      var head := AffineVec(W[0], u[0], 0.0);
      var split := AddVec(head, VecMat(u', W', d));
      forall j | 0 <= j < d ensures VecMat(u, W, d)[j] == split[j] {
        DotCons(u, Column(W, j));
        ColumnTail(W, d, j);
      }
      assert VecMat(u, W, d) == split;
      DotAdd(head, VecMat(u', W', d), v);
      DotScale(u[0], W[0], v);
      DotCommutes(v, W[0]);
    }
  }

  /** <gy, x W^T> == <gy W, x>: gy @ W is the gradient of the forward map
      with respect to x. */
  lemma AdjointInput(gy: seq<seq<real>>, x: seq<seq<real>>, W: seq<seq<real>>, d: nat)
    requires |gy| == |x| && IsMatrix(gy, |W|) && IsMatrix(x, d) && IsMatrix(W, d)
    ensures SameShape(gy, MulT(x, W, d)) && SameShape(Mul(gy, W, d), x)
    ensures Frob(gy, MulT(x, W, d)) == Frob(Mul(gy, W, d), x)
  {
    var y, g := MulT(x, W, d), Mul(gy, W, d);
    var l := seq(|gy|, r requires 0 <= r < |gy| => Dot(gy[r], y[r]));
    var rr := seq(|g|, r requires 0 <= r < |g| => Dot(g[r], x[r]));
    forall s | 0 <= s < |gy| ensures l[s] == rr[s] {
      BilinearSwap(gy[s], W, x[s]);
    }
    assert l == rr;
  }

  // ---- sum_s gy[s] x[s]^T, one observation at a time ----

  /** a b^T: row i is a[i] * b. */
  function Outer(a: seq<real>, b: seq<real>): (m: seq<seq<real>>)
    ensures |m| == |a| && IsMatrix(m, |b|)
  {
    seq(|a|, i requires 0 <= i < |a| => AffineVec(b, a[i], 0.0))
  }

  lemma FrobAdd(a: seq<seq<real>>, b: seq<seq<real>>, w: seq<seq<real>>)
    requires SameShape(a, b) && SameShape(a, w)
    ensures SameShape(AddMat(a, b), w)
    ensures Frob(AddMat(a, b), w) == Frob(a, w) + Frob(b, w)
  {
    var c := AddMat(a, b);
    var fa := seq(|a|, r requires 0 <= r < |a| => Dot(a[r], w[r]));
    var fb := seq(|b|, r requires 0 <= r < |b| => Dot(b[r], w[r]));
    var fc := seq(|c|, r requires 0 <= r < |c| => Dot(c[r], w[r]));
    forall r | 0 <= r < |a| ensures fc[r] == AddVec(fa, fb)[r] {
      DotAdd(a[r], b[r], w[r]);
    }
    assert fc == AddVec(fa, fb);
    SumAdd(fa, fb);
  }

  lemma FrobOuter(a: seq<real>, b: seq<real>, W: seq<seq<real>>)
    requires |a| == |W| && IsMatrix(W, |b|)
    ensures SameShape(Outer(a, b), W)
    ensures Frob(Outer(a, b), W) == Dot(a, MatVec(W, b))
  {
    var o := Outer(a, b);
    var f := seq(|o|, r requires 0 <= r < |o| => Dot(o[r], W[r]));
    forall i | 0 <= i < |a| ensures f[i] == Hadamard(a, MatVec(W, b))[i] {
      DotScale(a[i], b, W[i]);
    }
    assert f == Hadamard(a, MatVec(W, b));
  }

  lemma FrobZero(a: seq<seq<real>>, w: seq<seq<real>>)
    requires SameShape(a, w)
    requires forall r, j :: 0 <= r < |a| && 0 <= j < |a[r]| ==> a[r][j] == 0.0
    ensures Frob(a, w) == 0.0
  {
    var f := seq(|a|, r requires 0 <= r < |a| => Dot(a[r], w[r]));
    forall r | 0 <= r < |a| ensures f[r] == 0.0 {
      DotZero(a[r], w[r]);
    }
    SumZero(f);
  }

  lemma FrobCons(a: seq<seq<real>>, b: seq<seq<real>>)
    requires SameShape(a, b) && |a| > 0
    ensures Frob(a, b) == Dot(a[0], b[0]) + Frob(a[1..], b[1..])
  {
    var f := seq(|a|, r requires 0 <= r < |a| => Dot(a[r], b[r]));
    assert f[1..] == seq(|a| - 1, r requires 0 <= r < |a| - 1 => Dot(a[1..][r], b[1..][r]));
  }

  /** gy.T @ x is the first observation's outer product plus that of the
      rest. */
  lemma TMulCons(gy: seq<seq<real>>, x: seq<seq<real>>, k: nat, d: nat)
    requires |gy| == |x| > 0 && IsMatrix(gy, k) && IsMatrix(x, d)
    ensures TMul(gy, x, k, d) == AddMat(Outer(gy[0], x[0]), TMul(gy[1..], x[1..], k, d))
  {
    var t, o, t' := TMul(gy, x, k, d), Outer(gy[0], x[0]), TMul(gy[1..], x[1..], k, d);
    var r := AddMat(o, t');
    forall i | 0 <= i < k ensures t[i] == r[i] {
      forall j | 0 <= j < d ensures t[i][j] == r[i][j] {
        DotCons(Column(gy, i), Column(x, j));
        assert Column(gy, i)[1..] == Column(gy[1..], i);
        assert Column(x, j)[1..] == Column(x[1..], j);
      }
    }
  }

  /** <gy, x W^T> == <gy^T x, W>: gy.T @ x is the gradient of the forward
      map with respect to W. */
  lemma {:induction false} AdjointWeights(gy: seq<seq<real>>, x: seq<seq<real>>, W: seq<seq<real>>, d: nat)
    requires |gy| == |x| && IsMatrix(gy, |W|) && IsMatrix(x, d) && IsMatrix(W, d)
    ensures SameShape(gy, MulT(x, W, d)) && SameShape(TMul(gy, x, |W|, d), W)
    ensures Frob(gy, MulT(x, W, d)) == Frob(TMul(gy, x, |W|, d), W)
  {
    var k := |W|;
    var t := TMul(gy, x, k, d);
    if |gy| == 0 {
      FrobZero(gy, MulT(x, W, d));
      forall i, j | 0 <= i < k && 0 <= j < d ensures t[i][j] == 0.0 {
        DotZero(Column(gy, i), Column(x, j));
      }
      FrobZero(t, W);
    } else {
      var y := MulT(x, W, d);
      AdjointWeights(gy[1..], x[1..], W, d);
      FrobCons(gy, y);
      assert y[1..] == MulT(x[1..], W, d);
      TMulCons(gy, x, k, d);
      FrobAdd(Outer(gy[0], x[0]), TMul(gy[1..], x[1..], k, d), W);
      FrobOuter(gy[0], x[0], W);
    }
  }

  /** <gy, 1 b^T> == <sum(gy, axis=0), b>: the column sums of gy are the
      gradient of the forward map with respect to the bias. */
  lemma {:induction false} AdjointBias(gy: seq<seq<real>>, b: seq<real>)
    requires IsMatrix(gy, |b|)
    ensures SameShape(gy, Broadcast(b, |gy|))
    ensures Frob(gy, Broadcast(b, |gy|)) == Dot(ColumnSums(gy, |b|), b)
  {
    var k := |b|;
    if |gy| == 0 {
      FrobZero(gy, Broadcast(b, 0));
      forall i | 0 <= i < k ensures ColumnSums(gy, k)[i] == 0.0 {
        SumZero(Column(gy, i));
      }
      DotZero(ColumnSums(gy, k), b);
    } else {
      var gy' := gy[1..];
      AdjointBias(gy', b);
      FrobCons(gy, Broadcast(b, |gy|));
      assert Broadcast(b, |gy|)[1..] == Broadcast(b, |gy'|);
      forall i | 0 <= i < k ensures ColumnSums(gy, k)[i] == AddVec(gy[0], ColumnSums(gy', k))[i] {
        assert Column(gy, i)[1..] == Column(gy', i);
      }
      assert ColumnSums(gy, k) == AddVec(gy[0], ColumnSums(gy', k));
      DotAdd(gy[0], ColumnSums(gy', k), b);
    }
  }
}
