/** The influence function of Catoni and Giulini (2017), psi_fn in
    chainrob/helpers.py: the cubic u - u^3/6 on [-sqrt 2, sqrt 2] and the
    constant sign(u) * 2 sqrt(2) / 3 outside it. */
module Influence {
  import opened Numerics

  /** 2 sqrt(2) / 3, the value psi saturates at. */
  function Cap(e: Env): real {
    2.0 * R2(e) / 3.0
  }

  /** The cubic branch. */
  function Cubic(u: real): real {
    u - u * u * u / 6.0
  }

  /** psi_fn: the cap is taken only when |u| > sqrt(2) strictly, so the
      points +-sqrt(2) themselves go through the cubic. */
  function Psi(e: Env, u: real): real {
    if Abs(u) > R2(e) then Sign(u) * 2.0 * R2(e) / 3.0 else Cubic(u)
  }

  // ---- facts about the cubic on [-r, r] where r * r == 2 ----

  /** Cap - Cubic(u) == (u - r)^2 (u + 2r) / 6 and
      Cubic(u) + Cap == (u + r)^2 (2r - u) / 6. */
  lemma CubicWithinCap(r: real, u: real)
    requires 0.0 < r && r * r == 2.0
    requires -r <= u <= r
    ensures -(2.0 * r / 3.0) <= Cubic(u) <= 2.0 * r / 3.0
  {
    var p := (u - r) * (u - r);
    var q := (u + r) * (u + r);
    assert r * r * r == 2.0 * r;
    assert 6.0 * (2.0 * r / 3.0 - Cubic(u)) == p * (u + 2.0 * r);
    assert 6.0 * (Cubic(u) + 2.0 * r / 3.0) == q * (2.0 * r - u);
    ProductNonneg(u - r, u - r);
    ProductNonneg(u + r, u + r);
    ProductNonneg(p, u + 2.0 * r);
    ProductNonneg(q, 2.0 * r - u);
  }

  lemma ProductNonneg(a: real, b: real)
    requires (0.0 <= a && 0.0 <= b) || a == b
    ensures 0.0 <= a * b
  {
  }

  lemma ProductPositive(a: real, b: real)
    requires 0.0 < a && 0.0 < b
    ensures 0.0 < a * b
  {
  }

  lemma SquareWithin(r: real, u: real)
    requires 0.0 < r && -r <= u <= r
    ensures u * u <= r * r
  {
    ProductNonneg(r - u, r + u);
    assert (r - u) * (r + u) == r * r - u * u;
  }

  lemma CubicOdd(u: real)
    ensures Cubic(-u) == -Cubic(u)
  {
    assert (-u) * (-u) * (-u) == -(u * u * u);
  }

  /** The cubic meets the cap at +-r. */
  lemma CubicAtR(r: real)
    requires r * r == 2.0
    ensures Cubic(r) == 2.0 * r / 3.0 && Cubic(-r) == -(2.0 * r / 3.0)
  {
    assert r * r * r == 2.0 * r;
  }

  /** Cubic(v) - Cubic(u) == (v - u)(1 - (u^2 + uv + v^2)/6), and on [-r, r]
      the second factor lies in [0, 1]. */
  lemma CubicSlope(r: real, u: real, v: real)
    requires 0.0 < r && r * r == 2.0
    requires -r <= u <= v <= r
    ensures 0.0 <= Cubic(v) - Cubic(u) <= v - u
  {
    var w := u * u + u * v + v * v;
    CubicDifference(u, v, w);
    QuadraticWithin(r, u, v, w);
    var f := 1.0 - w / 6.0;
    ProductNonneg(v - u, f);
    ProductNonneg(v - u, w / 6.0);
    assert (v - u) * f == (v - u) - (v - u) * (w / 6.0);
  }

  lemma CubicDifference(u: real, v: real, w: real)
    requires w == u * u + u * v + v * v
    ensures Cubic(v) - Cubic(u) == (v - u) * (1.0 - w / 6.0)
  {
    assert v * v * v - u * u * u == (v - u) * w;
  }

  lemma QuadraticWithin(r: real, u: real, v: real, w: real)
    requires 0.0 < r && r * r == 2.0
    requires -r <= u <= r && -r <= v <= r
    requires w == u * u + u * v + v * v
    ensures 0.0 <= w <= 6.0
  {
    ProductNonneg(u + v, u + v);
    ProductNonneg(u - v, u - v);
    ProductNonneg(u, u);
    ProductNonneg(v, v);
    assert 2.0 * w == u * u + v * v + (u + v) * (u + v);
    SquareWithin(r, u);
    SquareWithin(r, v);
    assert (u - v) * (u - v) == u * u - 2.0 * (u * v) + v * v;
  }

  // ---- properties of psi ----

  /** u clamped to [-r, r]. */
  function Clamp(u: real, r: real): real {
    if u > r then r else if u < -r then -r else u
  }

  /** psi is the cubic evaluated at u clamped to [-sqrt 2, sqrt 2]: the two
      branches agree at +-sqrt(2), so psi is continuous there. */
  lemma PsiIsClampedCubic(e: Env, u: real)
    requires Valid(e)
    ensures Psi(e, u) == Cubic(Clamp(u, R2(e)))
  {
    R2Facts(e);
    CubicAtR(R2(e));
  }

  /** psi(-u) == -psi(u). */
  lemma PsiOdd(e: Env, u: real)
    ensures Psi(e, -u) == -Psi(e, u)
  {
  }

  /** |psi(u)| <= 2 sqrt(2) / 3 for every u. */
  lemma PsiBounded(e: Env, u: real)
    requires Valid(e)
    ensures -Cap(e) <= Psi(e, u) <= Cap(e)
  {
    R2Facts(e);
    PsiIsClampedCubic(e, u);
    CubicWithinCap(R2(e), Clamp(u, R2(e)));
  }

  /** For |u| >= sqrt(2), psi(u) is exactly sign(u) 2 sqrt(2) / 3; at
      |u| == sqrt(2) this comes from the cubic branch. */
  lemma PsiSaturates(e: Env, u: real)
    requires Valid(e) && R2(e) <= Abs(u)
    ensures Psi(e, u) == Sign(u) * Cap(e)
  {
    R2Facts(e);
    CubicAtR(R2(e));
  }

  /** psi(u) has the sign of u; in particular psi(0) == 0. */
  lemma PsiSign(e: Env, u: real)
    requires Valid(e)
    ensures u > 0.0 ==> Psi(e, u) > 0.0
    ensures u < 0.0 ==> Psi(e, u) < 0.0
    ensures u == 0.0 ==> Psi(e, u) == 0.0
  {
    var r := R2(e);
    R2Facts(e);
    if 0.0 < Abs(u) <= r {
      SquareWithin(r, u);
      assert Cubic(u) == u * (1.0 - u * u / 6.0);
      assert u * u <= 2.0;
      assert 1.0 - u * u / 6.0 > 0.0;
      if u > 0.0 {
        ProductPositive(u, 1.0 - u * u / 6.0);
      } else {
        ProductPositive(-u, 1.0 - u * u / 6.0);
        assert -u * (1.0 - u * u / 6.0) == -(u * (1.0 - u * u / 6.0));
      }
    }
  }

  /** psi is non-decreasing and 1-Lipschitz: for u <= v,
      0 <= psi(v) - psi(u) <= v - u. */
  lemma PsiSlope(e: Env, u: real, v: real)
    requires Valid(e) && u <= v
    ensures 0.0 <= Psi(e, v) - Psi(e, u) <= v - u
  {
    var r := R2(e);
    R2Facts(e);
    PsiIsClampedCubic(e, u);
    PsiIsClampedCubic(e, v);
    CubicSlope(r, Clamp(u, r), Clamp(v, r));
  }

  /** Cap - Cubic(u) == (u - r)^2 (u + 2r) / 6 when r * r == 2. */
  lemma CapMinusCubic(r: real, u: real)
    requires r * r == 2.0
    ensures 2.0 * r / 3.0 - Cubic(u) == (u - r) * (u - r) * (u + 2.0 * r) / 6.0
  {
    assert r * r * r == 2.0 * r;
  }

  /** psi is differentiable at sqrt(2) with slope 0, matching the cap: for
      every u >= -sqrt(2), 0 <= Cap - psi(u) <= (u - sqrt 2)^2 sqrt(2) / 2,
      a gap that vanishes to second order at sqrt(2). */
  lemma PsiFlatAtR(e: Env, u: real)
    requires Valid(e) && -R2(e) <= u
    ensures 0.0 <= Cap(e) - Psi(e, u) <= (u - R2(e)) * (u - R2(e)) * R2(e) / 2.0
  {
    var r := R2(e);
    R2Facts(e);
    var p := (u - r) * (u - r);
    ProductNonneg(u - r, u - r);
    ProductNonneg(p, r);
    if u <= r {
      CapMinusCubic(r, u);
      ProductNonneg(p, u + 2.0 * r);
      ProductNonneg(p, r - u);
      assert p * (u + 2.0 * r) / 6.0 <= p * r / 2.0 by {
        assert p * r / 2.0 - p * (u + 2.0 * r) / 6.0 == p * (r - u) / 6.0;
      }
    }
  }

  /** The mirror image at -sqrt(2), by oddness: for every u <= sqrt(2),
      0 <= psi(u) + Cap <= (u + sqrt 2)^2 sqrt(2) / 2. */
  lemma PsiFlatAtMinusR(e: Env, u: real)
    requires Valid(e) && u <= R2(e)
    ensures 0.0 <= Psi(e, u) + Cap(e) <= (u + R2(e)) * (u + R2(e)) * R2(e) / 2.0
  {
    PsiFlatAtR(e, -u);
    PsiOdd(e, u);
    assert (-u - R2(e)) * (-u - R2(e)) == (u + R2(e)) * (u + R2(e));
  }
}
