/** Exact-real stand-ins for the library calls the estimators make
    (math.sqrt, math.log, np.exp, math.erf, math.pi), the elementwise numpy
    helpers they use, and the configuration constants of config.py. */
module Numerics {

  /** The transcendental functions are left uninterpreted: an `Env` bundles
      one choice of them, and `Valid` states the only facts the proofs use. */
  datatype Env = Env(
    sqrt: real -> real,
    log: real -> real,
    exp: real -> real,
    erf: real -> real,
    pi: real)

  /** sqrt is positive on the positive reals and squares to 2 at 2, log is
      positive above 1, and pi is positive. */
  ghost predicate Valid(e: Env) {
    && (forall x :: 0.0 < x ==> 0.0 < e.sqrt(x))
    && e.sqrt(2.0) * e.sqrt(2.0) == 2.0
    && (forall x :: 1.0 < x ==> 0.0 < e.log(x))
    && 0.0 < e.pi
  }

  /** math.sqrt(2) */
  function R2(e: Env): real {
    e.sqrt(2.0)
  }

  lemma R2Facts(e: Env)
    requires Valid(e)
    ensures 0.0 < R2(e) && R2(e) * R2(e) == 2.0
  {
  }

  lemma SqrtPositive(e: Env, x: real)
    requires Valid(e) && 0.0 < x
    ensures 0.0 < e.sqrt(x)
  {
  }

  // ---- configuration constants (config.py) ----

  /** LAM_MIN: floor applied to lambda inside the correction term. */
  const LamMin: real := 0.001
  /** SIGMA_MIN: floor applied to lambda * |x| when forming sigma. */
  const SigmaMin: real := 0.0001
  /** CONF_DELTA: the confidence parameter delta. */
  const ConfDelta: real := 0.005
  /** The literal floor both softmean variants put under the sample variance. */
  const VarFloor: real := 0.001

  // ---- elementwise numpy helpers ----

  /** np.abs */
  function Abs(x: real): real {
    if x < 0.0 then -x else x
  }

  /** np.sign: -1, 0 or 1. */
  function Sign(x: real): real {
    if x > 0.0 then 1.0 else if x < 0.0 then -1.0 else 0.0
  }

  /** max(a, b), np.clip with only a lower bound, and np.where(a < b, b, a). */
  function Max(a: real, b: real): real {
    if a < b then b else a
  }
}
