# chainrob core in Dafny

This project models the exact-arithmetic core of chainrob, a small library of
robust gradient aggregation for feed-forward networks. The model covers five
pieces:

- **The influence function** `psi_fn` of Catoni and Giulini (module `Influence`).
  It is the cubic u − u³/6 on [−√2, √2] and the constant ±2√2/3 outside it.
- **The column-wise `softmean`** of `chainrob/robustify.py` (module `ColumnwiseSoftMean`).
  - Each column of an (n, k) batch is z-scored with its own mean and its variance floored at 0.001.
  - It is scaled by s = √(n / (2 log(1/δ))) and passed through psi.
  - The average is mapped back to the column's scale and location.
- **The Catoni-type estimator** `est_robust` and its bias term `correction` of `helpers.py` (module `Catoni`).
  - Each column is estimated by the mean of a truncated moment plus the mean of a correction term.
  - λ is floored at `LAM_MIN`, and σ is floored at `SIGMA_MIN`/√β.
- **The pooled `softmean`** of `robustify.py` (module `PooledSoftMean`).
  - One mean and one floored standard deviation are taken over all entries of x.
  - λ = √(2 log(1/δ)/x.size) and β = √(2 log(1/δ)).
  - `est_robust` runs on the standardised data, and its estimates are un-standardised.
- **The linear layer and the network** of `models.py` (modules `LinAlg`, `LinearRobust` and `Chain`).
  - `LinearFunction_Robust.forward` computes x Wᵀ + b.
  - `backward` takes the plain sums when the batch has fewer than three observations or there is no robustifier.
  - Otherwise each row of the weight gradient, and the bias gradient, is a robustifier call, with the inputs optionally multiplied by n.
  - `Chain_FFWD_ReLU` checks the link count, names its links "l0", "l1", … and applies a ReLU after every link but the last.

All quantities are Dafny `real`s. The library functions `math.sqrt`, `math.log`,
`np.exp`, `math.erf` and the constant `math.pi` are fields of a `Numerics.Env`.
They are constrained only by `Numerics.Valid`:
- sqrt is positive on positive arguments;
- sqrt(2)² = 2;
- log is positive above 1;
- π > 0.

Every property below therefore holds for any functions with these properties. The
oddness of `correction`, in particular, holds whatever erf and exp are. Python
exceptions are values of `Outcomes.Result`. The model has these exceptions:
- the `ValueError` of a failed shape unpack;
- the `ValueError` that `np.vectorize` raises on an input of size 0;
- the `ValueError` of `Chain_FFWD_ReLU` when the link count does not match;
- the `ZeroDivisionError` of λ on an empty input;
- the `IndexError` of a short `nfactors` list.

The data model:
- Batches are `seq<seq<real>>` with rows as observations.
- numpy arrays of rank 1 or 2 are `Stats.NdArray`.
- `None` arguments are `Outcomes.Option`.
- A robustifier is a function-typed parameter, `seq<seq<real>> -> seq<real>`.

Where the documentation and the code disagree, the model follows the code:

- The docstring of `softmean` in `robustify.py` (lines 19-20) says the input
  has shape (k,). But `est_robust` unpacks `n, k = x.shape` (`helpers.py:66`), so
  a non-empty rank-1 input fails there with `ValueError`.
  `PooledSoftMean.SoftMean` returns that error.
- The explicit rank check in `est_robust` (`helpers.py:67-68`) can never fire.
  The tuple unpack before it already raises for a rank-1 array. The model has
  only the unpack's `ValueError`.
- `normCDF` (`helpers.py:26`) is `np.vectorize` without `otypes`, and numpy
  refuses to call such a function on a size-0 array with `ValueError`.
  `correction` calls it at `helpers.py:36`, so `est_robust` fails on a
  (0, k) or (n, 0) batch. `Catoni.EstRobust` returns that error. The pooled
  `softmean` never gets there: on an empty x, λ divides by `x.size == 0` at
  `robustify.py:30` and raises `ZeroDivisionError` first.

## Model

| member | source | states |
|---|---|---|
| Influence.PsiOdd | chainrob/helpers.py:25-27 | psi(−u) = −psi(u) for every u |
| Influence.PsiBounded | chainrob/helpers.py:25-27 | −2√2/3 ≤ psi(u) ≤ 2√2/3 for every u |
| Influence.PsiSaturates | chainrob/helpers.py:25-27 | for abs(u) ≥ √2, psi(u) = sign(u)·2√2/3. At abs(u) = √2 itself the strict test sends u to the cubic, which has the same value there |
| Influence.PsiIsClampedCubic | chainrob/helpers.py:25-27 | psi(u) is the cubic evaluated at u clamped to [−√2, √2], so the two branches meet and psi is continuous at ±√2 |
| Influence.PsiSign | chainrob/helpers.py:25-27 | psi(u) has the sign of u; psi(0) = 0 |
| Influence.PsiSlope | chainrob/helpers.py:25-27 | psi is non-decreasing and 1-Lipschitz: u ≤ v implies 0 ≤ psi(v) − psi(u) ≤ v − u |
| Influence.PsiFlatAtR | chainrob/helpers.py:25-27 | psi is differentiable at √2 with slope 0, the cap's slope: for u ≥ −√2, 0 ≤ 2√2/3 − psi(u) ≤ (u − √2)²·√2/2 |
| Influence.PsiFlatAtMinusR | chainrob/helpers.py:25-27 | the same at −√2: for u ≤ √2, 0 ≤ psi(u) + 2√2/3 ≤ (u + √2)²·√2/2 |
| Influence.CubicWithinCap | chainrob/helpers.py:27 | on [−√2, √2] the cubic u − u³/6 stays within ±2√2/3 |
| Stats.MeanAffine | chainrob/robustify.py:18 | the mean of a·s + c is a·mean(s) + c |
| Stats.VarAffine | chainrob/robustify.py:19 | the population variance of a·s + c is a²·var(s) |
| Stats.FlooredSd | chainrob/robustify.py:19-20 | the standard deviation taken from the variance floored at 0.001 is positive, so no z-score divides by zero |
| Stats.FlooredSdUnitAffine | robustify.py:24-25 | shifting or negating the data leaves the floored standard deviation unchanged |
| ColumnwiseSoftMean.Scale | chainrob/robustify.py:21 | s = √(n/(2 log(1/δ))) is positive for every n ≥ 1 |
| ColumnwiseSoftMean.SoftMean | chainrob/robustify.py:10-26 | a rank-1 input fails with ValueError at `n, k = x.shape`; an (n, k) batch gives exactly k estimates |
| ColumnwiseSoftMean.ColumnSoftMeanDeviation | chainrob/robustify.py:17-24 | a column's estimate lies within s·sd·2√2/3 of the column mean |
| ColumnwiseSoftMean.SoftMeanDeviation | chainrob/robustify.py:17-24 | output j lies within s·sd_j·2√2/3 of the mean of column j |
| ColumnwiseSoftMean.ColumnSoftMeanShift | chainrob/robustify.py:18-24 | adding c to every entry of a column adds c to its estimate |
| ColumnwiseSoftMean.SoftMeanShift | chainrob/robustify.py:17-24 | adding c_j to column j of a batch, for every j, adds c_j to output j |
| ColumnwiseSoftMean.ColumnSoftMeanOdd | chainrob/robustify.py:18-24 | negating a column negates its estimate |
| ColumnwiseSoftMean.SoftMeanOdd | chainrob/robustify.py:17-24 | softmean(−x) = −softmean(x); a rank-1 input fails either way |
| ColumnwiseSoftMean.ColumnSoftMeanConstant | chainrob/robustify.py:18-24 | a constant column is estimated by that constant |
| ColumnwiseSoftMean.SoftMeanConstantColumn | chainrob/robustify.py:17-24 | if column j of a batch is constant c, output j is c |
| ColumnwiseSoftMean.SoftMeanColumnsIndependent | chainrob/robustify.py:17-24 | two batches with the same number of rows and the same column j have the same output j, whatever their other columns hold |
| Catoni.Sqrt2Pi | helpers.py:46 | √(2π) is positive, so t3, t4 and t5 never divide by zero |
| Catoni.CorrectionSumOdd | helpers.py:41-53 | negating m and swapping vm↔vp, Fm↔Fp, em↔ep negates t1 + t2 + t3 + t4 + t5 |
| Catoni.CorrectionOdd | helpers.py:29-53 | correction(−m, σ) = −correction(m, σ), for any erf and exp |
| Catoni.Truncated | helpers.py:71 | with λ = 0 the truncated term of x is x itself |
| Catoni.TruncatedOdd | helpers.py:71 | the truncated term is odd in x |
| Catoni.LamSafe | helpers.py:75 | lam_safe ≥ LAM_MIN and lam_safe ≥ λ, and it is one of the two |
| Catoni.Sigma | helpers.py:80-82 | σ ≥ SIGMA_MIN/√β > 0, and σ·√β ≥ lam_safe·abs(x) |
| Catoni.SigmaEven | helpers.py:80-82 | σ depends on x only through abs(x) |
| Catoni.CorrTermOdd | helpers.py:78-83 | each entry correction(lam_safe·x, σ)/lam_safe of corr is odd in x |
| Catoni.ColumnEstimateOdd | helpers.py:71-84 | negating a column negates mean(comps) + mean(corr) |
| Catoni.EstRobust | helpers.py:26-84 | for β > 0, fails exactly on a rank-1 input (the shape unpack) or an input with no entries (np.vectorize on size 0), always with ValueError; a batch with entries gives one estimate per column |
| Catoni.EstRobustOdd | helpers.py:66-84 | est_robust(−x) = −est_robust(x), and x and −x fail with the same error |
| Catoni.EstRobustZero | helpers.py:71-84 | an all-zero batch with columns is estimated as 0 in every column |
| Catoni.EstRobustColumnwise | helpers.py:84 | output j is the estimate of column j taken alone as an (n, 1) batch |
| PooledSoftMean.LogInvDelta | robustify.py:30 | log(1/δ) > 0 |
| PooledSoftMean.Lam | robustify.py:28-30 | λ is positive for every non-empty input |
| PooledSoftMean.Beta | robustify.py:31-33 | β is positive |
| PooledSoftMean.StandardiseShape | robustify.py:23-34 | a non-empty rectangular batch has rows, and standardising keeps its width |
| PooledSoftMean.StandardiseShifted | robustify.py:23-34 | standardising x + c with the shifted mean gives the same array as standardising x |
| PooledSoftMean.StandardiseNegated | robustify.py:23-34 | standardising −x with the negated mean negates the standardised x |
| PooledSoftMean.SoftMean | robustify.py:14-38 | the result is Ok exactly for a non-empty rank-2 input, with one value per column. An empty input raises ZeroDivisionError; a non-empty rank-1 input raises ValueError |
| PooledSoftMean.SoftMeanShift | robustify.py:23-36 | adding c to every entry adds c to every output, and failures are unchanged |
| PooledSoftMean.SoftMeanOdd | robustify.py:23-36 | softmean(−x) = −softmean(x), and failures are unchanged |
| PooledSoftMean.SoftMeanConstant | robustify.py:23-36 | a batch whose entries all equal c gives c in every column |
| LinAlg.BilinearSwap | models.py:85 | u·(W v) = (u W)·v |
| LinAlg.AdjointInput | models.py:84-86 | ⟨gy, x Wᵀ⟩ = ⟨gy W, x⟩, so gy @ W is the gradient of the forward map in x |
| LinAlg.AdjointWeights | models.py:90-91 | ⟨gy, x Wᵀ⟩ = ⟨gyᵀ x, W⟩, so gy.T @ x is the gradient of the forward map in W |
| LinAlg.AdjointBias | models.py:115-116 | ⟨gy, 1 bᵀ⟩ = ⟨sum(gy, axis=0), b⟩, so the column sums of gy are the gradient in b |
| LinearRobust.Forward | models.py:30-53 | x of shape (n, d) and W of shape (k, d) give an (n, k) output, with or without a bias |
| LinearRobust.ForwardBias | models.py:43-47 | the bias is added to every row of x Wᵀ |
| LinearRobust.WeightGrad | models.py:88-111 | on either path the weight gradient has W's shape (k, d) |
| LinearRobust.BiasGrad | models.py:113-131 | on either path the bias gradient has k entries |
| LinearRobust.Backward | models.py:56-134 | the gradient for x, W or b is returned exactly when its index is requested, with the shape of x, W or b |
| LinearRobust.PlainBackwardIsGradient | models.py:84-116 | on the plain path gx, gW and gb satisfy ⟨gy, x Wᵀ⟩ = ⟨gx, x⟩ = ⟨gW, W⟩ and ⟨gy, 1 bᵀ⟩ = ⟨gb, b⟩ |
| LinearRobust.InputGradIgnoresRobustifier | models.py:84-86 | gx does not depend on the robustifier or nfactor |
| LinearRobust.SmallBatchIsPlain | models.py:88-116 | with fewer than three observations, backward equals the plain backward whatever the robustifier and nfactor |
| LinearRobust.WeightRowUsesOneColumn | models.py:96-106 | row i of the weight gradient depends on gy only through column i of gy |
| LinearRobust.NfactorScalesGy | models.py:99-127 | on the robust path, nfactor gives the same gradients as robustifying n·gy without it |
| LinearRobust.MeanRobustifierIsPlain | models.py:88-131 | with the column mean as robustifier and nfactor set, backward equals the plain backward: n·mean = sum |
| Chain.DecimalRoundTrip | models.py:290 | reading back the decimal digits of str(i) gives i |
| Chain.DecimalInjective | models.py:290 | str(i) = str(j) exactly when i = j |
| Chain.LinkNamesDistinct | models.py:290 | "l" + str(i) = "l" + str(j) exactly when i = j |
| Chain.MakeLinks | models.py:289-304 | the link names are pairwise distinct, so a lookup by name finds one link; consecutive links fit; the chain maps dims[0] inputs to dims[−1] outputs |
| Chain.NewChain | models.py:276-304 | ValueError exactly when len(dims) − 1 ≠ len(robustifiers); otherwise IndexError exactly when nfactors is shorter. Otherwise there are len(robustifiers) links, link i is named "l" + str(i), maps dims[i] to dims[i + 1], and carries robustifiers[i] and nfactors[i] |
| Chain.Call | models.py:306-319 | the output has a row per input row and the last link's output width |
| Chain.RunIsHidden | models.py:312-319 | because link names are distinct, the name test in the loop applies ReLU after exactly the links before the last |
| Chain.CallReluPlacement | models.py:306-319 | __call__ returns x when there are no links; otherwise it returns the last link applied to the input that has passed every earlier link, each followed by a ReLU. The single-link shortcut agrees with this |
| Chain.ReluProperties | models.py:317 | ReLU output is max(0, y): non-negative, and either 0 or the entry itself |

## Left out

- Floating point: all arithmetic is exact. Rounding, overflow, and any concern about the order in which `correction` adds its terms do not arise.
- ColumnwiseSoftMean.SoftMean: requires at least one observation, because NaN results are not modelled. With zero rows the source returns NaN means rather than raising.
- Numerics.Valid: sqrt, log, exp, erf and π are uninterpreted. Only the facts listed above are assumed, which is weaker than the real functions. No property here depends on exp or erf beyond their being functions.
- PooledSoftMean.Lam: the contract states only positivity; the closed form √(2 log(1/δ)/x.size) is the body.
- PooledSoftMean.Beta: the contract states only positivity; β = √(2 log(1/δ)) is the body.
- Catoni.EstRobust: λ and β are scalars (the only way the repository calls it). The per-column (k,) vectors the docstring also allows are not modelled. β > 0 is required: for β < 0, `math.sqrt(beta)` at `helpers.py:82` raises ValueError (math domain error), and for β = 0 the divisions at `helpers.py:71` and `helpers.py:82` give inf or NaN. Neither outcome is modelled. The only caller passes β = √(2 log(1/δ)) > 0 (`robustify.py:31-33`), and the source treats β as safe (`helpers.py:74`).
- LinearRobust.Forward: x and W must agree in width (`IsMatrix(x, d) && IsMatrix(W, d)`), and Chain.Call likewise requires x to have the first link's in_size. On a mismatch `x.dot(W.T)` (`models.py:43`) raises numpy's ValueError, a caller bug that `__call__` passes on. It is not modelled. The shapes `backward` receives (`LinearRobust.Shapes`) are guaranteed by chainer and need no such case.
- Arrays of rank 0 or of rank 3 and more are not modelled. Their shape unpacks fail the same way as rank 1.
- LinearRobust.Backward: the robustifier is assumed to return one value per column of its batch (`PerColumn`). A robustifier returning another shape would make numpy raise or broadcast; that is not modelled.
- The softmean functions, which the repository passes as robustifiers, can fail. Their connection to the abstract `Robustifier` parameter is not modelled.
- Chainer machinery is not modelled:
  - `retain_inputs`, `get_retained_inputs`, Variable wrapping, dtype casts and `linear_robust`;
  - `Linear_Robust`'s random weight initialisation with `INIT_UNIF_WIDTH`. The weights become the `Chain.Params` argument of `Chain.Call`.
- The calibrated shift/scale dispatch using `T_MIN`, `CALIB_S0` and `CALIB_THRES`: the constants are defined but no code uses them.
- `Chain_Class_H2_ReLU_Robust` is not modelled: it is fixed wiring of the same links.
- `get_model.py` and `chainrob/get_model.py` are not modelled: they only map configuration names to models.
- `makedir_safe` is not modelled: it is filesystem I/O.
- `normCDF` is `normCDF_1D` applied elementwise. The model applies it to one entry at a time.
