# Amortized Gaussian sanitizer — a Dafny model

This project models the gradient sanitizer of a differentially private SGD
implementation (`AmortizedGaussianSanitizer` in `presentation/code/sanitizer.py`).
The sanitizer keeps a default clip option and a table of per-tensor overrides.
For each call it works out which `(l2norm_bound, clip)` pair applies and clips
the batch if that pair says so. Then it does one of two things:

- It records the privacy spend with an external accountant and adds Gaussian
  noise scaled by `sigma * l2norm_bound`.
- Or, without noise, it sums the batch over its examples and leaves the
  accountant alone.

Files:

- `wrappers.dfy`: `Option` (Python's `None`) and `Result` (a value, or the
  error that aborts the call).
- `tensor.dfy`: the tensor operations the sanitizer calls, over rank-2 batches
  (examples × features). These are the sum over the leading axis
  (`tf.reduce_sum(x, 0)`), whole-tensor L2 clipping (`tf.clip_by_norm`), and
  Gaussian perturbation (`utils.AddGaussianNoise`). The module also proves how
  clipping bounds the norm and how scaling commutes with the sum.
- `sanitizer.dfy`: `ClipOption` and the three-level resolution rule. It also
  holds the pure function `Sanitization`, which gives the outcome of one call:
  the spend recorded, if any, and the value or error returned. The properties of
  `sanitize` are lemmas about that function. Two classes sit on top of it:
  - `Accountant`, an append-only log of spends.
  - `AmortizedGaussianSanitizer`, with the override table as a `map` field that
    `SetOption` rewrites. Its `Sanitize` method runs the steps in the source's
    order and is proved to return what `Sanitization` gives and to append
    exactly the spend it records.

Floating-point square roots, logarithms and random draws are not computed.
They come in through a `Host` value instead:

- the L2 norm of a tensor;
- the formula `sqrt(2 ln(1.25 / delta)) / eps`;
- one standard-normal draw per tensor entry.

Real numbers stand in for floats.

Behaviour of the source that is easy to miss:

- The keyword default of `option` is `ClipOption(None, None)` (line 23).
- When the explicit bound is `None`, the whole pair is replaced by the override
  or the default (lines 35-40), so a clip flag passed without a bound is
  discarded.
- `tf.clip_by_norm` is called without axes (line 42), so it scales the whole
  tensor by its global L2 norm.
- With noise, the result is the clipped batch plus noise (line 50). The sum
  over the examples is taken only without noise (line 52).
- The eps and delta checks (lines 26-33) come before clipping. The accountant
  call (lines 47-48) comes before the noise (line 50).

## Model

| member | source | states |
|---|---|---|
| `Sanitizer.AmortizedGaussianSanitizer.constructor` | presentation/code/sanitizer.py:12-16 | The new sanitizer holds the given accountant and default option, and its override table is empty. |
| `Sanitizer.AmortizedGaussianSanitizer.SetOption` | presentation/code/sanitizer.py:18-20 | The table maps the name to the new option, replacing any earlier entry (last write wins). Every other entry keeps its presence and its value. |
| `Sanitizer.ResolveClipOption` | presentation/code/sanitizer.py:35-40 | The resolved pair is always the explicit option, the tensor's registered override, or the default, taken as a whole. Nothing else can come out. |
| `Sanitizer.ExplicitBoundWins` | presentation/code/sanitizer.py:35-36 | An explicit option whose bound is present is used as a whole, bound and flag, whatever the overrides and the default are. |
| `Sanitizer.FallbackToOverrideThenDefault` | presentation/code/sanitizer.py:36-40 | Without an explicit bound, a registered tensor name gets its override, even one with no bound of its own. A missing or unregistered name gets the default. |
| `Sanitizer.UnboundedFlagIgnored` | presentation/code/sanitizer.py:35-40 | An explicit flag without a bound is discarded: `ClipOption(None, True)` resolves exactly like `ClipOption(None, None)`. |
| `Sanitizer.OverrideIsLocal` | presentation/code/sanitizer.py:36-40 | Registering an override for a name makes unbounded calls on that name resolve to it. Resolution for every other name is unchanged. |
| `Sanitizer.PriorityScenario` | presentation/code/sanitizer.py:18-40 | One tensor name in three configurations, on a one-example batch of norm 6 summed without noise. Before any override is registered, the default (bound 10, no clipping) gives 6. After two writes, the later override (bound 3) gives 3. An explicit bound of 2 beats that override and gives 2. |
| `Sanitizer.NoiseScale` | presentation/code/sanitizer.py:26-33 | A supplied sigma is used unchecked. Without one, the call succeeds if and only if eps > 0 and delta > 0, and then uses the formula's value. The error names eps when eps fails and delta otherwise. |
| `Sanitizer.BadPrivacyTargetAbortsFirst` | presentation/code/sanitizer.py:26-33 | Without sigma, a non-positive eps or delta aborts the call with no spend recorded and no output, whatever the other arguments are. |
| `Sanitizer.SuppliedSigmaSkipsCheck` | presentation/code/sanitizer.py:26-33 | With sigma supplied, eps and delta are never checked: the result never fails on them and does not depend on them. |
| `Sanitizer.Truthy` | presentation/code/sanitizer.py:41 | Python truthiness of the flag: `None` and `False` are falsy, `True` is truthy. |
| `Sanitizer.ClipStep` | presentation/code/sanitizer.py:41-42 | The clip step fails if and only if the resolved flag is truthy and no bound was resolved. When it succeeds, the batch keeps its shape. |
| `Sanitizer.ClipAppliedIffTruthy` | presentation/code/sanitizer.py:41-42 | With the flag `None` or `False`, the batch reaches the next step unchanged. With a truthy flag and a non-negative bound, what reaches it has L2 norm min(norm, bound), and is the batch itself when its norm was within the bound. |
| `Sanitizer.NoiseStddev` | presentation/code/sanitizer.py:50 | The noise's standard deviation divided by a non-zero bound is sigma. It is zero for a zero bound and non-negative when sigma and the bound are. |
| `Sanitizer.Sanitization` | presentation/code/sanitizer.py:22-53 | A call records at most one spend, and only when add_noise is set. A noised batch is never returned without its spend on record. A successful call returns a noised batch exactly when add_noise is set, with the shape of x, and otherwise a sum with one entry per feature. |
| `Sanitizer.ClipWithoutBoundSpendsNothing` | presentation/code/sanitizer.py:41-48 | Once sigma is settled, a truthy resolved flag with no resolved bound fails the call at the clip step, with or without add_noise. Nothing is recorded with the accountant. |
| `Sanitizer.NoiseRecordsOneSpend` | presentation/code/sanitizer.py:44-50 | With add_noise, once sigma and clipping succeed, the one spend is (eps_delta, sigma, num_examples), with num_examples defaulting to the leading dimension of x. The result is the clipped batch plus noise of standard deviation sigma * l2norm_bound. With no bound resolved, the call fails after the spend. |
| `Sanitizer.WithoutNoiseOnlySums` | presentation/code/sanitizer.py:51-52 | Without add_noise nothing is recorded, and a call that passes the checks returns the sum over axis 0 of the (possibly clipped) batch. |
| `Sanitizer.WithoutNoiseDeterministic` | presentation/code/sanitizer.py:51-52 | Without add_noise the outcome does not depend on the noise draws or on the sigma formula. Repeated calls on the same input agree. |
| `Sanitizer.UnboundedFlagHasNoEffect` | presentation/code/sanitizer.py:23-40 | Passing a clip flag without a bound gives the same outcome as the keyword default `ClipOption(None, None)`. |
| `Sanitizer.ClippedSumIsScaledSum` | presentation/code/sanitizer.py:41-52 | When the resolved option clips to a non-negative bound below the batch's norm, the result without noise is the unclipped sum times bound / norm. |
| `Sanitizer.Accountant.AccumulatePrivacySpending` | presentation/code/sanitizer.py:47-48 | Recording a spend appends exactly that spend to the accountant's log. |
| `Sanitizer.AmortizedGaussianSanitizer.Sanitize` | presentation/code/sanitizer.py:22-53 | The method leaves the default and the override table unchanged. It returns what `Sanitization` gives for the current configuration, and the accountant's log grows by exactly the spend that `Sanitization` records. |
| `Tensor.ReduceSum` | presentation/code/sanitizer.py:52 | Summing over axis 0 gives one entry per feature. Entry j is the sum of feature j over all examples, and an empty batch gives zeros. |
| `Tensor.ReduceSumScale` | presentation/code/sanitizer.py:52 | Summing a scaled batch equals scaling the sum. |
| `Tensor.ClipByNorm` | presentation/code/sanitizer.py:42 | Clipping preserves the shape of the batch. |
| `Tensor.ClipByNormBound` | presentation/code/sanitizer.py:42 | For a non-negative bound, a batch within the bound is returned unchanged. Any other batch comes out with L2 norm exactly the bound. |
| `Tensor.AddGaussianNoise` | presentation/code/sanitizer.py:50 | Noise preserves the shape. Entry (i, j) is moved by the standard deviation times that entry's standard-normal draw. |

## Left out

- The formula for sigma, `sqrt(2 ln(1.25 / delta)) / eps`, uses floating-point square root and logarithm. It is the host function `sigmaFor`, and nothing is proved about its value or how it varies with eps and delta.
- Tensor.ClipByNorm: the L2 norm (a square root) is an argument supplied by the host. TensorFlow's 0/0 when the norm is 0 and the bound is not positive (NaN entries) is modelled as returning the all-zero batch unchanged.
- Tensor.AddGaussianNoise: the randomness is the host's standard-normal draws. The model states the shape and the per-entry scaling, not the distribution.
- Floating-point rounding: all arithmetic is on exact reals.
- TensorFlow graph mechanics are replaced by sequential order: `tf.control_dependencies`, `tf.Assert`, `tf.slice` and `tf.shape`. In graph mode the eps/delta assertions only run when sigma is evaluated, so a call without add_noise would not abort. The model aborts every call that fails the check.
- The default `num_examples` is the number `|x|`, where the source passes the one-element tensor `[|x|]`.
- Only rank-2 batches are modelled. Other tensor ranks are not.
- Python truthiness of non-boolean clip flags: the flag is `Option<bool>`, and only `True` clips.
- The override table is keyed by strings. `set_option(None, o)` would store a key that `sanitize` never reads, because it checks `tensor_name is not None` first.
- The accountant's internal bookkeeping and failures: the accountant is reduced to an append-only log of spends, and its calls always succeed.
- Concurrent configuration changes: the source has no synchronisation.
