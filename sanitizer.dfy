/**
 * The amortized Gaussian sanitizer of differentially private SGD: per-tensor
 * clip options with an override table, the three-level resolution of the clip
 * option used by a call, and the protocol of `sanitize` — check the privacy
 * target when no noise scale is given, clip if the resolved flag is set, then
 * either record the spend with the accountant and add noise, or sum over the
 * examples without touching the accountant.
 */
module Sanitizer {
  import opened Wrappers
  import opened Tensor

  // ---------------------------------------------------------------------------
  // Data
  // ---------------------------------------------------------------------------

  /** The pair (l2norm_bound, clip). Either half may be Python's `None`. */
  datatype ClipOption = ClipOption(l2normBound: Option<real>, clip: Option<bool>)

  /** The keyword default of `sanitize`: ClipOption(None, None). */
  const NoClipOption := ClipOption(None, None)

  /** Python truthiness of the clip flag: `None` is falsy, and a boolean is its
      own truth value, so only `True` means "clip". */
  function Truthy(flag: Option<bool>): (r: bool)
    ensures flag.None? ==> !r
    ensures flag.Some? ==> (r <==> flag.value)
  {
    match flag
    case None => false
    case Some(b) => b
  }

  /** The privacy target (eps, delta) of one call. */
  datatype EpsDelta = EpsDelta(eps: real, delta: real)

  /** One call of the accountant's accumulate_privacy_spending. */
  datatype Spend = Spend(epsDelta: EpsDelta, sigma: real, numExamples: int)

  /** The ways a call of `sanitize` aborts. */
  datatype Error =
    | EpsNotPositive     // the assertion that eps > 0 failed
    | DeltaNotPositive   // the assertion that delta > 0 failed
    | ClipNormIsNone     // clipping was asked for, but no bound was resolved
    | NoiseScaleIsNone   // sigma * l2norm_bound with no bound resolved

  /** What `sanitize` returns: the noised batch, or the sum over its examples. */
  datatype Sanitized = Noised(batch: Batch) | Summed(sum: seq<real>)

  /** The numerics the sanitizer takes from its host: the L2 norm of a tensor
      (a square root), the noise scale sqrt(2 ln(1.25 / delta)) / eps for a
      privacy target (a square root and a logarithm), and the standard-normal
      draws of the noise source, one per entry. */
  datatype Host = Host(l2norm: Batch -> real, sigmaFor: (real, real) -> real, gaussian: (nat, nat) -> real)

  // ---------------------------------------------------------------------------
  // Clip option resolution
  // ---------------------------------------------------------------------------

  /** The (l2norm_bound, clip) pair a call uses: the explicit option if its bound
      is present; otherwise the override registered for the tensor name, if any;
      otherwise the default. The pair is always one of these three candidates,
      taken as a whole: bound and flag never come from different candidates. */
  function ResolveClipOption(option: ClipOption, defaultOption: ClipOption,
                             options: map<string, ClipOption>, tensorName: Option<string>): (r: ClipOption)
    ensures r == option || r == defaultOption
         || (tensorName.Some? && tensorName.value in options && r == options[tensorName.value])
  {
    if option.l2normBound.Some? then option
    else if tensorName.Some? && tensorName.value in options then options[tensorName.value]
    else defaultOption
  }

  /** An explicit option with a bound wins over any override and the default,
      and both its bound and its flag are used. */
  lemma ExplicitBoundWins(option: ClipOption, defaultOption: ClipOption,
                          options: map<string, ClipOption>, tensorName: Option<string>)
    requires option.l2normBound.Some?
    ensures ResolveClipOption(option, defaultOption, options, tensorName) == option
  {
  }

  /** Without an explicit bound, a registered override is used as a whole, even
      when its own bound is absent; an unregistered or absent name falls back to
      the default. */
  lemma FallbackToOverrideThenDefault(option: ClipOption, defaultOption: ClipOption,
                                      options: map<string, ClipOption>, tensorName: Option<string>)
    requires option.l2normBound.None?
    ensures tensorName.Some? && tensorName.value in options ==>
      ResolveClipOption(option, defaultOption, options, tensorName) == options[tensorName.value]
    ensures tensorName.None? || tensorName.value !in options ==>
      ResolveClipOption(option, defaultOption, options, tensorName) == defaultOption
  {
  }

  /** An explicit clip flag without a bound is discarded: ClipOption(None, True)
      does not force clipping, and resolves exactly as ClipOption(None, None). */
  lemma UnboundedFlagIgnored(flag: Option<bool>, defaultOption: ClipOption,
                             options: map<string, ClipOption>, tensorName: Option<string>)
    ensures ResolveClipOption(ClipOption(None, flag), defaultOption, options, tensorName)
         == ResolveClipOption(NoClipOption, defaultOption, options, tensorName)
  {
  }

  /** Registering an override for one name changes the resolution for that name
      only: a call naming it without an explicit bound now gets the new option,
      and every other call resolves as before. */
  lemma OverrideIsLocal(option: ClipOption, defaultOption: ClipOption, options: map<string, ClipOption>,
                        name: string, override: ClipOption, tensorName: Option<string>)
    ensures option.l2normBound.None? && tensorName == Some(name) ==>
      ResolveClipOption(option, defaultOption, options[name := override], tensorName) == override
    ensures tensorName != Some(name) ==>
      ResolveClipOption(option, defaultOption, options[name := override], tensorName)
        == ResolveClipOption(option, defaultOption, options, tensorName)
  {
  }

  // ---------------------------------------------------------------------------
  // The steps of sanitize
  // ---------------------------------------------------------------------------

  /** The noise scale of a call: the supplied sigma, unchecked; or, when none is
      supplied, the one derived from the privacy target, which must then have
      eps > 0 and delta > 0 (eps is checked first). */
  function NoiseScale(sigma: Option<real>, epsDelta: EpsDelta, sigmaFor: (real, real) -> real): (r: Result<real, Error>)
    ensures sigma.Some? ==> r == Ok(sigma.value)
    ensures sigma.None? ==> (r.Ok? <==> 0.0 < epsDelta.eps && 0.0 < epsDelta.delta)
    ensures sigma.None? && r.Ok? ==> r.value == sigmaFor(epsDelta.eps, epsDelta.delta)
    ensures r.Err? ==> r.error == (if epsDelta.eps <= 0.0 then EpsNotPositive else DeltaNotPositive)
  {
    match sigma
    case Some(s) => Ok(s)
    case None =>
      if !(0.0 < epsDelta.eps) then Err(EpsNotPositive)
      else if !(0.0 < epsDelta.delta) then Err(DeltaNotPositive)
      else Ok(sigmaFor(epsDelta.eps, epsDelta.delta))
  }

  /** The clipping step: the batch passes unchanged unless the resolved flag is
      truthy; then it is clipped to the resolved bound, which must be present. */
  function ClipStep(x: Batch, resolved: ClipOption, norm: real): (r: Result<Batch, Error>)
    requires x.WellShaped()
    ensures r.Ok? ==> SameShape(r.value, x)
    ensures r.Err? <==> Truthy(resolved.clip) && resolved.l2normBound.None?
  {
    if Truthy(resolved.clip) then
      match resolved.l2normBound
      case None => Err(ClipNormIsNone)
      case Some(bound) => Ok(ClipByNorm(x, bound, norm))
    else Ok(x)
  }

  /** Clipping happens if and only if the resolved flag is truthy: otherwise the
      batch reaches the next step as it is; if it is, and the bound is a
      non-negative number, the batch that reaches the next step has an L2 norm
      of at most the bound, and is the batch itself when that was within it. */
  lemma ClipAppliedIffTruthy(x: Batch, resolved: ClipOption, norm: real)
    requires x.WellShaped() && IsL2Norm(norm, x)
    ensures !Truthy(resolved.clip) ==> ClipStep(x, resolved, norm) == Ok(x)
    ensures Truthy(resolved.clip) && resolved.l2normBound.Some? && 0.0 <= resolved.l2normBound.value ==>
      var bound := resolved.l2normBound.value;
      var clipped := ClipStep(x, resolved, norm).value;
      IsL2Norm(if norm <= bound then norm else bound, clipped) && (norm <= bound ==> clipped == x)
  {
    if Truthy(resolved.clip) && resolved.l2normBound.Some? && 0.0 <= resolved.l2normBound.value {
      ClipByNormBound(x, resolved.l2normBound.value, norm);
    }
  }

  /** The standard deviation of the noise, sigma * l2norm_bound: sigma is the
      noise multiplier per unit of the clipping bound, so the standard deviation
      is proportional to the bound and is never negative for a non-negative sigma
      and bound. */
  function NoiseStddev(sigma: real, l2normBound: real): (r: real)
    ensures l2normBound != 0.0 ==> r / l2normBound == sigma
    ensures l2normBound == 0.0 ==> r == 0.0
    ensures 0.0 <= sigma && 0.0 <= l2normBound ==> 0.0 <= r
  {
    sigma * l2normBound
  }

  /** The outcome of one call: the spend recorded with the accountant, if any,
      and what the call returns. */
  datatype Outcome = Outcome(spend: Option<Spend>, result: Result<Sanitized, Error>)

  /** The spends an outcome adds to the accountant's log. */
  function Recorded(o: Outcome): (log: seq<Spend>)
    ensures |log| <= 1
    ensures o.spend.None? ==> log == []
    ensures o.spend.Some? ==> log == [o.spend.value]
  {
    match o.spend
    case None => []
    case Some(s) => [s]
  }

  /** sanitize, as a function of the sanitizer's configuration and the call's
      arguments. A call records at most one spend, and only when noise is asked
      for; a noised batch is never returned without its spend on record; a call
      that succeeds returns a noised batch exactly when noise was asked for. */
  function Sanitization(defaultOption: ClipOption, options: map<string, ClipOption>,
                        x: Batch, epsDelta: EpsDelta, sigma: Option<real>, option: ClipOption,
                        tensorName: Option<string>, numExamples: Option<int>, addNoise: bool,
                        host: Host): (o: Outcome)
    requires x.WellShaped()
    ensures o.spend.Some? ==> addNoise
    ensures o.result.Ok? && o.result.value.Noised? ==> o.spend.Some?
    ensures o.result.Ok? ==> (o.result.value.Noised? <==> addNoise)
    ensures o.result.Ok? && o.result.value.Noised? ==> SameShape(o.result.value.batch, x)
    ensures o.result.Ok? && o.result.value.Summed? ==> |o.result.value.sum| == x.width
  {
    match NoiseScale(sigma, epsDelta, host.sigmaFor)
    case Err(e) => Outcome(None, Err(e))
    case Ok(s) =>
      var resolved := ResolveClipOption(option, defaultOption, options, tensorName);
      match ClipStep(x, resolved, host.l2norm(x))
      case Err(e) => Outcome(None, Err(e))
      case Ok(y) =>
        if addNoise then
          var n := if numExamples.Some? then numExamples.value else |y.rows|;
          var spend := Spend(epsDelta, s, n);
          match resolved.l2normBound
          case None => Outcome(Some(spend), Err(NoiseScaleIsNone))
          case Some(bound) => Outcome(Some(spend), Ok(Noised(AddGaussianNoise(y, NoiseStddev(s, bound), host.gaussian))))
        else
          Outcome(None, Ok(Summed(ReduceSum(y))))
  }

  // ---------------------------------------------------------------------------
  // Properties of sanitize
  // ---------------------------------------------------------------------------

  /** Without a supplied sigma, a non-positive eps or delta aborts the call
      before anything else: no spend is recorded and nothing is returned. */
  lemma BadPrivacyTargetAbortsFirst(defaultOption: ClipOption, options: map<string, ClipOption>,
                                    x: Batch, epsDelta: EpsDelta, option: ClipOption,
                                    tensorName: Option<string>, numExamples: Option<int>, addNoise: bool,
                                    host: Host)
    requires x.WellShaped()
    requires !(0.0 < epsDelta.eps && 0.0 < epsDelta.delta)
    ensures Sanitization(defaultOption, options, x, epsDelta, None, option, tensorName, numExamples, addNoise, host)
         == Outcome(None, Err(if epsDelta.eps <= 0.0 then EpsNotPositive else DeltaNotPositive))
  {
  }

  /** With a supplied sigma the privacy target is not checked: it only reaches
      the accountant, so what the call returns does not depend on it. */
  lemma SuppliedSigmaSkipsCheck(defaultOption: ClipOption, options: map<string, ClipOption>,
                                x: Batch, epsDelta: EpsDelta, other: EpsDelta, sigma: real, option: ClipOption,
                                tensorName: Option<string>, numExamples: Option<int>, addNoise: bool,
                                host: Host)
    requires x.WellShaped()
    ensures var o := Sanitization(defaultOption, options, x, epsDelta, Some(sigma), option, tensorName, numExamples, addNoise, host);
      o.result == Sanitization(defaultOption, options, x, other, Some(sigma), option, tensorName, numExamples, addNoise, host).result
      && o.result != Err(EpsNotPositive) && o.result != Err(DeltaNotPositive)
  {
  }

  /** When clipping is asked for and no bound was resolved, the call fails
      before the accountant is reached, with or without add_noise. */
  lemma ClipWithoutBoundSpendsNothing(defaultOption: ClipOption, options: map<string, ClipOption>,
                                      x: Batch, epsDelta: EpsDelta, sigma: Option<real>, option: ClipOption,
                                      tensorName: Option<string>, numExamples: Option<int>, addNoise: bool,
                                      host: Host)
    requires x.WellShaped()
    requires NoiseScale(sigma, epsDelta, host.sigmaFor).Ok?
    requires var resolved := ResolveClipOption(option, defaultOption, options, tensorName);
      Truthy(resolved.clip) && resolved.l2normBound.None?
    ensures Sanitization(defaultOption, options, x, epsDelta, sigma, option, tensorName, numExamples, addNoise, host)
         == Outcome(None, Err(ClipNormIsNone))
  {
  }

  /** With add_noise, once sigma and the clipping step succeed, exactly one spend
      is recorded, carrying the call's privacy target, the noise scale and the
      number of examples (the leading dimension of x unless supplied); the result
      is the clipped batch plus noise of standard deviation sigma * l2norm_bound. */
  lemma NoiseRecordsOneSpend(defaultOption: ClipOption, options: map<string, ClipOption>,
                             x: Batch, epsDelta: EpsDelta, sigma: Option<real>, option: ClipOption,
                             tensorName: Option<string>, numExamples: Option<int>, host: Host)
    requires x.WellShaped()
    requires NoiseScale(sigma, epsDelta, host.sigmaFor).Ok?
    requires ClipStep(x, ResolveClipOption(option, defaultOption, options, tensorName), host.l2norm(x)).Ok?
    ensures var s := NoiseScale(sigma, epsDelta, host.sigmaFor).value;
      var resolved := ResolveClipOption(option, defaultOption, options, tensorName);
      var y := ClipStep(x, resolved, host.l2norm(x)).value;
      var o := Sanitization(defaultOption, options, x, epsDelta, sigma, option, tensorName, numExamples, true, host);
      && o.spend == Some(Spend(epsDelta, s, if numExamples.Some? then numExamples.value else |x.rows|))
      && (resolved.l2normBound.None? ==> o.result == Err(NoiseScaleIsNone))
      && (resolved.l2normBound.Some? ==>
            o.result == Ok(Noised(AddGaussianNoise(y, NoiseStddev(s, resolved.l2normBound.value), host.gaussian))))
  {
  }

  /** Without add_noise the accountant is not touched, and a call that gets past
      the checks returns the sum over the examples of the (possibly clipped)
      batch. */
  lemma WithoutNoiseOnlySums(defaultOption: ClipOption, options: map<string, ClipOption>,
                             x: Batch, epsDelta: EpsDelta, sigma: Option<real>, option: ClipOption,
                             tensorName: Option<string>, numExamples: Option<int>, host: Host)
    requires x.WellShaped()
    ensures var o := Sanitization(defaultOption, options, x, epsDelta, sigma, option, tensorName, numExamples, false, host);
      var y := ClipStep(x, ResolveClipOption(option, defaultOption, options, tensorName), host.l2norm(x));
      && o.spend == None
      && (NoiseScale(sigma, epsDelta, host.sigmaFor).Ok? && y.Ok? ==> o.result == Ok(Summed(ReduceSum(y.value))))
  {
  }

  /** Without add_noise the result involves no randomness: two hosts that agree
      on the norm of x give the same outcome, whatever their noise draws and
      their noise-scale formula. */
  lemma WithoutNoiseDeterministic(defaultOption: ClipOption, options: map<string, ClipOption>,
                                  x: Batch, epsDelta: EpsDelta, sigma: Option<real>, option: ClipOption,
                                  tensorName: Option<string>, numExamples: Option<int>, host: Host, other: Host)
    requires x.WellShaped() && host.l2norm(x) == other.l2norm(x)
    ensures Sanitization(defaultOption, options, x, epsDelta, sigma, option, tensorName, numExamples, false, host)
         == Sanitization(defaultOption, options, x, epsDelta, sigma, option, tensorName, numExamples, false, other)
  {
  }

  /** A clip flag passed without a bound has no effect on the call. */
  lemma UnboundedFlagHasNoEffect(defaultOption: ClipOption, options: map<string, ClipOption>,
                                 x: Batch, epsDelta: EpsDelta, sigma: Option<real>, flag: Option<bool>,
                                 tensorName: Option<string>, numExamples: Option<int>, addNoise: bool, host: Host)
    requires x.WellShaped()
    ensures Sanitization(defaultOption, options, x, epsDelta, sigma, ClipOption(None, flag), tensorName, numExamples, addNoise, host)
         == Sanitization(defaultOption, options, x, epsDelta, sigma, NoClipOption, tensorName, numExamples, addNoise, host)
  {
    UnboundedFlagIgnored(flag, defaultOption, options, tensorName);
  }

  /** Without add_noise, clipping before summing scales the sum: when the
      resolved option clips to a non-negative bound below the batch's norm, the
      result is the unclipped sum times bound / norm. */
  lemma ClippedSumIsScaledSum(defaultOption: ClipOption, options: map<string, ClipOption>,
                              x: Batch, epsDelta: EpsDelta, sigma: Option<real>, option: ClipOption,
                              tensorName: Option<string>, numExamples: Option<int>, host: Host)
    requires x.WellShaped() && IsL2Norm(host.l2norm(x), x)
    requires NoiseScale(sigma, epsDelta, host.sigmaFor).Ok?
    requires var resolved := ResolveClipOption(option, defaultOption, options, tensorName);
      Truthy(resolved.clip) && resolved.l2normBound.Some? && 0.0 <= resolved.l2normBound.value < host.l2norm(x)
    ensures var bound := ResolveClipOption(option, defaultOption, options, tensorName).l2normBound.value;
      Sanitization(defaultOption, options, x, epsDelta, sigma, option, tensorName, numExamples, false, host)
        == Outcome(None, Ok(Summed(ScaleVector(ReduceSum(x), bound / host.l2norm(x)))))
  {
    var bound := ResolveClipOption(option, defaultOption, options, tensorName).l2normBound.value;
    ReduceSumScale(x, bound / host.l2norm(x));
  }

  // ---------------------------------------------------------------------------
  // The accountant and the sanitizer
  // ---------------------------------------------------------------------------

  /** The privacy accountant, an external collaborator shared by sanitizers. Only
      its log of recorded spends is modelled. */
  class Accountant {
    ghost var log: seq<Spend>

    constructor ()
      ensures log == []
    {
      log := [];
    }

    method AccumulatePrivacySpending(epsDelta: EpsDelta, sigma: real, numExamples: int)
      modifies this
      ensures log == old(log) + [Spend(epsDelta, sigma, numExamples)]
    {
      log := log + [Spend(epsDelta, sigma, numExamples)];
    }
  }

  class AmortizedGaussianSanitizer {
    const accountant: Accountant
    var defaultOption: ClipOption
    var options: map<string, ClipOption>

    constructor (accountant: Accountant, defaultOption: ClipOption)
      ensures this.accountant == accountant && this.defaultOption == defaultOption
      ensures options == map[]
    {
      this.accountant := accountant;
      this.defaultOption := defaultOption;
      options := map[];
    }

    /** Registers `option` for `tensorName`, replacing an earlier one; every
        other entry stays as it was. */
    method SetOption(tensorName: string, option: ClipOption)
      modifies this`options
      ensures options == old(options)[tensorName := option]
      ensures tensorName in options && options[tensorName] == option
      ensures forall n :: n != tensorName ==> (n in options <==> n in old(options))
      ensures forall n :: n != tensorName && n in old(options) ==> options[n] == old(options)[n]
    {
      options := options[tensorName := option];
    }

    /** One call of sanitize. It changes nothing of the sanitizer, returns what
        `Sanitization` gives for the current configuration, and
        appends to the accountant's log exactly the spend that function
        records. */
    method Sanitize(x: Batch, epsDelta: EpsDelta, sigma: Option<real>, option: ClipOption,
                    tensorName: Option<string>, numExamples: Option<int>, addNoise: bool, host: Host)
      returns (r: Result<Sanitized, Error>)
      requires x.WellShaped()
      modifies accountant
      ensures defaultOption == old(defaultOption) && options == old(options)
      ensures var o := Sanitization(defaultOption, options, x, epsDelta, sigma, option, tensorName, numExamples, addNoise, host);
        r == o.result && accountant.log == old(accountant.log) + Recorded(o)
    {
      var s: real;
      if sigma.None? {
        if !(0.0 < epsDelta.eps) {
          return Err(EpsNotPositive);
        }
        if !(0.0 < epsDelta.delta) {
          return Err(DeltaNotPositive);
        }
        s := host.sigmaFor(epsDelta.eps, epsDelta.delta);
      } else {
        s := sigma.value;
      }

      var resolved := ResolveClipOption(option, defaultOption, options, tensorName);
      var y := x;
      if Truthy(resolved.clip) {
        if resolved.l2normBound.None? {
          return Err(ClipNormIsNone);
        }
        y := ClipByNorm(x, resolved.l2normBound.value, host.l2norm(x));
      }

      if addNoise {
        var n := if numExamples.Some? then numExamples.value else |y.rows|;
        accountant.AccumulatePrivacySpending(epsDelta, s, n);
        if resolved.l2normBound.None? {
          return Err(NoiseScaleIsNone);
        }
        r := Ok(Noised(AddGaussianNoise(y, NoiseStddev(s, resolved.l2normBound.value), host.gaussian)));
      } else {
        r := Ok(Summed(ReduceSum(y)));
      }
    }
  }

  /** Three configurations of one tensor name give three different results on a
      one-example batch of norm 6 summed without noise: before any override is
      registered the default applies (it does not clip), after two writes the
      later override applies, and an explicit option with a bound beats it. */
  method PriorityScenario() returns (explicit: Result<Sanitized, Error>, overridden: Result<Sanitized, Error>,
                                     defaulted: Result<Sanitized, Error>)
    ensures explicit == Ok(Summed([2.0]))
    ensures overridden == Ok(Summed([3.0]))
    ensures defaulted == Ok(Summed([6.0]))
  {
    var accountant := new Accountant();
    var sanitizer := new AmortizedGaussianSanitizer(accountant, ClipOption(Some(10.0), Some(false)));
    var x := Batch(1, [[6.0]]);
    var host := Host(_ => 6.0, (_, _) => 1.0, (_, _) => 0.0);
    var target := EpsDelta(1.0, 0.00001);
    assert ColumnSum(x.rows, 0) == 6.0;
    assert ReduceSum(x) == [6.0];
    defaulted := sanitizer.Sanitize(x, target, None, ClipOption(None, Some(true)), Some("w"), None, false, host);
    sanitizer.SetOption("w", ClipOption(Some(1.0), Some(true)));
    sanitizer.SetOption("w", ClipOption(Some(3.0), Some(true)));
    assert sanitizer.options == map["w" := ClipOption(Some(3.0), Some(true))];
    assert ColumnSum(Scale(x, 2.0 / 6.0).rows, 0) == 2.0;
    assert ReduceSum(ClipByNorm(x, 2.0, 6.0)) == [2.0];
    assert ColumnSum(Scale(x, 3.0 / 6.0).rows, 0) == 3.0;
    assert ReduceSum(ClipByNorm(x, 3.0, 6.0)) == [3.0];
    explicit := sanitizer.Sanitize(x, target, None, ClipOption(Some(2.0), Some(true)), Some("w"), None, false, host);
    overridden := sanitizer.Sanitize(x, target, None, NoClipOption, Some("w"), None, false, host);
  }
}
