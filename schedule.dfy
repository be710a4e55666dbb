/** The learning-rate schedule of the trainer: linear warmup, cosine decay,
    and a floor past the horizon (`Trainer._get_lr`). */
module LrSchedule {
  import opened PyErrors
  import opened Config

  /** What the schedule relies on about `x => math.cos(math.pi * x)` on [0, 1]:
      it starts at 1, ends at -1, stays in [-1, 1] and never increases.
      The cosine itself is not available, so it is a parameter constrained by this. */
  ghost predicate IsCosPi(cosPi: real -> real) {
    && cosPi(0.0) == 1.0
    && cosPi(1.0) == -1.0
    && (forall x :: 0.0 <= x <= 1.0 ==> -1.0 <= cosPi(x) <= 1.0)
    && (forall x, y :: 0.0 <= x <= y <= 1.0 ==> cosPi(y) <= cosPi(x))
  }

  /** A configuration whose decay phase [warmup, max] is non-empty. */
  predicate HasDecayPhase(cfg: TrainerConfig) {
    cfg.warmupIters < cfg.maxIters
  }

  /** A configuration whose schedule has a non-empty warmup and a non-empty decay. */
  predicate ValidSchedule(cfg: TrainerConfig) {
    0 < cfg.warmupIters && HasDecayPhase(cfg)
  }

  /** The decay ratio computed before the assertion: (iter - warmup) / (max - warmup). */
  function DecayRatio(cfg: TrainerConfig, iter: int): real
    requires cfg.maxIters != cfg.warmupIters
  {
    (iter - cfg.warmupIters) as real / (cfg.maxIters - cfg.warmupIters) as real
  }

  /** The warmup ramp of line 217; the division is by a non-zero warmup. */
  function WarmupLr(cfg: TrainerConfig, iter: int): real
    requires cfg.warmupIters != 0
  {
    cfg.maxLr * (iter + 1) as real / cfg.warmupIters as real
  }

  /** The cosine interpolation of lines 226-228 at decay ratio `ratio`. */
  function CosineLr(cfg: TrainerConfig, cosPi: real -> real, ratio: real): real {
    var coeff := 0.5 * (1.0 + cosPi(ratio));
    cfg.minLr + coeff * (cfg.maxLr - cfg.minLr)
  }

  /** The learning rate at iteration `iter`, or the exception the source raises:
      a zero division in the warmup or decay formula, or the range assertion. */
  function GetLr(cfg: TrainerConfig, cosPi: real -> real, iter: int): Result<real> {
    if iter < cfg.warmupIters then
      if cfg.warmupIters == 0 then Err(ZeroDivisionError)
      else Ok(WarmupLr(cfg, iter))
    else if iter > cfg.maxIters then
      Ok(cfg.minLr)
    else if cfg.maxIters - cfg.warmupIters == 0 then
      Err(ZeroDivisionError)
    else
      var ratio := DecayRatio(cfg, iter);
      if !(0.0 <= ratio <= 1.0) then Err(AssertionError)
      else Ok(CosineLr(cfg, cosPi, ratio))
  }

  // ---------------------------------------------------------------------------
  // Arithmetic helpers

  lemma QuotientInUnit(a: int, b: int)
    requires 0 <= a <= b && 0 < b
    ensures 0.0 <= a as real / b as real <= 1.0
  {
    assert a as real / b as real * b as real == a as real;
  }

  lemma QuotientMonotone(a: int, c: int, b: int)
    requires a <= c && 0 < b
    ensures a as real / b as real <= c as real / b as real
  {
    assert a as real / b as real * b as real == a as real;
    assert c as real / b as real * b as real == c as real;
  }

  lemma ScaleMonotone(x: real, y: real, d: real)
    requires x <= y && 0.0 <= d
    ensures x * d <= y * d
  {
  }

  /** lo + c * (hi - lo) for c in [0, 1] lies between lo and hi. */
  lemma InterpolationBetween(lo: real, hi: real, c: real)
    requires lo <= hi && 0.0 <= c <= 1.0
    ensures lo <= lo + c * (hi - lo) <= hi
  {
    ScaleMonotone(0.0, c, hi - lo);
    ScaleMonotone(c, 1.0, hi - lo);
  }

  /** lo + c * (hi - lo) grows with c when lo <= hi ... */
  lemma InterpolationMonotone(lo: real, hi: real, c: real, c': real)
    requires lo <= hi && c <= c'
    ensures lo + c * (hi - lo) <= lo + c' * (hi - lo)
  {
    ScaleMonotone(c, c', hi - lo);
  }

  /** ... and shrinks with c when hi <= lo. */
  lemma InterpolationAntitone(lo: real, hi: real, c: real, c': real)
    requires hi <= lo && c <= c'
    ensures lo + c' * (hi - lo) <= lo + c * (hi - lo)
  {
    ScaleMonotone(c, c', lo - hi);
  }

  lemma RealQuotientMonotone(a: real, b: real, d: real)
    requires a <= b && 0.0 < d
    ensures a / d <= b / d
  {
    assert a / d * d == a;
    assert b / d * d == b;
  }

  /** peak * k / w for 1 <= k <= w lies in [0, peak] when peak >= 0. */
  lemma RampBelowPeak(peak: real, k: int, w: int)
    requires 0.0 <= peak && 1 <= k <= w
    ensures 0.0 <= peak * k as real / w as real <= peak
  {
    var x, wr := peak * k as real, w as real;
    ScaleMonotone(0.0, k as real, peak);
    ScaleMonotone(k as real, wr, peak);
    RealQuotientMonotone(0.0, x, wr);
    RealQuotientMonotone(x, peak * wr, wr);
    assert peak * wr / wr == peak;
  }

  // ---------------------------------------------------------------------------
  // Where the schedule fails

  /** The range assertion before the cosine can never fail, whatever the
      configuration: the decay branch is reached only with
      warmup <= iter <= max, so the ratio lies in [0, 1]. */
  lemma DecayAssertionNeverFails(cfg: TrainerConfig, cosPi: real -> real, iter: int)
    ensures GetLr(cfg, cosPi, iter) != Err(AssertionError)
  {
    if cfg.warmupIters <= iter <= cfg.maxIters && cfg.maxIters != cfg.warmupIters {
      QuotientInUnit(iter - cfg.warmupIters, cfg.maxIters - cfg.warmupIters);
    }
  }

  /** The schedule raises exactly in two cases: a negative iteration with a
      zero warmup, and iteration == warmup == max; it is then a zero division. */
  lemma GetLrFailsExactly(cfg: TrainerConfig, cosPi: real -> real, iter: int)
    ensures GetLr(cfg, cosPi, iter).Err?
        <==> (iter < cfg.warmupIters == 0) || (iter == cfg.warmupIters == cfg.maxIters)
    ensures GetLr(cfg, cosPi, iter).Err? ==> GetLr(cfg, cosPi, iter).error == ZeroDivisionError
  {
    DecayAssertionNeverFails(cfg, cosPi, iter);
  }

  /** Every iteration the training loop visits (0 <= iter < max_iters) gets a
      learning rate, for every configuration. */
  lemma TrainingIterationsHaveLr(cfg: TrainerConfig, cosPi: real -> real, iter: int)
    requires 0 <= iter < cfg.maxIters
    ensures GetLr(cfg, cosPi, iter).Ok?
  {
    GetLrFailsExactly(cfg, cosPi, iter);
  }

  /** With a valid schedule, no non-negative iteration fails. */
  lemma ValidScheduleNeverFails(cfg: TrainerConfig, cosPi: real -> real, iter: int)
    requires ValidSchedule(cfg) && 0 <= iter
    ensures GetLr(cfg, cosPi, iter).Ok?
  {
    GetLrFailsExactly(cfg, cosPi, iter);
  }

  /** A schedule with no decay phase (warmup == max) divides by zero at
      iteration max: the horizon test `iter > max` lets it through. */
  lemma DegenerateHorizonDivides(cosPi: real -> real)
    ensures GetLr(TrainerConfig(1, 10, 10, 1, 0.1, 0.01, false), cosPi, 10) == Err(ZeroDivisionError)
  {
  }

  /** The schedule with the horizon test as `iter >= max`: the floor is taken
      from the horizon on, so the decay formula only runs with warmup <= iter < max. */
  function GetLrGuarded(cfg: TrainerConfig, cosPi: real -> real, iter: int): Result<real> {
    if iter < cfg.warmupIters then
      if cfg.warmupIters == 0 then Err(ZeroDivisionError)
      else Ok(WarmupLr(cfg, iter))
    else if iter >= cfg.maxIters then
      Ok(cfg.minLr)
    else
      var ratio := DecayRatio(cfg, iter);
      if !(0.0 <= ratio <= 1.0) then Err(AssertionError)
      else Ok(CosineLr(cfg, cosPi, ratio))
  }

  /** The guarded schedule fails only for a negative iteration with a zero
      warmup; in particular never at warmup == max. */
  lemma GuardedFailsExactly(cfg: TrainerConfig, cosPi: real -> real, iter: int)
    ensures GetLrGuarded(cfg, cosPi, iter).Err? <==> iter < cfg.warmupIters == 0
    ensures GetLrGuarded(cfg, cosPi, iter).Err? ==> GetLrGuarded(cfg, cosPi, iter).error == ZeroDivisionError
  {
    if cfg.warmupIters <= iter < cfg.maxIters {
      QuotientInUnit(iter - cfg.warmupIters, cfg.maxIters - cfg.warmupIters);
    }
  }

  /** Wherever the written schedule gives a rate, the guarded one gives the
      same rate: at iteration max the cosine has already reached the floor. */
  lemma GuardedAgreesWhereDefined(cfg: TrainerConfig, cosPi: real -> real, iter: int)
    requires IsCosPi(cosPi) && GetLr(cfg, cosPi, iter).Ok?
    ensures GetLrGuarded(cfg, cosPi, iter) == GetLr(cfg, cosPi, iter)
  {
    if cfg.warmupIters <= iter == cfg.maxIters {
      GetLrFailsExactly(cfg, cosPi, iter);
      ContinuousAtHorizon(cfg, cosPi);
    }
  }

  // ---------------------------------------------------------------------------
  // Warmup

  /** During warmup the rate is a linear ramp that uses iter + 1. */
  lemma WarmupIsLinear(cfg: TrainerConfig, cosPi: real -> real, iter: int)
    requires 0 <= iter < cfg.warmupIters
    ensures GetLr(cfg, cosPi, iter).Ok?
    ensures GetLr(cfg, cosPi, iter).value == cfg.maxLr * (iter + 1) as real / cfg.warmupIters as real
  {
  }

  /** With a positive peak the ramp is strictly increasing. */
  lemma WarmupStrictlyIncreasing(cfg: TrainerConfig, cosPi: real -> real, i: int, j: int)
    requires 0 <= i < j < cfg.warmupIters && cfg.maxLr > 0.0
    ensures GetLr(cfg, cosPi, i).Ok? && GetLr(cfg, cosPi, j).Ok?
    ensures GetLr(cfg, cosPi, i).value < GetLr(cfg, cosPi, j).value
  {
    var w := cfg.warmupIters as real;
    var a, b := cfg.maxLr * (i + 1) as real, cfg.maxLr * (j + 1) as real;
    assert a < b;
    assert a / w * w == a && b / w * w == b;
  }

  /** The very first step already uses a strictly positive rate. */
  lemma WarmupFirstRatePositive(cfg: TrainerConfig, cosPi: real -> real)
    requires 0 < cfg.warmupIters && cfg.maxLr > 0.0
    ensures GetLr(cfg, cosPi, 0).Ok? && GetLr(cfg, cosPi, 0).value > 0.0
  {
    var w := cfg.warmupIters as real;
    assert cfg.maxLr / w * w == cfg.maxLr;
  }

  /** The last warmup step reaches the peak rate exactly. */
  lemma WarmupEndsAtPeak(cfg: TrainerConfig, cosPi: real -> real)
    requires 0 < cfg.warmupIters
    ensures GetLr(cfg, cosPi, cfg.warmupIters - 1).Ok?
    ensures GetLr(cfg, cosPi, cfg.warmupIters - 1).value == cfg.maxLr
  {
    var w := cfg.warmupIters as real;
    assert cfg.maxLr * w / w == cfg.maxLr;
  }

  // ---------------------------------------------------------------------------
  // Decay and the floor

  /** The interpolation runs from the peak at ratio 0 ... */
  lemma CosineLrAtZero(cfg: TrainerConfig, cosPi: real -> real)
    requires IsCosPi(cosPi)
    ensures CosineLr(cfg, cosPi, 0.0) == cfg.maxLr
  {
  }

  /** ... to the floor at ratio 1 ... */
  lemma CosineLrAtOne(cfg: TrainerConfig, cosPi: real -> real)
    requires IsCosPi(cosPi)
    ensures CosineLr(cfg, cosPi, 1.0) == cfg.minLr
  {
  }

  /** ... staying between the two ... */
  lemma CosineLrBetween(cfg: TrainerConfig, cosPi: real -> real, ratio: real)
    requires IsCosPi(cosPi) && 0.0 <= ratio <= 1.0 && cfg.minLr <= cfg.maxLr
    ensures cfg.minLr <= CosineLr(cfg, cosPi, ratio) <= cfg.maxLr
  {
    assert -1.0 <= cosPi(ratio) <= 1.0;
    InterpolationBetween(cfg.minLr, cfg.maxLr, 0.5 * (1.0 + cosPi(ratio)));
  }

  /** ... and moving monotonically from the peak towards the floor. */
  lemma CosineLrMonotone(cfg: TrainerConfig, cosPi: real -> real, ratio: real, ratio': real)
    requires IsCosPi(cosPi) && 0.0 <= ratio <= ratio' <= 1.0
    ensures cfg.minLr <= cfg.maxLr ==> CosineLr(cfg, cosPi, ratio') <= CosineLr(cfg, cosPi, ratio)
    ensures cfg.maxLr <= cfg.minLr ==> CosineLr(cfg, cosPi, ratio) <= CosineLr(cfg, cosPi, ratio')
  {
    assert cosPi(ratio') <= cosPi(ratio);
    var c, c' := 0.5 * (1.0 + cosPi(ratio')), 0.5 * (1.0 + cosPi(ratio));
    if cfg.minLr <= cfg.maxLr {
      InterpolationMonotone(cfg.minLr, cfg.maxLr, c, c');
    }
    if cfg.maxLr <= cfg.minLr {
      InterpolationAntitone(cfg.minLr, cfg.maxLr, c, c');
    }
  }

  /** Between the end of warmup and the horizon the rate is the cosine
      interpolation at a ratio in [0, 1], which grows with the iteration. */
  lemma DecayIsCosine(cfg: TrainerConfig, cosPi: real -> real, iter: int)
    requires HasDecayPhase(cfg) && cfg.warmupIters <= iter <= cfg.maxIters
    ensures 0.0 <= DecayRatio(cfg, iter) <= 1.0
    ensures GetLr(cfg, cosPi, iter).Ok?
    ensures GetLr(cfg, cosPi, iter).value == CosineLr(cfg, cosPi, DecayRatio(cfg, iter))
  {
    QuotientInUnit(iter - cfg.warmupIters, cfg.maxIters - cfg.warmupIters);
  }

  lemma DecayRatioMonotone(cfg: TrainerConfig, i: int, j: int)
    requires HasDecayPhase(cfg) && i <= j
    ensures DecayRatio(cfg, i) <= DecayRatio(cfg, j)
  {
    QuotientMonotone(i - cfg.warmupIters, j - cfg.warmupIters, cfg.maxIters - cfg.warmupIters);
  }

  /** Past the horizon the rate is the floor. */
  lemma PastHorizonIsMinLr(cfg: TrainerConfig, cosPi: real -> real, iter: int)
    requires HasDecayPhase(cfg) && iter > cfg.maxIters
    ensures GetLr(cfg, cosPi, iter).Ok?
    ensures GetLr(cfg, cosPi, iter).value == cfg.minLr
  {
  }

  /** At iter == warmup the decay branch gives ratio 0, coefficient 1 and the
      peak rate: no jump between warmup and decay. */
  lemma ContinuousAtWarmupEnd(cfg: TrainerConfig, cosPi: real -> real)
    requires HasDecayPhase(cfg) && IsCosPi(cosPi)
    ensures DecayRatio(cfg, cfg.warmupIters) == 0.0
    ensures GetLr(cfg, cosPi, cfg.warmupIters).Ok?
    ensures GetLr(cfg, cosPi, cfg.warmupIters).value == cfg.maxLr
  {
    DecayIsCosine(cfg, cosPi, cfg.warmupIters);
    assert DecayRatio(cfg, cfg.warmupIters) == 0.0;
    CosineLrAtZero(cfg, cosPi);
  }

  /** At iter == max the decay branch gives ratio 1, coefficient 0 and the
      floor: the schedule is continuous at the horizon. */
  lemma ContinuousAtHorizon(cfg: TrainerConfig, cosPi: real -> real)
    requires HasDecayPhase(cfg) && IsCosPi(cosPi)
    ensures DecayRatio(cfg, cfg.maxIters) == 1.0
    ensures GetLr(cfg, cosPi, cfg.maxIters).Ok?
    ensures GetLr(cfg, cosPi, cfg.maxIters).value == cfg.minLr
  {
    DecayIsCosine(cfg, cosPi, cfg.maxIters);
    var d := (cfg.maxIters - cfg.warmupIters) as real;
    assert DecayRatio(cfg, cfg.maxIters) == d / d == 1.0;
    CosineLrAtOne(cfg, cosPi);
  }

  /** From the end of warmup on, a rate lies between the floor and the peak. */
  lemma DecayBetweenBounds(cfg: TrainerConfig, cosPi: real -> real, iter: int)
    requires HasDecayPhase(cfg) && IsCosPi(cosPi)
    requires cfg.warmupIters <= iter && cfg.minLr <= cfg.maxLr
    ensures GetLr(cfg, cosPi, iter).Ok?
    ensures cfg.minLr <= GetLr(cfg, cosPi, iter).value <= cfg.maxLr
  {
    if iter <= cfg.maxIters {
      DecayIsCosine(cfg, cosPi, iter);
      CosineLrBetween(cfg, cosPi, DecayRatio(cfg, iter));
    } else {
      PastHorizonIsMinLr(cfg, cosPi, iter);
    }
  }

  /** From the end of warmup on, the rate never increases when the floor is
      below the peak. */
  lemma DecayNonIncreasing(cfg: TrainerConfig, cosPi: real -> real, i: int, j: int)
    requires HasDecayPhase(cfg) && IsCosPi(cosPi)
    requires cfg.warmupIters <= i <= j && cfg.minLr <= cfg.maxLr
    ensures GetLr(cfg, cosPi, i).Ok? && GetLr(cfg, cosPi, j).Ok?
    ensures GetLr(cfg, cosPi, j).value <= GetLr(cfg, cosPi, i).value
  {
    DecayBetweenBounds(cfg, cosPi, i);
    DecayBetweenBounds(cfg, cosPi, j);
    if j <= cfg.maxIters {
      DecayIsCosine(cfg, cosPi, i);
      DecayIsCosine(cfg, cosPi, j);
      DecayRatioMonotone(cfg, i, j);
      CosineLrMonotone(cfg, cosPi, DecayRatio(cfg, i), DecayRatio(cfg, j));
    } else {
      PastHorizonIsMinLr(cfg, cosPi, j);
    }
  }

  /** Mirror image of `DecayNonIncreasing`: with the floor above the peak the
      decay phase never decreases. */
  lemma DecayRisesWhenInverted(cfg: TrainerConfig, cosPi: real -> real, i: int, j: int)
    requires HasDecayPhase(cfg) && IsCosPi(cosPi)
    requires cfg.warmupIters <= i <= j <= cfg.maxIters && cfg.maxLr <= cfg.minLr
    ensures GetLr(cfg, cosPi, i).Ok? && GetLr(cfg, cosPi, j).Ok?
    ensures GetLr(cfg, cosPi, i).value <= GetLr(cfg, cosPi, j).value
  {
    DecayIsCosine(cfg, cosPi, i);
    DecayIsCosine(cfg, cosPi, j);
    DecayRatioMonotone(cfg, i, j);
    CosineLrMonotone(cfg, cosPi, DecayRatio(cfg, i), DecayRatio(cfg, j));
  }

  /** With the floor above the peak (as in the constructor defaults) the
      decay phase rises instead of falling: the end of warmup is strictly
      below the horizon. */
  lemma InvertedBoundsDecayRises(cfg: TrainerConfig, cosPi: real -> real)
    requires HasDecayPhase(cfg) && IsCosPi(cosPi) && cfg.maxLr < cfg.minLr
    ensures GetLr(cfg, cosPi, cfg.warmupIters).Ok? && GetLr(cfg, cosPi, cfg.maxIters).Ok?
    ensures GetLr(cfg, cosPi, cfg.warmupIters).value < GetLr(cfg, cosPi, cfg.maxIters).value
  {
    ContinuousAtWarmupEnd(cfg, cosPi);
    ContinuousAtHorizon(cfg, cosPi);
  }

  /** A worked case: warmup 2, horizon 10, peak 0.1, floor 0.01. */
  lemma WorkedSchedule(cosPi: real -> real)
    requires IsCosPi(cosPi)
    ensures var cfg := TrainerConfig(1, 2, 10, 1, 0.1, 0.01, false);
      && GetLr(cfg, cosPi, 0) == Ok(0.05)
      && GetLr(cfg, cosPi, 1) == Ok(0.1)
      && GetLr(cfg, cosPi, 2) == Ok(0.1)
      && GetLr(cfg, cosPi, 10) == Ok(0.01)
  {
    var cfg := TrainerConfig(1, 2, 10, 1, 0.1, 0.01, false);
    ContinuousAtWarmupEnd(cfg, cosPi);
    ContinuousAtHorizon(cfg, cosPi);
  }
}
