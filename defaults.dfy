/** The trainer's constructor defaults for the schedule (lines 48-53), and
    what they make the schedule do. */
module TrainerDefaults {
  import opened PyErrors
  import opened Config
  import opened LrSchedule

  /** The defaults as written: max_lr = 6e-4 and min_lr = 6e-3. */
  const DefaultConfig: TrainerConfig := TrainerConfig(1, 715, 19073, 1, 0.0006, 0.006, false)

  /** The defaults with the floor at a tenth of the peak, min_lr = 6e-5. */
  const CorrectedDefaultConfig: TrainerConfig := TrainerConfig(1, 715, 19073, 1, 0.0006, 0.00006, false)

  /** With the written defaults the "minimum" is ten times the "maximum", so
      the cosine phase climbs from 6e-4 at the end of warmup to 6e-3 at the
      horizon instead of decaying. */
  lemma DefaultLrBoundsInverted(cosPi: real -> real)
    requires IsCosPi(cosPi)
    ensures DefaultConfig.minLr > DefaultConfig.maxLr
    ensures GetLr(DefaultConfig, cosPi, 715) == Ok(0.0006)
    ensures GetLr(DefaultConfig, cosPi, 19073) == Ok(0.006)
    ensures forall i, j :: 715 <= i <= j <= 19073 ==>
      GetLr(DefaultConfig, cosPi, i).Ok? && GetLr(DefaultConfig, cosPi, j).Ok? &&
      GetLr(DefaultConfig, cosPi, i).value <= GetLr(DefaultConfig, cosPi, j).value
  {
    ContinuousAtWarmupEnd(DefaultConfig, cosPi);
    ContinuousAtHorizon(DefaultConfig, cosPi);
    forall i, j | 715 <= i <= j <= 19073
      ensures GetLr(DefaultConfig, cosPi, i).Ok? && GetLr(DefaultConfig, cosPi, j).Ok?
      ensures GetLr(DefaultConfig, cosPi, i).value <= GetLr(DefaultConfig, cosPi, j).value
    {
      DecayRisesWhenInverted(DefaultConfig, cosPi, i, j);
    }
  }

  /** With the corrected defaults the schedule peaks at 6e-4 right after
      warmup, decays without ever rising, and ends at 6e-5. */
  lemma CorrectedDefaultDecays(cosPi: real -> real, i: int, j: int)
    requires IsCosPi(cosPi) && 715 <= i <= j
    ensures CorrectedDefaultConfig.minLr < CorrectedDefaultConfig.maxLr
    ensures GetLr(CorrectedDefaultConfig, cosPi, 715) == Ok(0.0006)
    ensures GetLr(CorrectedDefaultConfig, cosPi, 19073) == Ok(0.00006)
    ensures GetLr(CorrectedDefaultConfig, cosPi, i).Ok? && GetLr(CorrectedDefaultConfig, cosPi, j).Ok?
    ensures 0.00006 <= GetLr(CorrectedDefaultConfig, cosPi, j).value
                    <= GetLr(CorrectedDefaultConfig, cosPi, i).value <= 0.0006
  {
    ContinuousAtWarmupEnd(CorrectedDefaultConfig, cosPi);
    ContinuousAtHorizon(CorrectedDefaultConfig, cosPi);
    DecayNonIncreasing(CorrectedDefaultConfig, cosPi, i, j);
    DecayBetweenBounds(CorrectedDefaultConfig, cosPi, i);
    DecayBetweenBounds(CorrectedDefaultConfig, cosPi, j);
  }
}
