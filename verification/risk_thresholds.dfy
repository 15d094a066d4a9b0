/** The scoring engine's configuration (the `risk:` property block) and
    facts about its defaults. */
module RiskThresholds {

  datatype Thresholds = Thresholds(
    highAmountThreshold: real,
    mediumAmountThreshold: real,
    amountHighScore: real,
    amountMediumScore: real,
    amountLowScore: real,
    locationHighScore: real,
    locationLowScore: real,
    merchantHighScore: real,
    merchantLowScore: real,
    frequencyHighThreshold: int,
    frequencyMedThreshold: int,
    frequencyHighScore: real,
    frequencyMedScore: real,
    fraudCountMultiplier: real,
    fraudCountMaxBonus: real,
    blockThreshold: real,
    reviewThreshold: real)

  /** The values the configuration class initialises its fields with. */
  const Defaults: Thresholds := Thresholds(
    highAmountThreshold := 10000.0,
    mediumAmountThreshold := 5000.0,
    amountHighScore := 0.35,
    amountMediumScore := 0.20,
    amountLowScore := 0.05,
    locationHighScore := 0.25,
    locationLowScore := 0.05,
    merchantHighScore := 0.20,
    merchantLowScore := 0.05,
    frequencyHighThreshold := 8,
    frequencyMedThreshold := 5,
    frequencyHighScore := 0.15,
    frequencyMedScore := 0.10,
    fraudCountMultiplier := 0.05,
    fraudCountMaxBonus := 0.20,
    blockThreshold := 0.80,
    reviewThreshold := 0.60)

  predicate InUnit(x: real) {
    0.0 <= x <= 1.0
  }

  /** Every configured weight is a legal partial score, and the per-incident
      multiplier is not negative: under this every factor honours the
      `[0, 1]` contract of a partial score. */
  predicate WeightsInUnit(th: Thresholds) {
    && InUnit(th.amountHighScore) && InUnit(th.amountMediumScore) && InUnit(th.amountLowScore)
    && InUnit(th.locationHighScore) && InUnit(th.locationLowScore)
    && InUnit(th.merchantHighScore) && InUnit(th.merchantLowScore)
    && InUnit(th.frequencyHighScore) && InUnit(th.frequencyMedScore)
    && InUnit(th.fraudCountMaxBonus) && 0.0 <= th.fraudCountMultiplier
  }

  /** Thresholds and weights ordered the way the defaults order them. */
  predicate Ordered(th: Thresholds) {
    && th.mediumAmountThreshold < th.highAmountThreshold
    && th.amountLowScore <= th.amountMediumScore <= th.amountHighScore
    && th.frequencyMedThreshold < th.frequencyHighThreshold
    && 0.0 <= th.frequencyMedScore < th.frequencyHighScore
    && th.locationLowScore <= th.locationHighScore
    && th.merchantLowScore <= th.merchantHighScore
    && th.reviewThreshold < th.blockThreshold
  }

  /** The most each factor can contribute, summed over the five factors. */
  function MaxTotal(th: Thresholds): real {
    th.amountHighScore + th.locationHighScore + th.merchantHighScore
      + th.frequencyHighScore + th.fraudCountMaxBonus
  }

  lemma DefaultsWellFormed()
    ensures WeightsInUnit(Defaults) && Ordered(Defaults)
  {
  }

  /** Under the defaults the fraud-history bonus saturates at the fourth
      incident: three stay below the cap, four reach it. */
  lemma DefaultBonusSaturatesAtFour()
    ensures 3.0 * Defaults.fraudCountMultiplier < Defaults.fraudCountMaxBonus
    ensures 4.0 * Defaults.fraudCountMultiplier == Defaults.fraudCountMaxBonus
  {
  }

  /** The factor maxima add up to 1.15, so the clamp to 1.0 can bite. */
  lemma DefaultMaximaExceedOne()
    ensures MaxTotal(Defaults) == 1.15
    ensures MaxTotal(Defaults) > 1.0
  {
  }
}
