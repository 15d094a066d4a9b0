/** The five table-driven scoring factors. Each maps a transaction and its
    behavioural context to a partial score read from the configuration. */
module ScoringFactors {
  import opened Wrappers
  import opened Text
  import opened RiskThresholds
  import opened Events

  /** Behavioural signals read from the cache just before scoring. */
  datatype RiskContext = RiskContext(recentFraudCount: int, txnFrequency: int)

  /** The registered factor implementations, as a closed set. */
  datatype Factor = AmountFactor | LocationFactor | MerchantFactor | FrequencyFactor | FraudHistoryFactor

  /** The factors of the running service. Their beans carry no ordering, so
      the order is whatever the container registers; the composite score
      does not depend on it. */
  const DefaultFactors: seq<Factor> :=
    [AmountFactor, LocationFactor, MerchantFactor, FrequencyFactor, FraudHistoryFactor]

  const HighRiskLocationKeywords: set<string> := {"UNKNOWN", "OFFSHORE", "FOREIGN", "ANONYMOUS"}

  const HighRiskMerchants: set<string> := {"CASINO", "CRYPTO", "GAMBLING", "CRYPTOCURRENCY", "DARKNET"}

  /** Some keyword occurs in the upper-cased text. */
  predicate MentionsAny(text: string, keywords: set<string>) {
    exists k :: k in keywords && Contains(ToUpper(text), k)
  }

  /** Amount tiers: strictly above the high threshold, strictly above the
      medium threshold, or neither; a missing amount is low. */
  function AmountScore(th: Thresholds, ev: TransactionCreatedEvent, ctx: RiskContext): (r: real)
    ensures ev.amount.None? ==> r == th.amountLowScore
    ensures ev.amount.Some? && ev.amount.value > th.highAmountThreshold ==> r == th.amountHighScore
    ensures ev.amount.Some? && th.mediumAmountThreshold < ev.amount.value <= th.highAmountThreshold
            ==> r == th.amountMediumScore
    ensures ev.amount.Some? && ev.amount.value <= th.mediumAmountThreshold && ev.amount.value <= th.highAmountThreshold
            ==> r == th.amountLowScore
    ensures r in {th.amountLowScore, th.amountMediumScore, th.amountHighScore}
  {
    match ev.amount
    case None => th.amountLowScore
    case Some(amount) =>
      if amount > th.highAmountThreshold then th.amountHighScore
      else if amount > th.mediumAmountThreshold then th.amountMediumScore
      else th.amountLowScore
  }

  /** High when the location is missing or mentions a high-risk keyword. */
  function LocationScore(th: Thresholds, ev: TransactionCreatedEvent, ctx: RiskContext): (r: real)
    ensures ev.location.None? ==> r == th.locationHighScore
    ensures ev.location.Some? && MentionsAny(ev.location.value, HighRiskLocationKeywords) ==> r == th.locationHighScore
    ensures ev.location.Some? && !MentionsAny(ev.location.value, HighRiskLocationKeywords) ==> r == th.locationLowScore
  {
    match ev.location
    case None => th.locationHighScore
    case Some(location) =>
      if MentionsAny(location, HighRiskLocationKeywords) then th.locationHighScore else th.locationLowScore
  }

  /** High only when the merchant type mentions a high-risk keyword; a
      missing merchant type is low, the opposite of a missing location. */
  function MerchantScore(th: Thresholds, ev: TransactionCreatedEvent, ctx: RiskContext): (r: real)
    ensures ev.merchantType.None? ==> r == th.merchantLowScore
    ensures ev.merchantType.Some? && MentionsAny(ev.merchantType.value, HighRiskMerchants) ==> r == th.merchantHighScore
    ensures ev.merchantType.Some? && !MentionsAny(ev.merchantType.value, HighRiskMerchants) ==> r == th.merchantLowScore
  {
    match ev.merchantType
    case None => th.merchantLowScore
    case Some(merchant) =>
      if MentionsAny(merchant, HighRiskMerchants) then th.merchantHighScore else th.merchantLowScore
  }

  /** Velocity tiers over the context's transaction count; the low tier
      adds nothing. */
  function FrequencyScore(th: Thresholds, ev: TransactionCreatedEvent, ctx: RiskContext): (r: real)
    ensures ctx.txnFrequency > th.frequencyHighThreshold ==> r == th.frequencyHighScore
    ensures th.frequencyMedThreshold < ctx.txnFrequency <= th.frequencyHighThreshold ==> r == th.frequencyMedScore
    ensures ctx.txnFrequency <= th.frequencyMedThreshold && ctx.txnFrequency <= th.frequencyHighThreshold ==> r == 0.0
  {
    if ctx.txnFrequency > th.frequencyHighThreshold then th.frequencyHighScore
    else if ctx.txnFrequency > th.frequencyMedThreshold then th.frequencyMedScore
    else 0.0
  }

  /** A capped linear bonus per recent fraud incident. */
  function FraudHistoryScore(th: Thresholds, ev: TransactionCreatedEvent, ctx: RiskContext): (r: real)
    ensures ctx.recentFraudCount <= 0 ==> r == 0.0
    ensures ctx.recentFraudCount > 0 ==> r <= th.fraudCountMaxBonus
    ensures ctx.recentFraudCount > 0 ==> r <= ctx.recentFraudCount as real * th.fraudCountMultiplier
    ensures ctx.recentFraudCount > 0 ==>
              r == th.fraudCountMaxBonus || r == ctx.recentFraudCount as real * th.fraudCountMultiplier
  {
    if ctx.recentFraudCount <= 0 then 0.0
    else
      var bonus := ctx.recentFraudCount as real * th.fraudCountMultiplier;
      if bonus <= th.fraudCountMaxBonus then bonus else th.fraudCountMaxBonus
  }

  /** One factor's partial score (`RiskScoringFactor.score`). */
  function Score(f: Factor, th: Thresholds, ev: TransactionCreatedEvent, ctx: RiskContext): real {
    match f
    case AmountFactor => AmountScore(th, ev, ctx)
    case LocationFactor => LocationScore(th, ev, ctx)
    case MerchantFactor => MerchantScore(th, ev, ctx)
    case FrequencyFactor => FrequencyScore(th, ev, ctx)
    case FraudHistoryFactor => FraudHistoryScore(th, ev, ctx)
  }

  /** Every factor keeps its partial score inside `[0, 1]` whenever the
      configured weights do. */
  lemma ScoreInUnit(f: Factor, th: Thresholds, ev: TransactionCreatedEvent, ctx: RiskContext)
    requires WeightsInUnit(th)
    ensures InUnit(Score(f, th, ev, ctx))
  {
    if f == FraudHistoryFactor && ctx.recentFraudCount > 0 {
      assert ctx.recentFraudCount as real * th.fraudCountMultiplier >= 0.0;
    }
  }

  /** The amount factor never scores a larger amount lower, given weights
      ordered as in the defaults (the thresholds need no ordering). */
  lemma AmountScoreMonotone(th: Thresholds, ev1: TransactionCreatedEvent, ev2: TransactionCreatedEvent, ctx: RiskContext)
    requires th.amountLowScore <= th.amountMediumScore <= th.amountHighScore
    requires ev1.amount.Some? && ev2.amount.Some? && ev1.amount.value <= ev2.amount.value
    ensures AmountScore(th, ev1, ctx) <= AmountScore(th, ev2, ctx)
  {
  }

  /** The frequency factor never scores a larger count lower. */
  lemma FrequencyScoreMonotone(th: Thresholds, ev: TransactionCreatedEvent, ctx1: RiskContext, ctx2: RiskContext)
    requires 0.0 <= th.frequencyMedScore <= th.frequencyHighScore
    requires ctx1.txnFrequency <= ctx2.txnFrequency
    ensures FrequencyScore(th, ev, ctx1) <= FrequencyScore(th, ev, ctx2)
  {
  }

  /** The fraud-history factor never scores a larger count lower. */
  lemma FraudHistoryScoreMonotone(th: Thresholds, ev: TransactionCreatedEvent, ctx1: RiskContext, ctx2: RiskContext)
    requires 0.0 <= th.fraudCountMultiplier && 0.0 <= th.fraudCountMaxBonus
    requires ctx1.recentFraudCount <= ctx2.recentFraudCount
    ensures FraudHistoryScore(th, ev, ctx1) <= FraudHistoryScore(th, ev, ctx2)
  {
    var c1, c2 := ctx1.recentFraudCount as real, ctx2.recentFraudCount as real;
    if 0 < ctx1.recentFraudCount {
      CapMonotone(FraudHistoryScore(th, ev, ctx1), FraudHistoryScore(th, ev, ctx2),
                  c1, c2, th.fraudCountMultiplier, th.fraudCountMaxBonus);
    } else if 0 < ctx2.recentFraudCount {
      MulMonotone(0.0, c2, th.fraudCountMultiplier);
    }
  }

  /** A capped bonus grows with the count it scales. */
  lemma CapMonotone(r1: real, r2: real, c1: real, c2: real, m: real, cap: real)
    requires c1 <= c2 && 0.0 <= m
    requires r1 <= cap && r1 <= c1 * m
    requires r2 == cap || r2 == c2 * m
    ensures r1 <= r2
  {
    MulMonotone(c1, c2, m);
  }

  /** Scaling by a non-negative weight keeps the order. */
  lemma MulMonotone(a: real, b: real, m: real)
    requires a <= b && 0.0 <= m
    ensures a * m <= b * m
  {
    assert b * m - a * m == (b - a) * m;
  }

  /** Under the defaults, four incidents already earn the full bonus, so
      every larger count scores the same. */
  lemma FraudHistorySaturates(ev: TransactionCreatedEvent, ctx: RiskContext)
    requires ctx.recentFraudCount >= 4
    ensures FraudHistoryScore(Defaults, ev, ctx) == Defaults.fraudCountMaxBonus
  {
    assert ctx.recentFraudCount as real * 0.05 >= 0.20;
  }

  /** Which inputs each factor reads: amount, location and merchant ignore
      the context; frequency and fraud history ignore the transaction. */
  lemma FactorInputs(th: Thresholds, ev1: TransactionCreatedEvent, ev2: TransactionCreatedEvent, ctx1: RiskContext, ctx2: RiskContext)
    ensures AmountScore(th, ev1, ctx1) == AmountScore(th, ev1, ctx2)
    ensures LocationScore(th, ev1, ctx1) == LocationScore(th, ev1, ctx2)
    ensures MerchantScore(th, ev1, ctx1) == MerchantScore(th, ev1, ctx2)
    ensures FrequencyScore(th, ev1, ctx1) == FrequencyScore(th, ev2, ctx1)
    ensures FraudHistoryScore(th, ev1, ctx1) == FraudHistoryScore(th, ev2, ctx1)
  {
  }

  /** Keyword matching is case-insensitive: texts that agree once
      upper-cased score the same. */
  lemma MatchingIgnoresCase(th: Thresholds, ev1: TransactionCreatedEvent, ev2: TransactionCreatedEvent, ctx: RiskContext)
    requires ev1.location.Some? && ev2.location.Some? && EqualsIgnoreCase(ev1.location.value, ev2.location.value)
    requires ev1.merchantType.Some? && ev2.merchantType.Some?
    requires EqualsIgnoreCase(ev1.merchantType.value, ev2.merchantType.value)
    ensures LocationScore(th, ev1, ctx) == LocationScore(th, ev2, ctx)
    ensures MerchantScore(th, ev1, ctx) == MerchantScore(th, ev2, ctx)
  {
  }

  /** CRYPTOCURRENCY adds nothing to the merchant keywords: any text that
      contains it contains CRYPTO. */
  lemma CryptocurrencyRedundant(text: string)
    ensures MentionsAny(text, HighRiskMerchants) <==> MentionsAny(text, HighRiskMerchants - {"CRYPTOCURRENCY"})
  {
    if Contains(ToUpper(text), "CRYPTOCURRENCY") {
      assert "CRYPTOCURRENCY"[..6] == "CRYPTO";
      assert Contains("CRYPTOCURRENCY", "CRYPTO");
      ContainsTransitive(ToUpper(text), "CRYPTOCURRENCY", "CRYPTO");
      assert "CRYPTO" in HighRiskMerchants - {"CRYPTOCURRENCY"};
    }
  }

  /** Every location keyword is longer than six letters, so no text of six
      letters or fewer can mention one. */
  lemma ShortTextMentionsNoLocation(text: string)
    requires |text| <= 6
    ensures !MentionsAny(text, HighRiskLocationKeywords)
  {
    forall k | k in HighRiskLocationKeywords
      ensures !Contains(ToUpper(text), k)
    {
      NotContainsLonger(ToUpper(text), k);
    }
  }

  /** Matching is by substring: "Unknownville" is high risk, and "offshore"
      scores as "OFFSHORE" does; city names such as "Lagos" and "Mumbai"
      match no keyword and score low. */
  lemma {:induction false} LocationExamples(th: Thresholds, ev: TransactionCreatedEvent, ctx: RiskContext)
    ensures LocationScore(th, ev.(location := Some("Unknownville")), ctx) == th.locationHighScore
    ensures LocationScore(th, ev.(location := Some("offshore")), ctx) == th.locationHighScore
    ensures LocationScore(th, ev.(location := Some("OFFSHORE")), ctx) == th.locationHighScore
    ensures LocationScore(th, ev.(location := Some("Lagos")), ctx) == th.locationLowScore
    ensures LocationScore(th, ev.(location := Some("Mumbai")), ctx) == th.locationLowScore
  {
    assert ToUpper("Unknownville") == "UNKNOWNVILLE";
    assert StartsWith("UNKNOWNVILLE", "UNKNOWN");
    assert ToUpper("offshore") == "OFFSHORE";
    assert ToUpper("OFFSHORE") == "OFFSHORE";
    assert StartsWith("OFFSHORE", "OFFSHORE");
    ShortTextMentionsNoLocation("Lagos");
    ShortTextMentionsNoLocation("Mumbai");
  }

  /** "Crypto Exchange" mentions CRYPTO and scores high. */
  lemma CryptoExchangeScoresHigh(th: Thresholds, ev: TransactionCreatedEvent, ctx: RiskContext)
    ensures MerchantScore(th, ev.(merchantType := Some("Crypto Exchange")), ctx) == th.merchantHighScore
  {
    assert "Crypto Exchange"[..6] == "Crypto";
    assert ToUpper("Crypto") == "CRYPTO";
    HighMerchant(th, ev, ctx, "Crypto Exchange");
  }

  /** "E-Commerce" and "Grocery" mention no merchant keyword and score low. */
  lemma EverydayMerchantsScoreLow(th: Thresholds, ev: TransactionCreatedEvent, ctx: RiskContext)
    ensures MerchantScore(th, ev.(merchantType := Some("E-Commerce")), ctx) == th.merchantLowScore
    ensures MerchantScore(th, ev.(merchantType := Some("Grocery")), ctx) == th.merchantLowScore
  {
    assert MerchantScore(th, ev.(merchantType := Some("E-Commerce")), ctx) == th.merchantLowScore by {
      assert ToUpper("E-Commerce") == "E-COMMERCE";
      LowMerchant(th, ev, ctx, "E-Commerce");
    }
    assert MerchantScore(th, ev.(merchantType := Some("Grocery")), ctx) == th.merchantLowScore by {
      assert ToUpper("Grocery") == "GROCERY";
      LowMerchant(th, ev, ctx, "Grocery");
    }
  }

  /** A merchant type whose first six letters upper-case to CRYPTO scores high. */
  lemma HighMerchant(th: Thresholds, ev: TransactionCreatedEvent, ctx: RiskContext, merchant: string)
    requires 6 <= |merchant| && ToUpper(merchant[..6]) == "CRYPTO"
    ensures MerchantScore(th, ev.(merchantType := Some(merchant)), ctx) == th.merchantHighScore
  {
    ToUpperPrefix(merchant, 6);
    assert StartsWith(ToUpper(merchant), "CRYPTO");
    assert "CRYPTO" in HighRiskMerchants && Contains(ToUpper(merchant), "CRYPTO");
  }

  /** A merchant type that upper-cases to E-COMMERCE or GROCERY scores low. */
  lemma LowMerchant(th: Thresholds, ev: TransactionCreatedEvent, ctx: RiskContext, merchant: string)
    requires ToUpper(merchant) == "E-COMMERCE" || ToUpper(merchant) == "GROCERY"
    ensures MerchantScore(th, ev.(merchantType := Some(merchant)), ctx) == th.merchantLowScore
  {
    NoMerchantIn(ToUpper(merchant));
    assert !MentionsAny(merchant, HighRiskMerchants);
  }

  /** `k` does not occur in `text` when one of its characters never
      appears in `text`. */
  lemma NoOccurrenceByChar(text: string, k: string, j: nat)
    requires j < |k| && k[j] !in text
    ensures !Contains(text, k)
  {
    forall i | 0 <= i && i + |k| <= |text|
      ensures !OccursAt(text, k, i)
    {
      assert text[i..i + |k|][j] == text[i + j];
    }
    ContainsIffOccurs(text, k);
  }

  /** Upper-case texts that mention none of the merchant keywords: each
      keyword has a letter the text lacks. */
  lemma NoMerchantIn(text: string)
    requires text == "E-COMMERCE" || text == "GROCERY"
    ensures forall k :: k in HighRiskMerchants ==> !Contains(text, k)
  {
    if text == "E-COMMERCE" {
      NoOccurrenceByChar(text, "CASINO", 1);
      NoOccurrenceByChar(text, "CRYPTO", 2);
      NoOccurrenceByChar(text, "GAMBLING", 1);
      NoOccurrenceByChar(text, "CRYPTOCURRENCY", 2);
      NoOccurrenceByChar(text, "DARKNET", 0);
    } else {
      NoOccurrenceByChar(text, "CASINO", 1);
      NoOccurrenceByChar(text, "CRYPTO", 3);
      NoOccurrenceByChar(text, "GAMBLING", 1);
      NoOccurrenceByChar(text, "CRYPTOCURRENCY", 3);
      NoOccurrenceByChar(text, "DARKNET", 0);
    }
  }

  /** A factor reads the transaction only through its amount, location
      and merchant type. */
  lemma ScoreReadsTransactionFields(f: Factor, th: Thresholds, ev1: TransactionCreatedEvent, ev2: TransactionCreatedEvent, ctx: RiskContext)
    requires ev1.amount == ev2.amount && ev1.location == ev2.location && ev1.merchantType == ev2.merchantType
    ensures Score(f, th, ev1, ctx) == Score(f, th, ev2, ctx)
  {
  }
}
