/** Facts that span stages: the scoring stage's output read by the
    decision stage, the decision read by the notification stage, and the
    counter shared by admission control and scoring. The worked examples
    record what the code computes where the surrounding tests expect
    otherwise. */
module Pipeline {
  import opened Wrappers
  import opened CacheStore
  import opened ContextCache
  import opened RiskThresholds
  import opened Events
  import opened ScoringFactors
  import opened RiskCalculation
  import opened RiskEngine
  import opened DecisionRules
  import opened FraudDecision
  import CaseReview
  import RateLimit
  import Notifications

  /** Both services ship the same block and review thresholds. */
  lemma ThresholdsAgree()
    ensures Defaults.blockThreshold == DefaultProperties.blockThreshold == 0.80
    ensures Defaults.reviewThreshold == DefaultProperties.reviewThreshold == 0.60
  {
  }

  /** The admission counter is the frequency signal of scoring: every
      check, admitted or not, raises the count the risk engine reads by
      one. */
  lemma AdmissionFeedsFrequency(s: Store, userId: string, maxPerMinute: int)
    ensures RateLimit.CounterKey(userId) == TxnCountKey(userId)
    ensures GetRecentTxnCount(RateLimit.CheckRateLimit(s, userId, maxPerMinute).0, userId) == GetRecentTxnCount(s, userId) + 1
  {
  }

  /** The default composite is the clamped sum of the five factors. */
  lemma DefaultComposite(ev: TransactionCreatedEvent, ctx: RiskContext)
    ensures CompositeScore(DefaultFactors, Defaults, ev, ctx)
         == Clamp(AmountScore(Defaults, ev, ctx) + LocationScore(Defaults, ev, ctx) + MerchantScore(Defaults, ev, ctx)
                  + FrequencyScore(Defaults, ev, ctx) + FraudHistoryScore(Defaults, ev, ctx))
  {
    var cs := Contributions(DefaultFactors, Defaults, ev, ctx);
    assert cs == [AmountScore(Defaults, ev, ctx), LocationScore(Defaults, ev, ctx), MerchantScore(Defaults, ev, ctx),
                  FrequencyScore(Defaults, ev, ctx), FraudHistoryScore(Defaults, ev, ctx)];
    var a, l, m, f, h := cs[0], cs[1], cs[2], cs[3], cs[4];
    assert cs[..4] == [a, l, m, f] && cs[..4][..3] == [a, l, m] && [a, l, m][..2] == [a, l] && [a, l][..1] == [a];
    assert Sum([a]) == a by { assert [a][..0] == []; }
    assert Sum([a, l]) == a + l;
    assert Sum([a, l, m]) == a + l + m;
    assert Sum([a, l, m, f]) == a + l + m + f;
    assert Sum(cs) == a + l + m + f + h;
  }

  /** A user with no fraud history and at most five recent requests. */
  predicate QuietUser(cache: Store, userId: string) {
    GetRecentFraudCount(cache, userId) == 0 && GetRecentTxnCount(cache, userId) <= 5
  }

  /** 55,000 at "Lagos" with a "Crypto Exchange" merchant scores
      0.35 + 0.05 + 0.20 = 0.60 for a quiet user: MEDIUM, kept off the hot
      list, and sent to manual review rather than blocked. */
  lemma LagosCryptoIsReviewed(st: RiskEngineState, ev: TransactionCreatedEvent, eventId: string, scoredAt: int)
    requires ev.amount == Some(55000.0) && ev.location == Some("Lagos") && ev.merchantType == Some("Crypto Exchange")
    requires QuietUser(st.cache, ev.userId)
    ensures var r := Evaluate(st, DefaultFactors, Defaults, ev, eventId, scoredAt);
            var scored := r.outbox[|st.outbox|].payload;
            && scored.riskScore == 0.60
            && scored.riskLevel == "MEDIUM"
            && HotList(r.cache) == HotList(st.cache)
            && FirstMatch(DefaultChain, DefaultProperties, scored).Some?
            && FirstMatch(DefaultChain, DefaultProperties, scored).value.decision == REVIEW
  {
    var ctx := ReadContext(st.cache, ev.userId);
    LocationExamples(Defaults, ev, ctx);
    CryptoExchangeScoresHigh(Defaults, ev, ctx);
    assert ev.(location := Some("Lagos")) == ev;
    assert ev.(merchantType := Some("Crypto Exchange")) == ev;
    DefaultComposite(ev, ctx);
    assert ScoreFor(st, DefaultFactors, Defaults, ev) == 0.60;
    var r := Evaluate(st, DefaultFactors, Defaults, ev, eventId, scoredAt);
    DefaultChainMapping(DefaultProperties, r.outbox[|st.outbox|].payload);
  }

  /** 500 at "Mumbai" with a "Grocery" merchant scores
      0.05 + 0.05 + 0.05 = 0.15 for a quiet user: LOW and approved. */
  lemma MumbaiGroceryIsApproved(st: RiskEngineState, ev: TransactionCreatedEvent, eventId: string, scoredAt: int)
    requires ev.amount == Some(500.0) && ev.location == Some("Mumbai") && ev.merchantType == Some("Grocery")
    requires QuietUser(st.cache, ev.userId)
    ensures var r := Evaluate(st, DefaultFactors, Defaults, ev, eventId, scoredAt);
            var scored := r.outbox[|st.outbox|].payload;
            && scored.riskScore == 0.15
            && scored.riskLevel == "LOW"
            && FirstMatch(DefaultChain, DefaultProperties, scored) == Some(DecisionResult(APPROVE, APPROVED, None))
  {
    var ctx := ReadContext(st.cache, ev.userId);
    LocationExamples(Defaults, ev, ctx);
    EverydayMerchantsScoreLow(Defaults, ev, ctx);
    assert ev.(location := Some("Mumbai")) == ev;
    assert ev.(merchantType := Some("Grocery")) == ev;
    DefaultComposite(ev, ctx);
    assert ScoreFor(st, DefaultFactors, Defaults, ev) == 0.15;
    var r := Evaluate(st, DefaultFactors, Defaults, ev, eventId, scoredAt);
    DefaultChainMapping(DefaultProperties, r.outbox[|st.outbox|].payload);
  }

  /** "Lagos" is not a high-risk location: with every other input equal it
      scores exactly as "Mumbai" does. */
  lemma LagosScoresAsMumbai(factors: seq<Factor>, th: Thresholds, ev: TransactionCreatedEvent, ctx: RiskContext)
    ensures CompositeScore(factors, th, ev.(location := Some("Lagos")), ctx)
         == CompositeScore(factors, th, ev.(location := Some("Mumbai")), ctx)
  {
    LocationExamples(th, ev, ctx);
    var lagos := ev.(location := Some("Lagos"));
    var mumbai := ev.(location := Some("Mumbai"));
    forall i | 0 <= i < |factors|
      ensures Score(factors[i], th, lagos, ctx) == Score(factors[i], th, mumbai, ctx)
    {
      var sameExceptPlace := lagos.(location := mumbai.location);
      ScoreReadsTransactionFields(factors[i], th, mumbai, sameExceptPlace, ctx);
      assert sameExceptPlace == mumbai;
      match factors[i]
      case LocationFactor =>
      case _ =>
        assert Score(factors[i], th, lagos, ctx) == Score(factors[i], th, sameExceptPlace, ctx);
    }
    assert Contributions(factors, th, lagos, ctx) == Contributions(factors, th, mumbai, ctx);
  }

  /** The two stages draw the top boundary differently: a score of exactly
      0.80 is HIGH for scoring, so it enters the hot list, yet the decision
      stage only reviews it. */
  lemma BlockBoundaryDisagreement(ev: RiskScoredEvent)
    requires ev.riskScore == 0.80
    ensures DeriveRiskLevel(ev.riskScore) == HIGH
    ensures FirstMatch(DefaultChain, DefaultProperties, ev).Some?
    ensures FirstMatch(DefaultChain, DefaultProperties, ev).value.decision == REVIEW
  {
    DefaultChainMapping(DefaultProperties, ev);
  }

  /** A score of exactly 0.60 is saved as a REVIEW case, not an approval. */
  lemma ReviewBoundaryInclusive(st: DecisionState, ev: RiskScoredEvent, caseId: string, eventId: string, now: int)
    requires caseId !in st.cases && ev.riskScore == 0.60
    ensures var r := Process(st, DefaultChain, DefaultProperties, ev, caseId, eventId, now);
            && r.Success?
            && r.value.cases[caseId].decision == REVIEW
            && r.value.cases[caseId].status == PENDING
  {
    ProcessWithDefaultChain(st, DefaultProperties, ev, caseId, eventId, now);
    DefaultChainMapping(DefaultProperties, ev);
  }

  /** An analyst approval of a case saved as REVIEW sets its status to
      APPROVED and leaves its decision REVIEW. */
  lemma ApprovalKeepsReviewDecision(st: DecisionState, ev: RiskScoredEvent, caseId: string, eventId: string, now: int)
    requires caseId !in st.cases
    requires DefaultProperties.reviewThreshold <= ev.riskScore <= DefaultProperties.blockThreshold
    ensures var saved := Process(st, DefaultChain, DefaultProperties, ev, caseId, eventId, now);
            && saved.Success?
            && var reviewed := CaseReview.ReviewCase(saved.value.cases, caseId, "APPROVE");
               && reviewed.Success?
               && reviewed.value.cases[caseId].status == APPROVED
               && reviewed.value.cases[caseId].decision == REVIEW
               && reviewed.value.dto.decision == "REVIEW"
  {
    ProcessWithDefaultChain(st, DefaultProperties, ev, caseId, eventId, now);
    var saved := Process(st, DefaultChain, DefaultProperties, ev, caseId, eventId, now);
    CaseReview.NoPriorStatusGuard(saved.value.cases, caseId);
  }

  /** Every decision the decision stage publishes is delivered with its
      own template: BLOCK blocked, REVIEW under review, APPROVE approved. */
  lemma DecisionSelectsTemplate(d: Decision)
    ensures Notifications.KindOf(DecisionName(d)) ==
      match d
      case BLOCK => Notifications.BlockedMessage
      case REVIEW => Notifications.ReviewMessage
      case APPROVE => Notifications.ApprovedMessage
  {
  }

  /** Events published by the decision stage always carry a decision, so
      the notification stage never fails on them and records one e-mail
      naming the transaction. */
  lemma DecisionEventsAreNotified(st: DecisionState, ev: RiskScoredEvent, caseId: string, eventId: string, now: int,
                                  sent: seq<Notifications.Notification>)
    requires caseId !in st.cases
    ensures var r := Process(st, DefaultChain, DefaultProperties, ev, caseId, eventId, now);
            && r.Success?
            && var published := r.value.outbox[|st.outbox|].payload;
               && Notifications.ProcessDecision(sent, published).Success?
               && |Notifications.ProcessDecision(sent, published).value| == |sent| + 1
  {
    ProcessWithDefaultChain(st, DefaultProperties, ev, caseId, eventId, now);
  }
}
