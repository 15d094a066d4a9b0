/** The three event payloads that carry the pipeline from stage to stage. */
module Events {
  import opened Wrappers

  /** Published by ingestion, consumed by scoring. Amount, location and
      merchant type may be null in a payload; the factors handle that. */
  datatype TransactionCreatedEvent = TransactionCreatedEvent(
    eventId: string,
    transactionId: string,
    userId: string,
    amount: Option<real>,
    location: Option<string>,
    merchantType: Option<string>,
    timestamp: Option<int>)

  /** Published by scoring, consumed by decisioning. */
  datatype RiskScoredEvent = RiskScoredEvent(
    eventId: string,
    transactionId: string,
    userId: string,
    riskScore: real,
    riskLevel: string,
    scoredAt: int)

  /** The reason a rule attaches to a case. The source renders it with a
      format string; the model keeps the values that string interpolates. */
  datatype FlagReason =
    | ExceedsBlockThreshold(score: real, blockThreshold: real)
    | RequiresManualReview(score: real, reviewThreshold: real, blockThreshold: real)

  /** Published by decisioning, consumed by notification. The decision is
      a free-form string on the wire. */
  datatype FraudDecisionMadeEvent = FraudDecisionMadeEvent(
    eventId: string,
    caseId: string,
    transactionId: string,
    userId: string,
    decision: Option<string>,
    riskScore: real,
    flagReason: Option<FlagReason>,
    decidedAt: int)
}
