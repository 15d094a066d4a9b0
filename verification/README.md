# Fraud-detection pipeline — a Dafny model

This project models the core logic of an event-driven fraud-detection
pipeline built from five services:

- **Ingestion.** The transaction service admits a request under a per-user
  rate limit and persists the transaction entity. It publishes a
  `transactions.created` event.
- **Scoring.** The risk engine reads the user's behavioural context from the
  cache and sums five table-driven scoring factors. It clamps the total at
  1.0, derives a risk level, and caches the result. It upserts the user's
  risk profile, pushes HIGH transactions onto a bounded hot list, and
  publishes `risk.scored`.
- **Decision.** The fraud-decision service runs an ordered rule chain:
  Block, then Review, then the Approve fallback. It saves one fraud case
  and publishes `fraud.decision.made`. Analysts can read cases and review
  them.
- **Notification.** The notification service turns each decision into a
  user-facing e-mail record.
- **Analytics.** A daily batch step folds yesterday's cases, in chunks of
  100, into one aggregated metric row per date.

How the model represents the system:

- Everything is a pure function over immutable values.
- Redis is a `Store` of counters, hashes, lists and time-to-live entries.
  A key's expiry is an explicit `Evict` step.
- Each Kafka topic is an outbox sequence. Each JPA table is a map keyed by
  its business key.
- Generated UUIDs and clock readings are parameters.
- Scores are exact `real`s.

Where the code and the surrounding tests disagree, the
model follows the code. The disagreements are stated as lemmas (module
`Pipeline`, `DailyAnalytics.FraudCountsBlockOnly`):

- `FraudDecisionConsumerTest` expects a score of exactly 0.60 to be
  approved. The Review rule is inclusive, so the case is reviewed.
- `RiskCalculationServiceTest` expects "Lagos" to score above "Mumbai".
  "Lagos" matches no location keyword, so the two score the same.
- `FraudDecisionServiceIT` expects an approved review to turn the decision
  into APPROVE. Review sets only the status.
- `AnalyticsBatchJobIT` expects the fraud count to be BLOCK plus REVIEW
  (8, rate 0.40). The processor counts BLOCK rows only (5, rate 0.25).

For a quiet user, 500 at Mumbai with a Grocery merchant scores
0.05 + 0.05 + 0.05 = 0.15 and is approved
(`Pipeline.MumbaiGroceryIsApproved`).

## Model

| member | source | states |
|---|---|---|
| EventBus.Publish | risk-engine-service/src/main/java/com/frauddetection/riskengine/service/RiskEngineService.java:75-84 | Sending appends exactly one message with the given topic, key and payload; everything already published stays in place and in order. |
| CacheStore.Incr | transaction-service/src/main/java/com/frauddetection/transaction/service/RateLimitService.java:45-60 | INCR: an absent key counts as 0; the returned value is the new stored value; no other key, hash, list or expiry changes. |
| CacheStore.SetHash | risk-engine-service/src/main/java/com/frauddetection/riskengine/service/RedisCacheService.java:24-46 | Writing a hash replaces only that key's hash; every other hash, counter, list and expiry is kept. |
| CacheStore.LPush | risk-engine-service/src/main/java/com/frauddetection/riskengine/service/RedisCacheService.java:55-59 | LPUSH puts the new element in front of the existing list. Every other list, and all counters, hashes and lifetimes, are unchanged. |
| CacheStore.LTrimHead | risk-engine-service/src/main/java/com/frauddetection/riskengine/service/RedisCacheService.java:55-59 | LTRIM 0..n-1 keeps exactly the first n elements (the whole list when shorter), so the list never exceeds n. Every other list, and all counters, hashes and lifetimes, are unchanged. |
| CacheStore.Expire | transaction-service/src/main/java/com/frauddetection/transaction/service/RateLimitService.java:49-52 | EXPIRE attaches the lifetime to an existing key and is a no-op on a missing one. Every other key keeps its lifetime, or its lack of one. |
| CacheStore.Evict | transaction-service/src/main/java/com/frauddetection/transaction/service/RateLimitService.java:49-52 | When a lifetime elapses the key reads as absent (null counter, empty hash, empty list) and has no lifetime. Every other key keeps its counter, hash, list and lifetime. |
| RiskThresholds.DefaultsWellFormed | risk-engine-service/src/main/java/com/frauddetection/riskengine/config/RiskThresholds.java:48-75 | The shipped defaults are legal partial scores in [0, 1], with thresholds and weights ordered low to high. |
| RiskThresholds.DefaultBonusSaturatesAtFour | risk-engine-service/src/main/java/com/frauddetection/riskengine/config/RiskThresholds.java:69-70 | With multiplier 0.05 and cap 0.20, three incidents stay below the cap and four reach it. |
| RiskThresholds.DefaultMaximaExceedOne | risk-engine-service/src/main/java/com/frauddetection/riskengine/config/RiskThresholds.java:48-70 | The five factors' maxima add up to 1.15, so the clamp at 1.0 is reachable. |
| ScoringFactors.AmountScore | risk-engine-service/src/main/java/com/frauddetection/riskengine/service/scoring/AmountScoringFactor.java:22-35 | Tiers: above the high threshold scores high, above the medium threshold (but not high) scores medium, otherwise low. A missing amount is low. The result is always one of the three configured weights. |
| ScoringFactors.LocationScore | risk-engine-service/src/main/java/com/frauddetection/riskengine/service/scoring/LocationScoringFactor.java:21-37 | A missing location, or one mentioning a high-risk keyword after upper-casing, scores high; every other location scores low. |
| ScoringFactors.MerchantScore | risk-engine-service/src/main/java/com/frauddetection/riskengine/service/scoring/MerchantScoringFactor.java:23-38 | A merchant type mentioning a high-risk keyword scores high; any other, including a missing one, scores low. |
| ScoringFactors.FrequencyScore | risk-engine-service/src/main/java/com/frauddetection/riskengine/service/scoring/FrequencyScoringFactor.java:21-31 | A count above the high threshold earns the high score, above the medium threshold the medium score, otherwise 0. |
| ScoringFactors.FraudHistoryScore | risk-engine-service/src/main/java/com/frauddetection/riskengine/service/scoring/FraudHistoryScoringFactor.java:20-28 | No incidents score 0; otherwise the count times the multiplier, capped at the maximum bonus. |
| ScoringFactors.ScoreInUnit | risk-engine-service/src/main/java/com/frauddetection/riskengine/service/scoring/RiskScoringFactor.java:29-31 | Every factor honours the [0, 1] partial-score contract whenever the configured weights lie in [0, 1]. |
| ScoringFactors.AmountScoreMonotone | risk-engine-service/src/main/java/com/frauddetection/riskengine/service/scoring/AmountScoringFactor.java:22-35 | With weights ordered as the defaults order them, a larger amount never scores lower. |
| ScoringFactors.FrequencyScoreMonotone | risk-engine-service/src/main/java/com/frauddetection/riskengine/service/scoring/FrequencyScoringFactor.java:21-31 | With ordered weights, a larger recent-transaction count never scores lower. |
| ScoringFactors.FraudHistoryScoreMonotone | risk-engine-service/src/main/java/com/frauddetection/riskengine/service/scoring/FraudHistoryScoringFactor.java:20-28 | With a non-negative multiplier, more fraud incidents never score lower. |
| ScoringFactors.FraudHistorySaturates | risk-engine-service/src/main/java/com/frauddetection/riskengine/service/scoring/FraudHistoryScoringFactor.java:20-28 | Under the defaults every count of four or more earns exactly the 0.20 cap. |
| ScoringFactors.FactorInputs | risk-engine-service/src/main/java/com/frauddetection/riskengine/service/scoring/RiskScoringFactor.java:29-31 | Amount, location and merchant read only the transaction; frequency and fraud history read only the context. |
| ScoringFactors.ScoreReadsTransactionFields | risk-engine-service/src/main/java/com/frauddetection/riskengine/service/scoring/RiskScoringFactor.java:29-31 | Two events that agree on amount, location and merchant type get the same score from every factor. |
| ScoringFactors.MatchingIgnoresCase | risk-engine-service/src/main/java/com/frauddetection/riskengine/service/scoring/LocationScoringFactor.java:25-37 | Locations or merchant types that agree once upper-cased score the same. |
| ScoringFactors.CryptocurrencyRedundant | risk-engine-service/src/main/java/com/frauddetection/riskengine/service/scoring/MerchantScoringFactor.java:23-24 | Any text containing CRYPTOCURRENCY also contains CRYPTO, so that keyword never changes a score. |
| ScoringFactors.ShortTextMentionsNoLocation | risk-engine-service/src/main/java/com/frauddetection/riskengine/service/scoring/LocationScoringFactor.java:21-22 | Every location keyword has at least seven letters, so no text of six characters or fewer matches one. |
| ScoringFactors.LocationExamples | risk-engine-service/src/main/java/com/frauddetection/riskengine/service/scoring/LocationScoringFactor.java:21-37 | Matching is by substring: "Unknownville" and "offshore" score high, "Lagos" and "Mumbai" score low. |
| ScoringFactors.CryptoExchangeScoresHigh | risk-engine-service/src/main/java/com/frauddetection/riskengine/service/scoring/MerchantScoringFactor.java:23-38 | "Crypto Exchange" contains CRYPTO once upper-cased and scores high. |
| ScoringFactors.EverydayMerchantsScoreLow | risk-engine-service/src/main/java/com/frauddetection/riskengine/service/scoring/MerchantScoringFactor.java:23-38 | "E-Commerce" and "Grocery" mention no merchant keyword and score low. |
| ScoringFactors.NoMerchantIn | risk-engine-service/src/main/java/com/frauddetection/riskengine/service/scoring/MerchantScoringFactor.java:23-24 | E-COMMERCE and GROCERY each lack a letter of every merchant keyword, so neither mentions one. |
| RiskCalculation.Contributions | risk-engine-service/src/main/java/com/frauddetection/riskengine/service/RiskCalculationService.java:41-52 | One partial score per registered factor, in registration order, each that factor's own score. |
| RiskCalculation.CalculateRiskScore | risk-engine-service/src/main/java/com/frauddetection/riskengine/service/RiskCalculationService.java:41-52 | The accumulation loop returns the clamped sum of all contributions. The score never exceeds 1.0, and with legal weights it is never negative. |
| RiskCalculation.CompositeInUnit | risk-engine-service/src/main/java/com/frauddetection/riskengine/service/RiskCalculationService.java:41-52 | For any contributions in [0, 1] the composite lies in [0, 1]: the clamp gives the upper bound, the factors give the lower one. |
| RiskCalculation.CompositeScoreInUnit | risk-engine-service/src/main/java/com/frauddetection/riskengine/service/RiskCalculationService.java:41-52 | With legal weights, the composite of any factor list lies in [0, 1]. |
| RiskCalculation.CompositeMonotone | risk-engine-service/src/main/java/com/frauddetection/riskengine/service/RiskCalculationService.java:41-52 | Raising any contribution never lowers the composite score. |
| RiskCalculation.SumPermutation | risk-engine-service/src/main/java/com/frauddetection/riskengine/service/RiskCalculationService.java:44-49 | Any permutation of the contributions has the same exact sum. |
| RiskCalculation.FactorOrderIrrelevant | risk-engine-service/src/main/java/com/frauddetection/riskengine/service/RiskCalculationService.java:41-52 | The factor beans carry no order, and the composite is the same for every ordering of the factor list. |
| RiskCalculation.MultisetMapped | risk-engine-service/src/main/java/com/frauddetection/riskengine/service/RiskCalculationService.java:44-49 | Permuting the factors permutes their contributions. |
| RiskCalculation.DeriveRiskLevel | risk-engine-service/src/main/java/com/frauddetection/riskengine/service/RiskCalculationService.java:59-65 | HIGH iff the score is at least 0.80; MEDIUM iff it is in [0.60, 0.80); LOW iff it is below 0.60. |
| RiskCalculation.RiskLevelMonotone | risk-engine-service/src/main/java/com/frauddetection/riskengine/service/RiskCalculationService.java:59-65 | A higher score never yields a lower level. |
| RiskCalculation.RiskLevelIgnoresThresholds | risk-engine-service/src/main/java/com/frauddetection/riskengine/service/RiskCalculationService.java:59-65 | The level agrees with the configured thresholds only under the defaults. With a block threshold of 0.9, a score of 0.85 is still HIGH. |
| ContextCache.PrefixedKeyInjective | risk-engine-service/src/main/java/com/frauddetection/riskengine/service/RedisCacheService.java:18-21 | Prefixed cache keys of different users never collide. |
| ContextCache.GetCachedRiskScore | risk-engine-service/src/main/java/com/frauddetection/riskengine/service/RedisCacheService.java:32-35 | A missing hash or a missing score field reads as null rather than failing; otherwise the stored score. |
| ContextCache.GetRecentFraudCount | risk-engine-service/src/main/java/com/frauddetection/riskengine/service/RedisCacheService.java:37-40 | The hash's fraud-count field when present, 0 when absent. |
| ContextCache.GetRecentTxnCount | risk-engine-service/src/main/java/com/frauddetection/riskengine/service/RedisCacheService.java:49-52 | The user's request counter when present, 0 when absent. |
| ContextCache.CacheRiskScore | risk-engine-service/src/main/java/com/frauddetection/riskengine/service/RedisCacheService.java:24-30 | Afterwards the cached score and level read back as written and the fraud count is unchanged. The hash gets a 24-hour lifetime. Other users' hashes, the counters and the lists are untouched. |
| ContextCache.IncrementFraudCount | risk-engine-service/src/main/java/com/frauddetection/riskengine/service/RedisCacheService.java:42-46 | The fraud count reads one higher and score and level are kept. The lifetime is renewed to 24 hours. Nothing else changes. |
| ContextCache.CachedRiskScoreLifecycle | risk-engine-service/src/main/java/com/frauddetection/riskengine/service/RedisCacheService.java:24-46 | A cached score reads back as written and is not disturbed by another user's write or by a fraud-count increment. Once the hash's lifetime elapses it reads as null again. |
| ContextCache.AddToHotList | risk-engine-service/src/main/java/com/frauddetection/riskengine/service/RedisCacheService.java:55-59 | The new id is at the head, followed by the previous list's first 99 ids in order. The list never exceeds 100 entries and gets a 24-hour lifetime. Other lists and lifetimes, the counters and the hashes are unchanged. |
| RiskEngine.UpsertRiskProfile | risk-engine-service/src/main/java/com/frauddetection/riskengine/service/RiskEngineService.java:89-100 | The user's profile is found or created and receives the new score, level, fraud count and frequency. Its top factor is kept. Other users' profiles are unchanged, and the table stays keyed by user id. |
| RiskEngine.Evaluate | risk-engine-service/src/main/java/com/frauddetection/riskengine/service/RiskEngineService.java:55-87 | The score comes from the cached context. It is cached with its level, written to the profile, and published as one `risk.scored` message. The transaction joins the hot list iff the level is HIGH. Fraud counts and request counters are unchanged. |
| RiskEngine.EvaluatePreservesInvariants | risk-engine-service/src/main/java/com/frauddetection/riskengine/service/RiskEngineService.java:55-87 | Evaluation keeps the profile table keyed by user, and with legal weights the published score lies in [0, 1]. |
| DecisionRules.DefaultChainSorted | fraud-decision-service/src/main/java/com/frauddetection/frauddecision/rule/BlockDecisionRule.java:15 | The injected chain is strictly ordered by the rules' `@Order` priorities and ends in the Approve fallback. Block is 1 here, Review is 2 (ReviewDecisionRule.java:15) and Approve is 3 (ApproveDecisionRule.java:14). |
| DecisionRules.Apply | fraud-decision-service/src/main/java/com/frauddetection/frauddecision/rule/BlockDecisionRule.java:27-35 | Block yields BLOCK/BLOCKED with a reason, Review yields REVIEW/PENDING with a reason, and Approve yields APPROVE/APPROVED with none. |
| DecisionRules.RulesReadOnlyTheScore | fraud-decision-service/src/main/java/com/frauddetection/frauddecision/rule/ReviewDecisionRule.java:22-37 | Events with the same score get the same verdict from every rule. |
| DecisionRules.FirstMatch | fraud-decision-service/src/main/java/com/frauddetection/frauddecision/service/FraudDecisionService.java:54-59 | There is no result iff no rule matches. Otherwise the result is the outcome of a matching rule with no matching rule before it. |
| DecisionRules.FallbackChainAlwaysDecides | fraud-decision-service/src/main/java/com/frauddetection/frauddecision/rule/ApproveDecisionRule.java:18-20 | A chain that ends in the unconditional Approve rule always produces a decision. |
| DecisionRules.DefaultChainMapping | fraud-decision-service/src/main/java/com/frauddetection/frauddecision/rule/ReviewDecisionRule.java:22-24 | For any thresholds: above block is BLOCK, between review and block (both inclusive) is REVIEW, below both is APPROVE with no reason. |
| DecisionRules.ReviewAloneOvermatches | fraud-decision-service/src/main/java/com/frauddetection/frauddecision/rule/ReviewDecisionRule.java:22-24 | The Review rule alone also matches scores above the block threshold. Only chain order sends them to Block, and with Review first they would be reviewed. |
| DecisionRules.DefaultBoundaries | fraud-decision-service/src/main/java/com/frauddetection/frauddecision/config/DecisionProperties.java:21-31 | Under the defaults, 0.81 is blocked, 0.80 and 0.60 are reviewed, and 0.59 is approved. |
| FraudDecision.Process | fraud-decision-service/src/main/java/com/frauddetection/frauddecision/service/FraudDecisionService.java:52-89 | Processing fails iff no rule matches. On success exactly one case is saved under the fresh id with the first match's outcome, and the table stays keyed. Exactly one event is published, keyed by user. It carries the saved case's id, transaction, user, score, decision name and reason, plus the fresh event id and the decision time. |
| FraudDecision.ProcessWithDefaultChain | fraud-decision-service/src/main/java/com/frauddetection/frauddecision/service/FraudDecisionService.java:52-89 | With the injected chain, processing never fails and the saved case follows the three-tier threshold mapping. |
| FraudDecision.RedeliveryDuplicatesCase | fraud-decision-service/src/main/java/com/frauddetection/frauddecision/service/FraudDecisionService.java:62-72 | Processing is not idempotent: a redelivered event creates a second case and a second event for the same transaction. |
| CaseReview.ToDTO | fraud-decision-service/src/main/java/com/frauddetection/frauddecision/service/FraudCaseService.java:62-74 | The rendering copies every field, and decision and status become enum names. |
| CaseReview.FromDTO | fraud-decision-service/src/main/java/com/frauddetection/frauddecision/entity/FraudCase.java:58-64 | A DTO that parses back renders to itself, and names outside the enums are rejected. |
| CaseReview.DTORoundTrip | fraud-decision-service/src/main/java/com/frauddetection/frauddecision/service/FraudCaseService.java:62-74 | Rendering loses nothing: every case is recovered from its DTO. |
| CaseReview.GetCase | fraud-decision-service/src/main/java/com/frauddetection/frauddecision/service/FraudCaseService.java:41-45 | Not-found iff the id is absent; otherwise the DTO of exactly the stored case. |
| CaseReview.ActionStatus | fraud-decision-service/src/main/java/com/frauddetection/frauddecision/service/FraudCaseService.java:52-57 | APPROVED iff the action equals APPROVE ignoring case, REJECTED iff it equals REJECT ignoring case, nothing otherwise. |
| CaseReview.ReviewCase | fraud-decision-service/src/main/java/com/frauddetection/frauddecision/service/FraudCaseService.java:47-60 | An unknown case fails first, then an unknown action. Otherwise only the case's status changes and the updated DTO is returned. |
| CaseReview.ReviewKeepsDecision | fraud-decision-service/src/main/java/com/frauddetection/frauddecision/service/FraudCaseService.java:47-60 | A review changes nothing but the status. The decision stays as first saved, and the new status is APPROVED or REJECTED. |
| CaseReview.ReviewIdempotent | fraud-decision-service/src/main/java/com/frauddetection/frauddecision/service/FraudCaseService.java:47-60 | Repeating the same review returns the same result. |
| CaseReview.NoPriorStatusGuard | fraud-decision-service/src/main/java/com/frauddetection/frauddecision/service/FraudCaseService.java:52-57 | Any existing case, whatever its status (blocked, rejected or approved), can be approved or rejected. |
| CaseReview.ValidActionIff | fraud-decision-service/src/main/java/com/frauddetection/frauddecision/dto/ReviewRequest.java:24-26 | The request validator accepts exactly "APPROVE" and "REJECT". |
| CaseReview.BlankActionRefused | fraud-decision-service/src/main/java/com/frauddetection/frauddecision/dto/ReviewRequest.java:24-26 | A missing or blank action is refused. |
| CaseReview.ValidatedActionNeverInvalid | fraud-decision-service/src/main/java/com/frauddetection/frauddecision/service/FraudCaseService.java:52-57 | Behind the validator the invalid-action branch cannot be reached; only not-found remains. |
| CaseReview.LowerCaseApproveRefusedButAccepted | fraud-decision-service/src/main/java/com/frauddetection/frauddecision/dto/ReviewRequest.java:24-26 | The validator refuses "approve", although the service upper-cases the action and would accept it. |
| RateLimit.CounterKeyInjective | transaction-service/src/main/java/com/frauddetection/transaction/service/RateLimitService.java:38 | Distinct users have distinct counters. |
| RateLimit.CheckRateLimit | transaction-service/src/main/java/com/frauddetection/transaction/service/RateLimitService.java:45-60 | The counter always rises by one, admitted or not. A rejection, carrying the user and the maximum, happens iff the new count exceeds the maximum. The first increment opens a 60-second window. Other users are untouched. |
| RateLimit.BurstCounts | transaction-service/src/main/java/com/frauddetection/transaction/service/RateLimitService.java:45-60 | After n checks the counter has grown by n. The i-th check is admitted iff the starting count plus i + 1 is within the maximum. |
| RateLimit.DefaultWindow | transaction-service/src/main/java/com/frauddetection/transaction/service/RateLimitService.java:35-36 | With the default maximum of 10 and a fresh window, calls 1 to 10 are admitted and the 11th is rejected. |
| RateLimit.RejectionPersists | transaction-service/src/main/java/com/frauddetection/transaction/service/RateLimitService.java:45-60 | Within a window, a rejected caller stays rejected. |
| RateLimit.ExpiryStartsNewWindow | transaction-service/src/main/java/com/frauddetection/transaction/service/RateLimitService.java:49-52 | Once the counter has expired, the next call counts 1, is admitted and opens a new 60-second window. |
| Transactions.ParseTxStatus | transaction-service/src/main/java/com/frauddetection/transaction/entity/Transaction.java:76-78 | A parsed status renders back to the parsed name. |
| Transactions.TxStatusRoundTrip | transaction-service/src/main/java/com/frauddetection/transaction/entity/Transaction.java:76-78 | Every status is recovered from its name. |
| Transactions.WithStatus | transaction-service/src/main/java/com/frauddetection/transaction/entity/Transaction.java:84-95 | The copy has the new status and agrees with the original on every other field. |
| Transactions.PrePersist | transaction-service/src/main/java/com/frauddetection/transaction/entity/Transaction.java:97-105 | The business key and status are filled in only when null (fresh UUID, PENDING); existing values and all other fields are kept. |
| Transactions.PrePersistPersists | transaction-service/src/main/java/com/frauddetection/transaction/entity/Transaction.java:97-105 | After the hook the entity has a business key and a status. |
| Transactions.PrePersistIdempotent | transaction-service/src/main/java/com/frauddetection/transaction/entity/Transaction.java:97-105 | Running the hook twice, with any fresh id, is the same as running it once. |
| Transactions.EqualityIsBusinessKey | transaction-service/src/main/java/com/frauddetection/transaction/entity/Transaction.java:45 | Two entities are equal iff their business keys are equal. So a status copy equals its original, and any two unsaved entities are equal. |
| Transactions.PersistChangesEquality | transaction-service/src/main/java/com/frauddetection/transaction/entity/Transaction.java:45 | An unsaved entity is not equal to itself after the persist hook. |
| Transactions.ToEntity | transaction-service/src/main/java/com/frauddetection/transaction/service/TransactionMapper.java:26-34 | A new entity copies the user-supplied fields and is PENDING. Surrogate key, business key and timestamp stay null. |
| Transactions.ToDTO | transaction-service/src/main/java/com/frauddetection/transaction/service/TransactionMapper.java:36-46 | Rendering fails iff the status is null. Otherwise every field is copied and the status name parses back to the entity's status. |
| Transactions.ToEvent | transaction-service/src/main/java/com/frauddetection/transaction/service/TransactionMapper.java:48-58 | The created event carries the persisted entity's business key, user, amount, location, merchant type and timestamp. |
| Transactions.RequestRoundTrip | transaction-service/src/main/java/com/frauddetection/transaction/service/TransactionMapper.java:26-46 | A request read into an entity and rendered back is unchanged, except for no key, a PENDING status and no timestamp. |
| Transactions.EntityRoundTrip | transaction-service/src/main/java/com/frauddetection/transaction/service/TransactionMapper.java:26-46 | A persisted entity rendered and read back agrees with itself on every user-supplied field. |
| Transactions.EventAgreesWithResponse | transaction-service/src/main/java/com/frauddetection/transaction/service/TransactionMapper.java:36-58 | The response body and the published event describe the same transaction. |
| Notifications.KindOf | notification-service/src/main/java/com/frauddetection/notification/service/NotificationService.java:58-69 | The blocked template iff the decision equals BLOCK ignoring case, the review template iff it equals REVIEW ignoring case. |
| Notifications.BuildMessage | notification-service/src/main/java/com/frauddetection/notification/service/NotificationService.java:58-69 | The message names the transaction and ends in the chosen template's text. |
| Notifications.MessageDeterminesKind | notification-service/src/main/java/com/frauddetection/notification/service/NotificationService.java:58-69 | For one transaction, two decisions give the same message iff they select the same template. |
| Notifications.MessageIgnoresCase | notification-service/src/main/java/com/frauddetection/notification/service/NotificationService.java:58-69 | Letter case of the decision never changes the message. |
| Notifications.UnknownDecisionReadsApproved | notification-service/src/main/java/com/frauddetection/notification/service/NotificationService.java:58-69 | Any decision string other than BLOCK or REVIEW, known or not, yields the approval message. |
| Notifications.ProcessDecision | notification-service/src/main/java/com/frauddetection/notification/service/NotificationService.java:39-53 | A null decision fails. Otherwise exactly one EMAIL/SENT notification for the event's transaction and user is appended, and its message names the transaction. |
| DailyAnalytics.Process | analytics-service/src/main/java/com/frauddetection/analytics/batch/DailyFraudAnalyticsBatchConfig.java:109-120 | Each row becomes a metric of total 1 for yesterday. The block and review indicators say what the decision was, and the fraud indicator equals the block indicator. |
| DailyAnalytics.IndicatorsExclusive | analytics-service/src/main/java/com/frauddetection/analytics/batch/DailyFraudAnalyticsBatchConfig.java:114-117 | No row is both BLOCK and REVIEW; APPROVE and unknown decisions count as neither. |
| DailyAnalytics.RowCountsBounded | analytics-service/src/main/java/com/frauddetection/analytics/batch/DailyFraudAnalyticsBatchConfig.java:114-117 | BLOCK rows plus REVIEW rows never outnumber the rows. |
| DailyAnalytics.ProcessedSums | analytics-service/src/main/java/com/frauddetection/analytics/batch/DailyFraudAnalyticsBatchConfig.java:133-139 | Summing a chunk's indicators counts its BLOCK rows (fraud and block) and its REVIEW rows. |
| DailyAnalytics.Rate | analytics-service/src/main/java/com/frauddetection/analytics/batch/DailyFraudAnalyticsBatchConfig.java:147-151 | Fraud over total, 0 for an empty total, and in [0, 1] whenever the fraud count lies within the total. |
| DailyAnalytics.WriteChunk | analytics-service/src/main/java/com/frauddetection/analytics/batch/DailyFraudAnalyticsBatchConfig.java:126-158 | An empty chunk writes nothing. Otherwise the date's row is found or created, its counts and rate are replaced by the chunk's sums, and its other columns and all other dates are kept. |
| DailyAnalytics.ProcessedChunkMetric | analytics-service/src/main/java/com/frauddetection/analytics/batch/DailyFraudAnalyticsBatchConfig.java:126-158 | One processed chunk leaves yesterday's row with the chunk's exact counts and a rate in [0, 1]. |
| DailyAnalytics.LastChunkWins | analytics-service/src/main/java/com/frauddetection/analytics/batch/DailyFraudAnalyticsBatchConfig.java:133-151 | As written, the date's row ends up holding the counts of the last chunk alone, and other dates are untouched. |
| DailyAnalytics.OverwriteUnderCounts | analytics-service/src/main/java/com/frauddetection/analytics/batch/DailyFraudAnalyticsBatchConfig.java:46-47 | As written, a day with more than 100 rows is stored with a total of at most 100, short of its row count. |
| DailyAnalytics.AccumulateChunk | analytics-service/src/main/java/com/frauddetection/analytics/batch/DailyFraudAnalyticsBatchConfig.java:133-151 | The corrected writer adds a chunk's counts to the date's row and recomputes the rate from the sums. |
| DailyAnalytics.AccumulateAllCounts | analytics-service/src/main/java/com/frauddetection/analytics/batch/DailyFraudAnalyticsBatchConfig.java:133-151 | Accumulating every chunk adds every row of the day to the date's counts. |
| DailyAnalytics.CorrectedCountsWholeDay | analytics-service/src/main/java/com/frauddetection/analytics/batch/DailyFraudAnalyticsBatchConfig.java:126-158 | With the corrected writer, the row holds the whole day's counts and a rate in [0, 1], however the rows are split into chunks. |
| DailyAnalytics.CorrectedKeepsOtherDates | analytics-service/src/main/java/com/frauddetection/analytics/batch/DailyFraudAnalyticsBatchConfig.java:144-145 | The corrected step keeps every other date's row. |
| DailyAnalytics.FraudCountsBlockOnly | analytics-service/src/test/java/com/frauddetection/analytics/AnalyticsBatchJobIT.java:147-153 | For 5 BLOCK, 3 REVIEW and 12 APPROVE cases the step stores fraud 5 and rate 0.25. The test expects 8 and 0.40. |
| Pipeline.ThresholdsAgree | fraud-decision-service/src/main/java/com/frauddetection/frauddecision/config/DecisionProperties.java:21-31 | The scoring and decision services ship the same 0.80 block and 0.60 review thresholds. |
| Pipeline.AdmissionFeedsFrequency | transaction-service/src/main/java/com/frauddetection/transaction/service/RateLimitService.java:38 | The admission counter is the key the scoring stage reads as its frequency signal. Every check raises that signal by one. |
| Pipeline.DefaultComposite | risk-engine-service/src/main/java/com/frauddetection/riskengine/service/RiskCalculationService.java:41-52 | The default composite is the clamped sum of the five factors' scores. |
| Pipeline.LagosCryptoIsReviewed | risk-engine-service/src/test/java/com/frauddetection/riskengine/RiskEngineKafkaPipelineIT.java:50-56 | For a quiet user, 55,000 at Lagos with a Crypto Exchange merchant scores 0.35 + 0.05 + 0.20 = 0.60. That is MEDIUM: the transaction stays off the hot list and is reviewed, not blocked. |
| Pipeline.MumbaiGroceryIsApproved | risk-engine-service/src/main/java/com/frauddetection/riskengine/service/RiskEngineService.java:55-87 | For a quiet user, 500 at Mumbai with a Grocery merchant scores 0.15. That is LOW and approved. |
| Pipeline.LagosScoresAsMumbai | risk-engine-service/src/test/java/com/frauddetection/riskengine/service/RiskCalculationServiceTest.java:68-74 | With every other input equal, Lagos scores exactly as Mumbai does, for any factors and thresholds. |
| Pipeline.BlockBoundaryDisagreement | risk-engine-service/src/main/java/com/frauddetection/riskengine/service/RiskCalculationService.java:59-65 | A score of exactly 0.80 is HIGH for the scoring stage but only reviewed by the decision stage. |
| Pipeline.ReviewBoundaryInclusive | fraud-decision-service/src/test/java/com/frauddetection/frauddecision/kafka/FraudDecisionConsumerTest.java:123-131 | A score of exactly 0.60 is saved as a REVIEW case, not approved as that test expects. |
| Pipeline.ApprovalKeepsReviewDecision | fraud-decision-service/src/test/java/com/frauddetection/frauddecision/FraudDecisionServiceIT.java:145-146 | Approving a reviewed case sets its status to APPROVED and leaves its decision REVIEW. |
| Pipeline.DecisionSelectsTemplate | notification-service/src/main/java/com/frauddetection/notification/service/NotificationService.java:58-69 | Each decision name the decision stage publishes selects its own template. |
| Pipeline.DecisionEventsAreNotified | fraud-decision-service/src/main/java/com/frauddetection/frauddecision/service/FraudDecisionService.java:75-85 | Every event the decision stage publishes carries a decision, so notification succeeds and names the transaction. |

## Left out

- Kafka consumers, listeners and serialisation: the model consumes one event per call and publishing is an outbox append.
- REST controllers, exception handlers and HTTP status mapping: the model returns `Result` failures (`CaseNotFound`, `InvalidAction`, `NoRuleMatched`, `NullDecision`, `MapError`) instead.
- The transaction service's create orchestration (rate check, save, publish, respond): its parts are modelled (`RateLimit.CheckRateLimit`, `Transactions.PrePersist`, `Transactions.ToEvent`, `Transactions.ToDTO`), not their sequencing with the database transaction.
- `FraudCaseService.getAllCases` (FraudCaseService.java:35-39): paging is a repository query with nothing to model beyond `CaseReview.ToDTO`.
- The analytics reader's SQL, its date filter and the job launcher: the model takes yesterday's rows as a sequence.
- The average risk score column: it is not modelled. The top-risk geography column is only carried through unchanged.
- Floating point: scores, weights and rates are exact reals, not IEEE doubles. Rounding of sums such as 0.05 + 0.05 + 0.05 is not modelled.
- Locale-sensitive `toUpperCase`: only ASCII letters are upper-cased.
- `long`/`int` overflow of counters and counts: integers are unbounded.
- Redis values stored as strings and parsed on read: each hash field is stored with the type its reader parses it as.
- The passage of time: key expiry is the explicit `CacheStore.Evict` step. Clock readings and generated UUIDs are parameters.
- `@CreationTimestamp`/`@UpdateTimestamp` refresh on review: `CaseReview.ReviewCase` keeps the stored timestamps.
- The notification message column's 1000-character limit.
- The exact flag-reason text: each rule's reason is a structured `FlagReason` value carrying the score and threshold.
- Null user-supplied transaction fields: bean validation rejects them before the mapper, so the model's request type has none.
- FraudDecision.Process: requires that `caseId` is not already a key, standing for a freshly generated UUID.
- Transactions.ToEvent: requires a persisted entity (business key and status present), which is what the service passes it after saving.
- RiskEngine.UpsertRiskProfile: does not model the surrogate key or the profile's update timestamp.

## Findings

| source | as written | input that shows it | evidently intended | confidence | as-written member | corrected member |
|---|---|---|---|---|---|---|
| analytics-service/src/main/java/com/frauddetection/analytics/batch/DailyFraudAnalyticsBatchConfig.java:133-151 | The writer sets the date's total, fraud, review and block counts to the current chunk's sums. With a commit interval of 100 (lines 46-47), each chunk overwrites the previous one. | A day with 150 cases: the first chunk writes total 100, then the second overwrites it with total 50, so 50 is stored | The date's row holds the whole day's counts and their rate | not executed | DailyAnalytics.OverwriteUnderCounts | DailyAnalytics.CorrectedCountsWholeDay |
