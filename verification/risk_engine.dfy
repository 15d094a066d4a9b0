/** The scoring stage's orchestration for one consumed transaction: read the
    behavioural context, score, update the cache, upsert the user's risk
    profile, publish the scored event. */
module RiskEngine {
  import opened Wrappers
  import opened CacheStore
  import opened ContextCache
  import opened RiskThresholds
  import opened Events
  import opened ScoringFactors
  import opened RiskCalculation
  import opened EventBus

  /** One row per user. The surrogate key and the update timestamp belong to
      the persistence layer and are left out. */
  datatype RiskProfile = RiskProfile(
    userId: string,
    riskScore: real,
    riskLevel: string,
    recentFraudCount: int,
    txnFrequency: int,
    topRiskFactor: Option<string>)

  /** The cache, the profile table keyed by user id, and the outbox of the
      `risk.scored` topic. */
  datatype RiskEngineState = RiskEngineState(
    cache: Store,
    profiles: map<string, RiskProfile>,
    outbox: seq<Message<RiskScoredEvent>>)

  /** The profile table's unique key: every row sits under its own user id. */
  predicate ProfilesKeyed(profiles: map<string, RiskProfile>) {
    forall u :: u in profiles ==> profiles[u].userId == u
  }

  /** The context assembled from the two cache reads. */
  function ReadContext(cache: Store, userId: string): RiskContext {
    RiskContext(GetRecentFraudCount(cache, userId), GetRecentTxnCount(cache, userId))
  }

  /** Find the user's profile or start a new one, overwrite the four scored
      fields, save. Exactly one row exists for the user afterwards; the
      field the scoring stage never writes survives; other rows are
      untouched. */
  function UpsertRiskProfile(profiles: map<string, RiskProfile>, userId: string, riskScore: real, riskLevel: string, ctx: RiskContext)
    : (r: map<string, RiskProfile>)
    ensures r.Keys == profiles.Keys + {userId}
    ensures r[userId].userId == userId
    ensures r[userId].riskScore == riskScore && r[userId].riskLevel == riskLevel
    ensures r[userId].recentFraudCount == ctx.recentFraudCount && r[userId].txnFrequency == ctx.txnFrequency
    ensures r[userId].topRiskFactor == (if userId in profiles then profiles[userId].topRiskFactor else None)
    ensures forall v :: v in profiles && v != userId ==> r[v] == profiles[v]
    ensures ProfilesKeyed(profiles) ==> ProfilesKeyed(r)
  {
    var topRiskFactor := if userId in profiles then profiles[userId].topRiskFactor else None;
    profiles[userId := RiskProfile(userId, riskScore, riskLevel, ctx.recentFraudCount, ctx.txnFrequency, topRiskFactor)]
  }

  /** The score `Evaluate` computes for `ev` against state `st`. */
  function ScoreFor(st: RiskEngineState, factors: seq<Factor>, th: Thresholds, ev: TransactionCreatedEvent): real {
    CompositeScore(factors, th, ev, ReadContext(st.cache, ev.userId))
  }

  /** Full evaluation of one transaction event. `eventId` and `scoredAt`
      stand for the generated event id and the clock reading. */
  function Evaluate(st: RiskEngineState, factors: seq<Factor>, th: Thresholds, ev: TransactionCreatedEvent, eventId: string, scoredAt: int)
    : (r: RiskEngineState)
    ensures r.profiles.Keys == st.profiles.Keys + {ev.userId}
    // the score is computed from the cached context of this user
    ensures var score := ScoreFor(st, factors, th, ev);
            var level := DeriveRiskLevel(score);
            && GetCachedRiskScore(r.cache, ev.userId) == Some(score)
            && HashAt(r.cache, RiskKey(ev.userId)).riskLevel == Some(LevelName(level))
            && r.profiles[ev.userId] == RiskProfile(ev.userId, score, LevelName(level),
                 GetRecentFraudCount(st.cache, ev.userId), GetRecentTxnCount(st.cache, ev.userId),
                 if ev.userId in st.profiles then st.profiles[ev.userId].topRiskFactor else None)
            && r.outbox == st.outbox + [Message(RiskScoredTopic, ev.userId,
                 RiskScoredEvent(eventId, ev.transactionId, ev.userId, score, LevelName(level), scoredAt))]
    // the transaction id enters the hot list exactly when the level is HIGH
    ensures DeriveRiskLevel(ScoreFor(st, factors, th, ev)) == HIGH ==>
              HotList(r.cache) == [ev.transactionId] + HotList(st.cache)[..if |HotList(st.cache)| < 99 then |HotList(st.cache)| else 99]
    ensures DeriveRiskLevel(ScoreFor(st, factors, th, ev)) != HIGH ==> HotList(r.cache) == HotList(st.cache)
    // one profile for this user, none other touched
    ensures forall v :: v in st.profiles && v != ev.userId ==> r.profiles[v] == st.profiles[v]
    // the fraud counts and request counters are read, never written
    ensures forall v :: GetRecentFraudCount(r.cache, v) == GetRecentFraudCount(st.cache, v)
    ensures r.cache.counters == st.cache.counters
  {
    var ctx := ReadContext(st.cache, ev.userId);
    var riskScore := CompositeScore(factors, th, ev, ctx);
    var riskLevel := DeriveRiskLevel(riskScore);
    var cache1 := CacheRiskScore(st.cache, ev.userId, riskScore, LevelName(riskLevel));
    var cache2 := if riskLevel == HIGH then AddToHotList(cache1, ev.transactionId) else cache1;
    var profiles := UpsertRiskProfile(st.profiles, ev.userId, riskScore, LevelName(riskLevel), ctx);
    var scored := RiskScoredEvent(eventId, ev.transactionId, ev.userId, riskScore, LevelName(riskLevel), scoredAt);
    forall v
      ensures GetRecentFraudCount(cache2, v) == GetRecentFraudCount(st.cache, v)
    {
      if v != ev.userId {
        assert HashAt(cache1, RiskKey(v)) == HashAt(st.cache, RiskKey(v));
      }
    }
    RiskEngineState(cache2, profiles, Publish(st.outbox, RiskScoredTopic, ev.userId, scored))
  }

  /** Evaluation keeps the profile table keyed by user id, and with legal
      weights the published score is a probability-like value in [0, 1]. */
  lemma EvaluatePreservesInvariants(st: RiskEngineState, factors: seq<Factor>, th: Thresholds, ev: TransactionCreatedEvent, eventId: string, scoredAt: int)
    requires ProfilesKeyed(st.profiles)
    requires WeightsInUnit(th)
    ensures ProfilesKeyed(Evaluate(st, factors, th, ev, eventId, scoredAt).profiles)
    ensures InUnit(Evaluate(st, factors, th, ev, eventId, scoredAt).outbox[|st.outbox|].payload.riskScore)
  {
    CompositeScoreInUnit(factors, th, ev, ReadContext(st.cache, ev.userId));
  }
}
