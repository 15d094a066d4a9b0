/** The decision stage's orchestration for one consumed scored event:
    decide with the rule chain, persist one case, publish one decision
    event. */
module FraudDecision {
  import opened Wrappers
  import opened Events
  import opened DecisionRules
  import opened EventBus

  /** One row per decision. The surrogate key is left out; the table is
      keyed by the business key `caseId`. */
  datatype FraudCase = FraudCase(
    caseId: string,
    transactionId: string,
    userId: string,
    riskScore: real,
    decision: Decision,
    status: CaseStatus,
    flagReason: Option<FlagReason>,
    createdAt: Option<int>,
    updatedAt: Option<int>)

  /** The case table and the outbox of the `fraud.decision.made` topic. */
  datatype DecisionState = DecisionState(
    cases: map<string, FraudCase>,
    outbox: seq<Message<FraudDecisionMadeEvent>>)

  /** The case table's unique key. */
  predicate CasesKeyed(cases: map<string, FraudCase>) {
    forall id :: id in cases ==> cases[id].caseId == id
  }

  /** The internal-invariant failure raised when no rule matches. */
  datatype ProcessError = NoRuleMatched(transactionId: string)

  /** Decide, save one case under the fresh `caseId`, publish one event
      keyed by user id. `caseId` and `eventId` stand for the generated
      UUIDs (a fresh case id is not yet in the table), `now` for the clock
      reading that stamps the case and the event. */
  function Process(st: DecisionState, rules: seq<Rule>, props: DecisionProperties, ev: RiskScoredEvent,
                   caseId: string, eventId: string, now: int): (r: Result<DecisionState, ProcessError>)
    requires caseId !in st.cases
    ensures r.Failure? <==> forall i :: 0 <= i < |rules| ==> !Matches(rules[i], props, ev)
    ensures r.Failure? ==> r.error == NoRuleMatched(ev.transactionId)
    ensures r.Success? ==> caseId in r.value.cases && FirstMatch(rules, props, ev).Some?
    ensures r.Success? ==>
      var res := FirstMatch(rules, props, ev).value;
      var saved := r.value.cases[caseId];
      && r.value.cases == st.cases[caseId := saved]
      // the case copies the event's ids and score and the rule's outcome
      && saved == FraudCase(caseId, ev.transactionId, ev.userId, ev.riskScore,
                            res.decision, res.status, res.flagReason, Some(now), Some(now))
      // exactly one event, keyed by user, agreeing with the saved case
      && |r.value.outbox| == |st.outbox| + 1
      && r.value.outbox[..|st.outbox|] == st.outbox
      && var m := r.value.outbox[|st.outbox|];
         && m.topic == FraudDecisionMadeTopic && m.key == ev.userId
         && m.payload.caseId == saved.caseId
         && m.payload.decision == Some(DecisionName(saved.decision))
         && m.payload.flagReason == saved.flagReason
         && m.payload.transactionId == saved.transactionId
         && m.payload.riskScore == saved.riskScore
         && m.payload.userId == saved.userId
         && m.payload.eventId == eventId && m.payload.decidedAt == now
    ensures r.Success? ==> |r.value.cases| == |st.cases| + 1
    ensures r.Success? && CasesKeyed(st.cases) ==> CasesKeyed(r.value.cases)
  {
    match FirstMatch(rules, props, ev)
    case None => Failure(NoRuleMatched(ev.transactionId))
    case Some(res) =>
      var fraudCase := FraudCase(caseId, ev.transactionId, ev.userId, ev.riskScore,
                                 res.decision, res.status, res.flagReason, Some(now), Some(now));
      var decided := FraudDecisionMadeEvent(eventId, caseId, ev.transactionId, ev.userId,
                                            Some(DecisionName(res.decision)), ev.riskScore, res.flagReason, now);
      Success(DecisionState(st.cases[caseId := fraudCase],
                            Publish(st.outbox, FraudDecisionMadeTopic, ev.userId, decided)))
  }

  /** With the injected chain, processing never fails and the saved case
      follows the composed threshold mapping. */
  lemma ProcessWithDefaultChain(st: DecisionState, props: DecisionProperties, ev: RiskScoredEvent,
                                caseId: string, eventId: string, now: int)
    requires caseId !in st.cases
    ensures var r := Process(st, DefaultChain, props, ev, caseId, eventId, now);
            && r.Success?
            && (ev.riskScore > props.blockThreshold
                ==> r.value.cases[caseId].decision == BLOCK && r.value.cases[caseId].status == BLOCKED)
            && (props.reviewThreshold <= ev.riskScore <= props.blockThreshold
                ==> r.value.cases[caseId].decision == REVIEW && r.value.cases[caseId].status == PENDING)
            && (ev.riskScore < props.reviewThreshold && ev.riskScore <= props.blockThreshold
                ==> r.value.cases[caseId].decision == APPROVE && r.value.cases[caseId].status == APPROVED)
  {
    DefaultChainMapping(props, ev);
  }

  /** Processing is not idempotent: a redelivered event yields a second
      case, under a fresh id, for the same transaction. */
  lemma RedeliveryDuplicatesCase(st: DecisionState, ev: RiskScoredEvent, id1: string, id2: string, e1: string, e2: string, t1: int, t2: int)
    requires id1 !in st.cases && id2 !in st.cases && id1 != id2
    ensures var r1 := Process(st, DefaultChain, DefaultProperties, ev, id1, e1, t1);
            && r1.Success?
            && var r2 := Process(r1.value, DefaultChain, DefaultProperties, ev, id2, e2, t2);
               && r2.Success?
               && |r2.value.cases| == |st.cases| + 2
               && r2.value.cases[id1].transactionId == r2.value.cases[id2].transactionId == ev.transactionId
               && |r2.value.outbox| == |st.outbox| + 2
  {
    DefaultChainMapping(DefaultProperties, ev);
  }
}
