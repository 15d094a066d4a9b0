/** The decision stage's rule chain: Block, Review and the Approve fallback,
    evaluated in priority order with the first match winning. */
module DecisionRules {
  import opened Wrappers
  import opened Events

  /** The `fraud.decision` property block. These two thresholds are all the
      rules consult. */
  datatype DecisionProperties = DecisionProperties(blockThreshold: real, reviewThreshold: real)

  const DefaultProperties: DecisionProperties := DecisionProperties(blockThreshold := 0.80, reviewThreshold := 0.60)

  datatype Decision = APPROVE | BLOCK | REVIEW

  datatype CaseStatus = PENDING | APPROVED | REJECTED | BLOCKED

  /** `Decision.name()`. */
  function DecisionName(d: Decision): string {
    match d
    case APPROVE => "APPROVE"
    case BLOCK => "BLOCK"
    case REVIEW => "REVIEW"
  }

  /** `CaseStatus.name()`. */
  function StatusName(s: CaseStatus): string {
    match s
    case PENDING => "PENDING"
    case APPROVED => "APPROVED"
    case REJECTED => "REJECTED"
    case BLOCKED => "BLOCKED"
  }

  datatype DecisionResult = DecisionResult(decision: Decision, status: CaseStatus, flagReason: Option<FlagReason>)

  datatype Rule = BlockRule | ReviewRule | ApproveRule

  /** The `@Order` value each rule bean carries. */
  function Priority(rule: Rule): nat {
    match rule
    case BlockRule => 1
    case ReviewRule => 2
    case ApproveRule => 3
  }

  /** The injected rule list, sorted by priority. */
  const DefaultChain: seq<Rule> := [BlockRule, ReviewRule, ApproveRule]

  lemma DefaultChainSorted()
    ensures forall i, j :: 0 <= i < j < |DefaultChain| ==> Priority(DefaultChain[i]) < Priority(DefaultChain[j])
    ensures DefaultChain[|DefaultChain| - 1] == ApproveRule
  {
  }

  /** `matches`: Block is strict, Review inclusive, Approve unconditional. */
  predicate Matches(rule: Rule, props: DecisionProperties, ev: RiskScoredEvent) {
    match rule
    case BlockRule => ev.riskScore > props.blockThreshold
    case ReviewRule => ev.riskScore >= props.reviewThreshold
    case ApproveRule => true
  }

  /** `apply`: each rule's decision, status and reason. */
  function Apply(rule: Rule, props: DecisionProperties, ev: RiskScoredEvent): (r: DecisionResult)
    ensures rule == BlockRule ==> r.decision == BLOCK && r.status == BLOCKED && r.flagReason.Some?
    ensures rule == ReviewRule ==> r.decision == REVIEW && r.status == PENDING && r.flagReason.Some?
    ensures rule == ApproveRule ==> r.decision == APPROVE && r.status == APPROVED && r.flagReason.None?
  {
    match rule
    case BlockRule =>
      DecisionResult(BLOCK, BLOCKED, Some(ExceedsBlockThreshold(ev.riskScore, props.blockThreshold)))
    case ReviewRule =>
      DecisionResult(REVIEW, PENDING, Some(RequiresManualReview(ev.riskScore, props.reviewThreshold, props.blockThreshold)))
    case ApproveRule =>
      DecisionResult(APPROVE, APPROVED, None)
  }

  /** A rule's verdict depends on the event's score alone. */
  lemma RulesReadOnlyTheScore(rule: Rule, props: DecisionProperties, ev1: RiskScoredEvent, ev2: RiskScoredEvent)
    requires ev1.riskScore == ev2.riskScore
    ensures Matches(rule, props, ev1) == Matches(rule, props, ev2)
    ensures Apply(rule, props, ev1) == Apply(rule, props, ev2)
  {
  }

  /** The outcome of the first rule, in list order, whose `matches` holds;
      none when no rule matches. */
  function FirstMatch(rules: seq<Rule>, props: DecisionProperties, ev: RiskScoredEvent): (r: Option<DecisionResult>)
    ensures r.None? <==> forall i :: 0 <= i < |rules| ==> !Matches(rules[i], props, ev)
    ensures r.Some? ==> exists i :: 0 <= i < |rules| && Matches(rules[i], props, ev)
                           && (forall j :: 0 <= j < i ==> !Matches(rules[j], props, ev))
                           && r.value == Apply(rules[i], props, ev)
  {
    if |rules| == 0 then None
    else if Matches(rules[0], props, ev) then Some(Apply(rules[0], props, ev))
    else
      var rest := FirstMatch(rules[1..], props, ev);
      assert forall i :: 1 <= i < |rules| ==> rules[i] == rules[1..][i - 1];
      if rest.Some? then
        var k :| 0 <= k < |rules[1..]| && Matches(rules[1..][k], props, ev)
                 && (forall j :: 0 <= j < k ==> !Matches(rules[1..][j], props, ev))
                 && rest.value == Apply(rules[1..][k], props, ev);
        assert Matches(rules[k + 1], props, ev);
        rest
      else rest
  }

  /** A chain ending in the fallback always decides, so the "no rule
      matched" failure cannot occur with the injected rules. */
  lemma FallbackChainAlwaysDecides(rules: seq<Rule>, props: DecisionProperties, ev: RiskScoredEvent)
    requires |rules| > 0 && rules[|rules| - 1] == ApproveRule
    ensures FirstMatch(rules, props, ev).Some?
  {
    assert Matches(rules[|rules| - 1], props, ev);
  }

  /** The composed mapping of the injected chain for any thresholds:
      strictly above block is BLOCK, otherwise at least review is REVIEW,
      otherwise APPROVE. */
  lemma DefaultChainMapping(props: DecisionProperties, ev: RiskScoredEvent)
    ensures var r := FirstMatch(DefaultChain, props, ev);
            && r.Some?
            && (ev.riskScore > props.blockThreshold ==> r.value.decision == BLOCK && r.value.status == BLOCKED)
            && (props.reviewThreshold <= ev.riskScore <= props.blockThreshold ==> r.value.decision == REVIEW && r.value.status == PENDING)
            && (ev.riskScore < props.reviewThreshold && ev.riskScore <= props.blockThreshold ==> r.value == DecisionResult(APPROVE, APPROVED, None))
  {
    FallbackChainAlwaysDecides(DefaultChain, props, ev);
    assert DefaultChain[1..] == [ReviewRule, ApproveRule];
    assert DefaultChain[1..][1..] == [ApproveRule];
  }

  /** Review on its own also matches scores above the block threshold; only
      the chain order sends them to Block. */
  lemma ReviewAloneOvermatches(props: DecisionProperties, ev: RiskScoredEvent)
    requires props.reviewThreshold <= props.blockThreshold < ev.riskScore
    ensures Matches(ReviewRule, props, ev)
    ensures FirstMatch(DefaultChain, props, ev).value.decision == BLOCK
    ensures FirstMatch([ReviewRule, BlockRule, ApproveRule], props, ev).value.decision == REVIEW
  {
    DefaultChainMapping(props, ev);
  }

  /** Under the defaults all three tiers are reachable, and both boundary
      scores resolve to REVIEW: 0.80 because Block is strict, 0.60 because
      Review is inclusive. */
  lemma DefaultBoundaries(ev: RiskScoredEvent)
    ensures DefaultProperties.reviewThreshold < DefaultProperties.blockThreshold
    ensures FirstMatch(DefaultChain, DefaultProperties, ev).Some?
    ensures ev.riskScore == 0.80 ==> FirstMatch(DefaultChain, DefaultProperties, ev).value.decision == REVIEW
    ensures ev.riskScore == 0.60 ==> FirstMatch(DefaultChain, DefaultProperties, ev).value.decision == REVIEW
    ensures ev.riskScore == 0.59 ==> FirstMatch(DefaultChain, DefaultProperties, ev).value.decision == APPROVE
    ensures ev.riskScore == 0.81 ==> FirstMatch(DefaultChain, DefaultProperties, ev).value.decision == BLOCK
  {
    DefaultChainMapping(DefaultProperties, ev);
  }
}
