/** The analyst side of the decision service: reading a case and the
    APPROVE/REJECT review transition, together with the boundary
    validator of the review request. */
module CaseReview {
  import opened Wrappers
  import opened Text
  import opened Events
  import opened DecisionRules
  import opened FraudDecision

  /** The case as rendered to clients: decision and status as enum names. */
  datatype FraudCaseDTO = FraudCaseDTO(
    caseId: string,
    transactionId: string,
    userId: string,
    riskScore: real,
    decision: string,
    status: string,
    flagReason: Option<FlagReason>,
    createdAt: Option<int>,
    updatedAt: Option<int>)

  datatype CaseError = CaseNotFound(caseId: string) | InvalidAction(action: string)

  function ToDTO(c: FraudCase): (d: FraudCaseDTO)
    ensures d.caseId == c.caseId && d.transactionId == c.transactionId && d.userId == c.userId
    ensures d.riskScore == c.riskScore && d.flagReason == c.flagReason
    ensures d.createdAt == c.createdAt && d.updatedAt == c.updatedAt
    ensures d.decision in {"APPROVE", "BLOCK", "REVIEW"}
    ensures d.status in {"PENDING", "APPROVED", "REJECTED", "BLOCKED"}
  {
    FraudCaseDTO(c.caseId, c.transactionId, c.userId, c.riskScore,
                 DecisionName(c.decision), StatusName(c.status), c.flagReason,
                 c.createdAt, c.updatedAt)
  }

  /** `Decision.valueOf`, the inverse of the enum name. */
  function ParseDecision(s: string): (r: Option<Decision>)
    ensures r.Some? ==> DecisionName(r.value) == s
  {
    if s == "APPROVE" then Some(APPROVE)
    else if s == "BLOCK" then Some(BLOCK)
    else if s == "REVIEW" then Some(REVIEW)
    else None
  }

  /** `CaseStatus.valueOf`, the inverse of the enum name. */
  function ParseStatus(s: string): (r: Option<CaseStatus>)
    ensures r.Some? ==> StatusName(r.value) == s
  {
    if s == "PENDING" then Some(PENDING)
    else if s == "APPROVED" then Some(APPROVED)
    else if s == "REJECTED" then Some(REJECTED)
    else if s == "BLOCKED" then Some(BLOCKED)
    else None
  }

  /** Reading a DTO back into a case; it fails on names outside the enums. */
  function FromDTO(d: FraudCaseDTO): (r: Option<FraudCase>)
    ensures r.Some? ==> ToDTO(r.value) == d
  {
    match (ParseDecision(d.decision), ParseStatus(d.status))
    case (Some(dec), Some(st)) =>
      Some(FraudCase(d.caseId, d.transactionId, d.userId, d.riskScore, dec, st,
                     d.flagReason, d.createdAt, d.updatedAt))
    case _ => None
  }

  /** The DTO loses nothing: every case is recovered from its rendering. */
  lemma DTORoundTrip(c: FraudCase)
    ensures FromDTO(ToDTO(c)) == Some(c)
  {
  }

  function GetCase(cases: map<string, FraudCase>, caseId: string): (r: Result<FraudCaseDTO, CaseError>)
    ensures r.Failure? <==> caseId !in cases
    ensures r.Failure? ==> r.error == CaseNotFound(caseId)
    ensures r.Success? ==> FromDTO(r.value) == Some(cases[caseId])
  {
    if caseId in cases then Success(ToDTO(cases[caseId])) else Failure(CaseNotFound(caseId))
  }

  /** The new status an action names, matched after upper-casing. */
  function ActionStatus(action: string): (r: Option<CaseStatus>)
    ensures r == Some(APPROVED) <==> EqualsIgnoreCase(action, "APPROVE")
    ensures r == Some(REJECTED) <==> EqualsIgnoreCase(action, "REJECT")
    ensures r.Some? ==> r.value in {APPROVED, REJECTED}
  {
    var key := ToUpper(action);
    assert ToUpper("APPROVE") == "APPROVE" by { ToUpperFixesUpper("APPROVE"); }
    assert ToUpper("REJECT") == "REJECT" by { ToUpperFixesUpper("REJECT"); }
    if key == "APPROVE" then Some(APPROVED)
    else if key == "REJECT" then Some(REJECTED)
    else None
  }

  datatype Reviewed = Reviewed(cases: map<string, FraudCase>, dto: FraudCaseDTO)

  /** The review transition. The lookup comes first, so an unknown case is
      reported even for an invalid action; any failure saves nothing. There
      is no guard on the case's prior status. */
  function ReviewCase(cases: map<string, FraudCase>, caseId: string, action: string): (r: Result<Reviewed, CaseError>)
    ensures caseId !in cases ==> r == Failure(CaseNotFound(caseId))
    ensures caseId in cases && ActionStatus(action).None? ==> r == Failure(InvalidAction(action))
    ensures caseId in cases && ActionStatus(action).Some? ==>
      && r.Success?
      && caseId in r.value.cases
      // only the reviewed case's status changes
      && r.value.cases == cases[caseId := cases[caseId].(status := ActionStatus(action).value)]
      && r.value.dto == ToDTO(r.value.cases[caseId])
    ensures r.Success? ==> r.value.cases.Keys == cases.Keys
    ensures r.Success? && CasesKeyed(cases) ==> CasesKeyed(r.value.cases)
  {
    if caseId !in cases then Failure(CaseNotFound(caseId))
    else match ActionStatus(action)
      case None => Failure(InvalidAction(action))
      case Some(status) =>
        var updated := cases[caseId].(status := status);
        Success(Reviewed(cases[caseId := updated], ToDTO(updated)))
  }

  /** Review never touches the decision, score, ids, reason or timestamps. */
  lemma ReviewKeepsDecision(cases: map<string, FraudCase>, caseId: string, action: string)
    requires ReviewCase(cases, caseId, action).Success?
    ensures var after := ReviewCase(cases, caseId, action).value.cases;
            && caseId in cases && caseId in after
            && after[caseId] == cases[caseId].(status := after[caseId].status)
            && after[caseId].decision == cases[caseId].decision
            && after[caseId].status in {APPROVED, REJECTED}
  {
  }

  /** Repeating an action leaves the table as the first review left it. */
  lemma ReviewIdempotent(cases: map<string, FraudCase>, caseId: string, action: string)
    requires ReviewCase(cases, caseId, action).Success?
    ensures var once := ReviewCase(cases, caseId, action).value;
            && ReviewCase(once.cases, caseId, action) == Success(once)
  {
    var once := ReviewCase(cases, caseId, action).value;
    var status := ActionStatus(action).value;
    assert once.cases[caseId].(status := status) == once.cases[caseId];
    assert once.cases[caseId := once.cases[caseId]] == once.cases;
  }

  /** No prior-status guard: a blocked or rejected case can be approved,
      and an approved one rejected. */
  lemma NoPriorStatusGuard(cases: map<string, FraudCase>, caseId: string)
    requires caseId in cases
    ensures ReviewCase(cases, caseId, "APPROVE").Success?
    ensures ReviewCase(cases, caseId, "APPROVE").value.cases[caseId] == cases[caseId].(status := APPROVED)
    ensures ReviewCase(cases, caseId, "REJECT").Success?
    ensures ReviewCase(cases, caseId, "REJECT").value.cases[caseId] == cases[caseId].(status := REJECTED)
  {
    assert ActionStatus("APPROVE") == Some(APPROVED);
    assert ActionStatus("REJECT") == Some(REJECTED);
  }

  /** Bean validation of the request body: `@NotBlank` (present and not
      only whitespace) and `@Pattern("APPROVE|REJECT")`, a whole-string
      match. */
  predicate ValidAction(action: Option<string>) {
    && action.Some?
    && !IsBlank(action.value)
    && (action.value == "APPROVE" || action.value == "REJECT")
  }

  /** Exactly the two upper-case words pass the validator. */
  lemma ValidActionIff(action: Option<string>)
    ensures ValidAction(action) <==> action == Some("APPROVE") || action == Some("REJECT")
  {
    assert !IsBlank("APPROVE") by { assert "APPROVE"[0] == 'A'; }
    assert !IsBlank("REJECT") by { assert "REJECT"[0] == 'R'; }
  }

  /** Blank and missing actions are refused. */
  lemma BlankActionRefused(action: Option<string>)
    requires action.None? || IsBlank(action.value)
    ensures !ValidAction(action)
  {
  }

  /** Behind the validator, the invalid-action branch of the review is
      unreachable. */
  lemma ValidatedActionNeverInvalid(cases: map<string, FraudCase>, caseId: string, action: Option<string>)
    requires ValidAction(action)
    ensures ActionStatus(action.value).Some?
    ensures ReviewCase(cases, caseId, action.value).Failure? ==> caseId !in cases
  {
    assert ToUpper("APPROVE") == "APPROVE" by { ToUpperFixesUpper("APPROVE"); }
    assert ToUpper("REJECT") == "REJECT" by { ToUpperFixesUpper("REJECT"); }
  }

  /** The validator and the service disagree on letter case: "approve" is
      refused at the boundary although the review itself accepts it. */
  lemma LowerCaseApproveRefusedButAccepted(cases: map<string, FraudCase>, caseId: string)
    requires caseId in cases
    ensures !ValidAction(Some("approve"))
    ensures ReviewCase(cases, caseId, "approve").Success?
    ensures ReviewCase(cases, caseId, "approve").value.cases[caseId].status == APPROVED
  {
    assert ToUpper("approve") == "APPROVE";
    assert ToUpper("APPROVE") == "APPROVE" by { ToUpperFixesUpper("APPROVE"); }
  }
}
