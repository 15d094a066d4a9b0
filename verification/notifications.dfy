/** The notification stage: one user-facing message per decision event,
    recorded as an e-mail that was sent. */
module Notifications {
  import opened Wrappers
  import opened Text
  import opened Events

  /** The three message templates, chosen by the upper-cased decision. */
  datatype MessageKind = BlockedMessage | ReviewMessage | ApprovedMessage

  const MessagePrefix: string := "Your transaction "
  const BlockedSuffix: string := " has been blocked due to suspicious activity. Please contact support if this was legitimate."
  const ReviewSuffix: string := " is under review by our fraud prevention team. We will notify you once the review is complete."
  const ApprovedSuffix: string := " has been approved successfully."

  /** BLOCK and REVIEW in any letter case select their templates; every
      other string, known or not, selects the approval message. */
  function KindOf(decision: string): (k: MessageKind)
    ensures k == BlockedMessage <==> EqualsIgnoreCase(decision, "BLOCK")
    ensures k == ReviewMessage <==> EqualsIgnoreCase(decision, "REVIEW")
  {
    assert ToUpper("BLOCK") == "BLOCK" by { ToUpperFixesUpper("BLOCK"); }
    assert ToUpper("REVIEW") == "REVIEW" by { ToUpperFixesUpper("REVIEW"); }
    var key := ToUpper(decision);
    if key == "BLOCK" then BlockedMessage
    else if key == "REVIEW" then ReviewMessage
    else ApprovedMessage
  }

  function Suffix(k: MessageKind): string {
    match k
    case BlockedMessage => BlockedSuffix
    case ReviewMessage => ReviewSuffix
    case ApprovedMessage => ApprovedSuffix
  }

  function BuildMessage(decision: string, transactionId: string): (m: string)
    ensures m == MessagePrefix + transactionId + Suffix(KindOf(decision))
    ensures Contains(m, transactionId)
  {
    ContainsInfix(MessagePrefix, transactionId, Suffix(KindOf(decision)));
    MessagePrefix + transactionId + Suffix(KindOf(decision))
  }

  /** The templates differ, so the message tells the user which decision
      was made: for one transaction, two decisions give the same message
      iff they select the same template. */
  lemma MessageDeterminesKind(d1: string, d2: string, transactionId: string)
    ensures BuildMessage(d1, transactionId) == BuildMessage(d2, transactionId) <==> KindOf(d1) == KindOf(d2)
  {
    var head := MessagePrefix + transactionId;
    var s1 := Suffix(KindOf(d1));
    var s2 := Suffix(KindOf(d2));
    if BuildMessage(d1, transactionId) == BuildMessage(d2, transactionId) {
      assert (head + s1)[|head|..] == s1;
      assert (head + s2)[|head|..] == s2;
      assert s1 == s2;
      // the three templates have different lengths
      assert |BlockedSuffix| == 92 && |ReviewSuffix| == 94 && |ApprovedSuffix| == 32;
    }
  }

  /** Letter case of the decision never matters. */
  lemma MessageIgnoresCase(d1: string, d2: string, transactionId: string)
    requires EqualsIgnoreCase(d1, d2)
    ensures BuildMessage(d1, transactionId) == BuildMessage(d2, transactionId)
  {
  }

  /** A decision string outside BLOCK and REVIEW is reported as approved. */
  lemma UnknownDecisionReadsApproved(decision: string, transactionId: string)
    requires !EqualsIgnoreCase(decision, "BLOCK") && !EqualsIgnoreCase(decision, "REVIEW")
    ensures BuildMessage(decision, transactionId) == MessagePrefix + transactionId + ApprovedSuffix
  {
  }

  datatype NotificationType = EMAIL | SMS | WEBHOOK
  datatype NotificationStatus = PENDING | SENT | FAILED

  datatype Notification = Notification(
    transactionId: string,
    userId: string,
    notificationType: NotificationType,
    message: string,
    status: NotificationStatus)

  /** Why a decision event could not be processed. */
  datatype NotificationError = NullDecision(transactionId: string)

  /** Builds the message and saves one notification, appended to the table.
      A null decision fails while the message is built, before anything is
      saved. */
  function ProcessDecision(saved: seq<Notification>, ev: FraudDecisionMadeEvent): (r: Result<seq<Notification>, NotificationError>)
    ensures r.Failure? <==> ev.decision.None?
    ensures r.Failure? ==> r.error == NullDecision(ev.transactionId)
    ensures r.Success? ==>
      && |r.value| == |saved| + 1
      && r.value[..|saved|] == saved
      && var n := r.value[|saved|];
         && n.transactionId == ev.transactionId && n.userId == ev.userId
         && n.notificationType == EMAIL && n.status == SENT
         && Contains(n.message, ev.transactionId)
         && n.message == BuildMessage(ev.decision.value, ev.transactionId)
  {
    match ev.decision
    case None => Failure(NullDecision(ev.transactionId))
    case Some(decision) =>
      var message := BuildMessage(decision, ev.transactionId);
      Success(saved + [Notification(ev.transactionId, ev.userId, EMAIL, message, SENT)])
  }
}
