/** The ingestion stage's entity and its mapper: the persisted
    transaction, its status copy and persist hook, business-key equality,
    and the field copies to and from the request DTO and the created
    event. */
module Transactions {
  import opened Wrappers
  import opened Events

  datatype TxStatus = PENDING | APPROVED | BLOCKED | FLAGGED

  function TxStatusName(s: TxStatus): string {
    match s
    case PENDING => "PENDING"
    case APPROVED => "APPROVED"
    case BLOCKED => "BLOCKED"
    case FLAGGED => "FLAGGED"
  }

  /** `TransactionStatus.valueOf`. */
  function ParseTxStatus(s: string): (r: Option<TxStatus>)
    ensures r.Some? ==> TxStatusName(r.value) == s
  {
    if s == "PENDING" then Some(PENDING)
    else if s == "APPROVED" then Some(APPROVED)
    else if s == "BLOCKED" then Some(BLOCKED)
    else if s == "FLAGGED" then Some(FLAGGED)
    else None
  }

  lemma TxStatusRoundTrip(s: TxStatus)
    ensures ParseTxStatus(TxStatusName(s)) == Some(s)
  {
  }

  /** The entity. The surrogate key, the business key, the status and the
      creation timestamp are null until the entity is persisted; the
      user-supplied fields come from a validated request and are never
      null. */
  datatype Transaction = Transaction(
    id: Option<int>,
    transactionId: Option<string>,
    userId: string,
    amount: real,
    location: string,
    merchantType: string,
    status: Option<TxStatus>,
    timestamp: Option<int>)

  /** A copy with a new status; the receiver, being a value, is unchanged. */
  function WithStatus(t: Transaction, newStatus: TxStatus): (r: Transaction)
    ensures r.status == Some(newStatus)
    ensures r.(status := t.status) == t
  {
    Transaction(t.id, t.transactionId, t.userId, t.amount, t.location, t.merchantType,
                Some(newStatus), t.timestamp)
  }

  /** The persist hook: a business key is assigned only when there is none
      (`freshId` stands for the generated UUID), and status defaults to
      PENDING only when it is null. */
  function PrePersist(t: Transaction, freshId: string): (r: Transaction)
    ensures t.transactionId.None? ==> r.transactionId == Some(freshId)
    ensures t.transactionId.Some? ==> r.transactionId == t.transactionId
    ensures t.status.None? ==> r.status == Some(PENDING)
    ensures t.status.Some? ==> r.status == t.status
    ensures r.id == t.id && r.userId == t.userId && r.amount == t.amount && r.location == t.location
    ensures r.merchantType == t.merchantType && r.timestamp == t.timestamp
  {
    var withId := if t.transactionId.None? then t.(transactionId := Some(freshId)) else t;
    if withId.status.None? then withId.(status := Some(PENDING)) else withId
  }

  /** A persisted entity has a business key and a status. */
  predicate Persisted(t: Transaction) {
    t.transactionId.Some? && t.status.Some?
  }

  lemma PrePersistPersists(t: Transaction, freshId: string)
    ensures Persisted(PrePersist(t, freshId))
  {
  }

  /** Running the hook again, with any other fresh id, changes nothing. */
  lemma PrePersistIdempotent(t: Transaction, id1: string, id2: string)
    ensures PrePersist(PrePersist(t, id1), id2) == PrePersist(t, id1)
  {
  }

  /** Equality and hash code use the business key alone. */
  predicate SameTransaction(a: Transaction, b: Transaction) {
    a.transactionId == b.transactionId
  }

  /** Equality ignores every other field, so a status copy equals its
      original; and two different unsaved entities compare equal, because
      both keys are null. */
  lemma EqualityIsBusinessKey(t: Transaction, s: TxStatus, u: Transaction)
    ensures SameTransaction(t, WithStatus(t, s))
    ensures t.transactionId.None? && u.transactionId.None? ==> SameTransaction(t, u)
    ensures SameTransaction(t, u) <==> t.transactionId == u.transactionId
  {
  }

  /** The persist hook moves an unsaved entity to a different equivalence
      class: it is not equal to its own persisted self. */
  lemma PersistChangesEquality(t: Transaction, freshId: string)
    requires t.transactionId.None?
    ensures !SameTransaction(t, PrePersist(t, freshId))
  {
  }

  /** The request and response body. Bean validation makes the
      user-supplied fields non-null; the rest may be absent. */
  datatype TransactionDTO = TransactionDTO(
    transactionId: Option<string>,
    userId: string,
    amount: real,
    location: string,
    merchantType: string,
    status: Option<string>,
    timestamp: Option<int>)

  /** A new, unsaved entity from a request: the user-supplied fields are
      copied, the status is PENDING whatever the request said, and the id,
      business key and timestamp are left for persistence. */
  function ToEntity(d: TransactionDTO): (t: Transaction)
    ensures t.status == Some(PENDING)
    ensures t.userId == d.userId && t.amount == d.amount
    ensures t.location == d.location && t.merchantType == d.merchantType
    ensures t.id.None? && t.transactionId.None? && t.timestamp.None?
  {
    Transaction(None, None, d.userId, d.amount, d.location, d.merchantType, Some(PENDING), None)
  }

  /** Why an entity cannot be rendered. */
  datatype MapError = NullStatus

  /** Renders an entity; the status is written as its enum name, and a
      null status fails (the name of a null enum). */
  function ToDTO(t: Transaction): (r: Result<TransactionDTO, MapError>)
    ensures r.Failure? <==> t.status.None?
    ensures r.Success? ==>
      && r.value.transactionId == t.transactionId
      && r.value.userId == t.userId && r.value.amount == t.amount
      && r.value.location == t.location && r.value.merchantType == t.merchantType
      && r.value.timestamp == t.timestamp
      && r.value.status.Some? && ParseTxStatus(r.value.status.value) == t.status
  {
    match t.status
    case None => Failure(NullStatus)
    case Some(s) =>
      TxStatusRoundTrip(s);
      Success(TransactionDTO(t.transactionId, t.userId, t.amount, t.location, t.merchantType,
                             Some(TxStatusName(s)), t.timestamp))
  }

  /** The created event of a persisted entity; `eventId` stands for the
      generated UUID. */
  function ToEvent(saved: Transaction, eventId: string): (e: TransactionCreatedEvent)
    requires Persisted(saved)
    ensures e.eventId == eventId
    ensures Some(e.transactionId) == saved.transactionId && e.userId == saved.userId
    ensures e.amount == Some(saved.amount) && e.location == Some(saved.location)
    ensures e.merchantType == Some(saved.merchantType) && e.timestamp == saved.timestamp
  {
    TransactionCreatedEvent(eventId, saved.transactionId.value, saved.userId, Some(saved.amount),
                            Some(saved.location), Some(saved.merchantType), saved.timestamp)
  }

  /** A request read into an entity and rendered back keeps its
      user-supplied fields and reports status PENDING, with no key or
      timestamp yet. */
  lemma RequestRoundTrip(d: TransactionDTO)
    ensures var r := ToDTO(ToEntity(d));
            && r.Success?
            && r.value == d.(transactionId := None, status := Some("PENDING"), timestamp := None)
  {
  }

  /** A persisted entity rendered and read back agrees with itself on every
      field the request carries; the key, status and timestamp are the
      persistence layer's to assign. */
  lemma EntityRoundTrip(t: Transaction)
    requires Persisted(t)
    ensures ToDTO(t).Success?
    ensures ToEntity(ToDTO(t).value) == t.(id := None, transactionId := None, status := Some(PENDING), timestamp := None)
  {
  }

  /** The response body and the event describe the same transaction. */
  lemma EventAgreesWithResponse(saved: Transaction, eventId: string)
    requires Persisted(saved)
    ensures var d := ToDTO(saved).value;
            var e := ToEvent(saved, eventId);
            && d.transactionId == Some(e.transactionId) && d.userId == e.userId
            && Some(d.amount) == e.amount && Some(d.location) == e.location
            && Some(d.merchantType) == e.merchantType && d.timestamp == e.timestamp
  {
  }
}
