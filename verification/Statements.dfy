/** What each committed repository transaction does to the tables, with the error it reports. */
module Statements {
  import opened Wrappers
  import opened Tables

  datatype RepoError = NotFound | PaymentUnavailable | DuplicateRegistration | CapacityFull | UniqueViolation

  const RECONCILE_LEASE := 30
  /** A caller may ask for 1 to 100 rows; any other limit means 25. */
  const CLAIM_LIMIT := 25
  const MAX_CLAIMS := 100

  function WithStatus(db: Db, r: Id, status: Status): Db
    requires r in db.registrations
  {
    db.(registrations := db.registrations[r := db.registrations[r].(status := status)])
  }

  function WithPayment(db: Db, p: Id, payment: Payment): Db {
    db.(payments := db.payments[p := payment])
  }

  /** INSERT INTO tickets ... ON CONFLICT (registration_id) DO NOTHING */
  function WithTicket(db: Db, r: Id, token: Id): Db {
    if r in db.tickets then db else db.(tickets := db.tickets[r := token])
  }

  /** UPDATE registrations SET status='CONFIRMED', and the ticket. */
  function Confirm(db: Db, r: Id, token: Id): (db': Db)
    requires r in db.registrations
    ensures db'.payments == db.payments && db'.registrations == WithStatus(db, r, Confirmed).registrations
  {
    WithTicket(WithStatus(db, r, Confirmed), r, token)
  }

  function WithPaymentStatus(db: Db, p: Id, status: PaymentStatus): Db
    requires p in db.payments
  {
    WithPayment(db, p, db.payments[p].(status := status))
  }

  function CancelError(db: Db, r: Id): Option<RepoError> {
    if r in db.registrations then None else Some(NotFound)
  }

  /** The UPDATE has no status guard. */
  function Cancel(db: Db, r: Id): Db {
    if CancelError(db, r).None? then WithStatus(db, r, Cancelled) else db
  }

  function CreatePaymentError(db: Db, payment: Payment): Option<RepoError> {
    if db.ReferenceUsed(payment.provider, payment.reference) then Some(UniqueViolation) else None
  }

  function CreatePayment(db: Db, p: Id, payment: Payment): Db {
    if CreatePaymentError(db, payment).None? then WithPayment(db, p, payment) else db
  }

  function ConfirmWithPaymentError(db: Db, r: Id, payment: Payment): Option<RepoError> {
    if db.ReferenceUsed(payment.provider, payment.reference) then Some(UniqueViolation)
    else if !db.StatusIs(r, Pending) then Some(NotFound)
    else if r in db.tickets then Some(UniqueViolation)
    else None
  }

  /** The payment row is inserted first, and rolled back with the rest when the registration is not PENDING. */
  function ConfirmWithPayment(db: Db, r: Id, p: Id, payment: Payment, token: Id): Db {
    if ConfirmWithPaymentError(db, r, payment).None? then Confirm(WithPayment(db, p, payment), r, token) else db
  }

  /** The rows a reference submission updates: the payment must not have expired by the database's now(). */
  predicate Submittable(payment: Payment, r: Id, now: Instant) {
    && payment.registration == r && payment.provider.Manual? && payment.status.Awaiting?
    && (payment.expiresAt.None? || payment.expiresAt.value > now)
  }

  function SubmittedRows(db: Db, r: Id, now: Instant): set<Id> {
    set p | p in db.payments && Submittable(db.payments[p], r, now)
  }

  /** The service only passes references of at least four characters. */
  function SubmitManualError(db: Db, r: Id, reference: Id, now: Instant): Option<RepoError> {
    var rows := SubmittedRows(db, r, now);
    if rows == {} then Some(PaymentUnavailable)
    else if |rows| > 1 || exists q :: q in db.payments && q !in rows
                            && db.payments[q].provider.Manual? && db.payments[q].reference == Some(reference)
      then Some(UniqueViolation)
    else None
  }

  function SubmitManualPayment(db: Db, r: Id, reference: Id, now: Instant): Db {
    if SubmitManualError(db, r, reference, now).Some? then db
    else db.(payments := map p | p in db.payments ::
           if Submittable(db.payments[p], r, now) then db.payments[p].(reference := Some(reference), status := Processing)
           else db.payments[p])
  }

  predicate UnderReview(payment: Payment, r: Id) {
    payment.registration == r && payment.provider.Manual? && payment.status.Processing?
  }

  function FailManualError(db: Db, r: Id): Option<RepoError> {
    if r !in db.registrations then Some(NotFound)
    else if !db.registrations[r].status.Pending? then Some(PaymentUnavailable)
    else if !exists p :: p in db.payments && UnderReview(db.payments[p], r) then Some(PaymentUnavailable)
    else None
  }

  function FailReviewed(db: Db, r: Id): Db {
    db.(payments := map p | p in db.payments ::
      if UnderReview(db.payments[p], r) then db.payments[p].(status := Failed) else db.payments[p])
  }

  function FailManualPayment(db: Db, r: Id): Db {
    if FailManualError(db, r).None? then WithStatus(FailReviewed(db, r), r, Expired) else db
  }

  function ApproveManualError(db: Db, r: Id, p: Id): Option<RepoError> {
    if r !in db.registrations then Some(NotFound)
    else if !db.registrations[r].status.Pending? then Some(PaymentUnavailable)
    else if !(p in db.payments && UnderReview(db.payments[p], r)) then Some(PaymentUnavailable)
    else None
  }

  function ApproveManualPayment(db: Db, r: Id, p: Id, token: Id): Db {
    if ApproveManualError(db, r, p).None? then Confirm(WithPaymentStatus(db, p, Succeeded), r, token) else db
  }

  function Settle(db: Db, r: Id, p: Id): (db': Db)
    ensures db'.registrations == db.registrations && db'.tickets == db.tickets
  {
    if p in db.payments && db.payments[p].registration == r then WithPaymentStatus(db, p, Succeeded) else db
  }

  /** The payment UPDATE has no status guard: a settled payment succeeds whatever became of the registration. */
  function ConfirmStoredPayment(db: Db, r: Id, p: Id, token: Id): Db {
    if r !in db.registrations then db
    else if db.registrations[r].status.Pending? then Confirm(Settle(db, r, p), r, token)
    else Settle(db, r, p)
  }

  /** FOR UPDATE SKIP LOCKED and LIMIT leave the choice among the due payments open. */
  predicate Claimable(db: Db, now: Instant, chosen: set<Id>) {
    |chosen| <= MAX_CLAIMS && forall p :: p in chosen ==> p in db.payments && db.payments[p].Due(now)
  }

  function ClaimPendingPayments(db: Db, worker: Id, now: Instant, chosen: set<Id>): Db {
    db.(payments := map p | p in db.payments ::
      if p in chosen then db.payments[p].(worker := Some(worker), leaseUntil := Some(now + RECONCILE_LEASE))
      else db.payments[p])
  }

  function SchedulePaymentReconciliation(db: Db, p: Id, worker: Id, next: Instant): Db {
    if p in db.payments && db.payments[p].HeldBy(worker) then
      var payment := db.payments[p];
      WithPayment(db, p, payment.(reconcileAfter := next, leaseUntil := None, worker := None, attempts := payment.attempts + 1))
    else db
  }

  predicate Claimed(db: Db, r: Id, p: Id, worker: Id) {
    r in db.registrations && p in db.payments && db.payments[p].registration == r && db.payments[p].HeldBy(worker)
  }

  function FailClaimed(db: Db, p: Id): Db
    requires p in db.payments
  {
    WithPayment(db, p, db.payments[p].(status := Failed, leaseUntil := None, worker := None))
  }

  /** When no payment row matches, nothing is committed. */
  function ExpireClaimedPayment(db: Db, r: Id, p: Id, worker: Id): Db {
    if !Claimed(db, r, p, worker) then db
    else if db.registrations[r].status.Pending? then WithStatus(FailClaimed(db, p), r, Expired)
    else FailClaimed(db, p)
  }

  /** The rows of the sweep's first UPDATE. */
  function SweepRows(db: Db, now: Instant): set<Id> {
    set r | r in db.registrations && db.registrations[r].status.Pending?
      && exists p :: p in db.payments && db.payments[p].registration == r && db.payments[p].Overdue(now)
  }

  /** The sweep's commit: its first UPDATE touched rows, its second fails every overdue payment it now sees. */
  function SweepCommit(db: Db, now: Instant, rows: set<Id>): Db {
    db.(registrations := map r | r in db.registrations ::
          if r in rows then db.registrations[r].(status := Expired) else db.registrations[r],
        payments := map p | p in db.payments ::
          if db.payments[p].Overdue(now) then db.payments[p].(status := Failed) else db.payments[p])
  }

  /** First write wins. */
  function StoreOutcome(db: Db, key: Key, outcome: Outcome): Db {
    if key in db.outcomes then db else db.(outcomes := db.outcomes[key := outcome])
  }

  function DeleteExpiredOutcomes(db: Db, now: Instant): Db {
    db.(outcomes := map k | k in db.outcomes && db.outcomes[k].expiresAt > now :: db.outcomes[k])
  }

  datatype Replay = NoRecord | Conflict | Replay(outcome: Outcome)

  function Lookup(db: Db, key: Key, requestHash: Id): Replay {
    if key !in db.outcomes then NoRecord
    else if db.outcomes[key].requestHash != requestHash then Conflict
    else Replay(db.outcomes[key])
  }
}
