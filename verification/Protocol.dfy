/**
 * The registration protocol as a state machine: the committed tables, the Create transactions and
 * expiry sweeps that are still open, and the service calls that are between two statements.
 *
 * An open transaction's writes are invisible until it commits; its locks block the statements that
 * wait for them. The remaining transactions of the repository first lock the registration row and hold
 * it to commit, so each is one step, disabled while an open sweep holds that row.
 */
module Protocol {
  import opened Wrappers
  import opened Tables
  import opened Statements

  /** The statements of Create, in order. */
  datatype Stage = Begun | CategoryLocked | Counted | Numbered | Inserted | Ticketed | Recorded {
    function Rank(): nat {
      match this
      case Begun => 0
      case CategoryLocked => 1
      case Counted => 2
      case Numbered => 3
      case Inserted => 4
      case Ticketed => 5
      case Recorded => 6
    }

    function Successor(): Stage {
      match this
      case Begun => CategoryLocked
      case CategoryLocked => Counted
      case Counted => Numbered
      case Numbered => Inserted
      case Inserted => Ticketed
      case _ => Recorded
    }

    predicate Reached(stage: Stage) {
      Rank() >= stage.Rank()
    }
  }

  datatype CreateParams = CreateParams(user: Id, event: Id, category: Id, confirm: bool, token: Id, hook: Option<(Key, Id)>) {
    /** Only the free path confirms at once, and only it stores its outcome inside the transaction. */
    predicate WellFormed() {
      hook.Some? ==> confirm && hook.value.0.user == user
    }
  }

  /** number is meaningful once Numbered, id once Inserted, outcome once Recorded. */
  datatype CreateTx = CreateTx(params: CreateParams, stage: Stage, number: Number, id: Id, outcome: Option<(Key, Outcome)>) {
    function Row(): Registration {
      Registration(number, params.user, params.event, params.category, if params.confirm then Confirmed else Pending)
    }
  }

  datatype Sweep = Sweep(now: Instant, rows: set<Id>)

  /** Where a registerPaid call is: before its payment row exists, or releasing the place after a failure. */
  datatype PaidCall = AwaitingProvider | Releasing

  /**
   * A cancellation call that has read its registration as active, and - once ready - has found no check-in of
   * it: the three statements are separate.
   */
  datatype CancelCall = CancelCall(registration: Id, ready: bool)

  datatype Sys = Sys(
    db: Db,
    clock: Instant,
    creates: map<Id, CreateTx>,
    sweeps: map<Id, Sweep>,
    calls: map<Id, PaidCall>,    // by registration
    scans: map<Id, Id>,          // check-in calls, with the registration that they have read as CONFIRMED
    cancels: map<Id, CancelCall>)
  {
    /** No open sweep has updated the row. */
    predicate RowFree(r: Id) {
      forall e :: e in sweeps ==> r !in sweeps[e].rows
    }

    predicate CategoryFree(category: Id) {
      forall t :: t in creates && creates[t].stage.Reached(CategoryLocked) ==> creates[t].params.category != category
    }

    predicate CounterFree(year: nat) {
      forall t :: t in creates && creates[t].stage.Reached(Numbered) ==> creates[t].number.year != year
    }

    /** No open transaction has inserted, or is releasing, an active row of this runner for this event. */
    predicate EntryFree(user: Id, event: Id) {
      && (forall t :: t in creates && creates[t].stage.Reached(Inserted) ==>
            !(creates[t].params.user == user && creates[t].params.event == event))
      && (forall r :: r in db.registrations && db.registrations[r].SameRunner(user, event) ==> RowFree(r))
    }

    predicate IdFree(r: Id) {
      r !in db.registrations && forall t :: t in creates && creates[t].stage.Reached(Inserted) ==> creates[t].id != r
    }

    predicate KeyFree(key: Key) {
      forall t :: t in creates && creates[t].outcome.Some? ==> creates[t].outcome.value.0 != key
    }
  }

  /** The statements of one Create transaction. */
  datatype CreateStep =
    | Begin(params: CreateParams)
    | LockCategory
    | CountActive
    | AllocateNumber(year: nat)
    | InsertRow(id: Id)
    | IssueTicket
    | RecordOutcome
    | Commit
    | Rollback

  /** registerPaid after its Create has committed registration r. */
  datatype PaidStep =
    | RecordPayment(p: Id, payment: Payment)
    | PayAtOnce(p: Id, payment: Payment, token: Id)
    | ProviderFailed
    | Release
    | Crash

  /** A transaction that first locks registration r; SubmitReference only writes its payment. */
  datatype EntryStep =
    | CancelEntry(c: Id)
    | SubmitReference(reference: Id)
    | RejectManual
    | ApproveManual(p: Id, token: Id)
    | SettleStored(p: Id, token: Id)
    | ExpireClaimed(p: Id, worker: Id)

  /** Leases, and the two statements of an expiry sweep e. */
  datatype WorkStep =
    | Claim(worker: Id, now: Instant, chosen: set<Id>)
    | Reschedule(p: Id, worker: Id, next: Instant)
    | SweepSelect(e: Id, now: Instant)
    | SweepFinish(e: Id)
    | SweepAbort(e: Id)

  datatype OtherStep =
    | ScanTicket(c: Id, r: Id)
    | CheckIn(c: Id, staff: Id)
    | ScanStatus(c: Id, r: Id)
    | ScanCheckIn(c: Id)
    | Leave(c: Id)
    | StorePaidOutcome(key: Key, outcome: Outcome)
    | CleanOutcomes(now: Instant)
    | SetCapacity(category: Id, capacity: int)
    | Tick(to: Instant)

  datatype Action =
    | Create(t: Id, create: CreateStep)
    | Paid(r: Id, paid: PaidStep)
    | Entry(r: Id, entry: EntryStep)
    | Work(work: WorkStep)
    | Other(other: OtherStep)

  predicate At(s: Sys, t: Id, stage: Stage) {
    t in s.creates && s.creates[t].stage == stage
  }

  predicate CreateEnabled(s: Sys, t: Id, step: CreateStep) {
    match step
    case Begin(params) => t !in s.creates && params.WellFormed()
    case LockCategory => At(s, t, Begun) && s.CategoryFree(s.creates[t].params.category)
    case CountActive => At(s, t, CategoryLocked)
    case AllocateNumber(year) => At(s, t, Counted) && s.CounterFree(year)
    case InsertRow(id) =>
      At(s, t, Numbered) && s.IdFree(id) && s.EntryFree(s.creates[t].params.user, s.creates[t].params.event)
    case IssueTicket => At(s, t, Inserted)
    case RecordOutcome =>
      At(s, t, Ticketed) && (s.creates[t].params.hook.Some? ==> s.KeyFree(s.creates[t].params.hook.value.0))
    case Commit => At(s, t, Recorded)
    case Rollback => t in s.creates
  }

  predicate PaidEnabled(s: Sys, r: Id, step: PaidStep) {
    r in s.calls &&
    match step
    case RecordPayment(p, payment) =>
      && s.calls[r].AwaitingProvider? && p !in s.db.payments && payment.registration == r
      && !payment.status.Succeeded? && payment.worker.None? && payment.leaseUntil.None?
    case PayAtOnce(p, payment, token) =>
      && s.calls[r].AwaitingProvider? && p !in s.db.payments && payment.registration == r
      && payment.status.Succeeded? && s.RowFree(r)
    case ProviderFailed => s.calls[r].AwaitingProvider?
    case Release => s.calls[r].Releasing? && s.RowFree(r)
    case Crash => true
  }

  /** The services confirm only a payment they have read for this registration, and never a manual one this way. */
  predicate EntryEnabled(s: Sys, r: Id, step: EntryStep) {
    match step
    case SubmitReference(_) => true
    case SettleStored(p, _) =>
      s.RowFree(r) && p in s.db.payments && s.db.payments[p].registration == r && !s.db.payments[p].provider.Manual?
    case CancelEntry(c) => s.RowFree(r) && c in s.cancels && s.cancels[c] == CancelCall(r, true)
    case _ => s.RowFree(r)
  }

  predicate WorkEnabled(s: Sys, step: WorkStep) {
    match step
    case Claim(worker, now, chosen) => Claimable(s.db, now, chosen)
    case Reschedule(_, _, _) => true
    case SweepSelect(e, now) =>
      e !in s.sweeps && now <= s.clock && forall r :: r in SweepRows(s.db, now) ==> s.RowFree(r)
    case SweepFinish(e) => e in s.sweeps
    case SweepAbort(e) => e in s.sweeps
  }

  predicate OtherEnabled(s: Sys, step: OtherStep) {
    match step
    case ScanTicket(c, r) => c !in s.scans && s.db.StatusIs(r, Confirmed)
    case CheckIn(c, _) => c in s.scans
    case ScanStatus(c, r) => c !in s.cancels && r in s.db.registrations && s.db.registrations[r].status.Active()
    case ScanCheckIn(c) => c in s.cancels && s.cancels[c].registration !in s.db.checkIns
    case Leave(_) => true
    case StorePaidOutcome(key, outcome) =>
      && s.KeyFree(key) && !outcome.free
      && outcome.registration in s.db.registrations && s.db.registrations[outcome.registration].user == key.user
    case CleanOutcomes(_) => true
    case SetCapacity(category, _) => category in s.db.categories && s.CategoryFree(category)
    case Tick(to) => s.clock <= to
  }

  /** A step is enabled when its caller can be there and no lock makes it wait. */
  predicate Enabled(s: Sys, a: Action) {
    match a
    case Create(t, step) => CreateEnabled(s, t, step)
    case Paid(r, step) => PaidEnabled(s, r, step)
    case Entry(r, step) => EntryEnabled(s, r, step)
    case Work(step) => WorkEnabled(s, step)
    case Other(step) => OtherEnabled(s, step)
  }

  function WithTx(s: Sys, t: Id, tx: CreateTx): Sys {
    s.(creates := s.creates[t := tx])
  }

  function DropTx(s: Sys, t: Id): Sys {
    s.(creates := s.creates - {t})
  }

  function DropCall(s: Sys, r: Id): Sys {
    s.(calls := s.calls - {r})
  }

  /** The stored response lives for a day. */
  const OUTCOME_TTL := 86400

  /** The committed writes of a Create transaction. */
  function CommittedDb(db: Db, tx: CreateTx): Db {
    db.(registrations := db.registrations[tx.id := tx.Row()],
        counters := db.counters[tx.number.year := tx.number.value],
        tickets := if tx.params.confirm then db.tickets[tx.id := tx.params.token] else db.tickets,
        outcomes := if tx.outcome.Some? then db.outcomes[tx.outcome.value.0 := tx.outcome.value.1] else db.outcomes)
  }

  function AfterCount(s: Sys, t: Id): Sys
    requires At(s, t, CategoryLocked)
  {
    var tx := s.creates[t];
    var category := tx.params.category;
    if category in s.db.categories && |s.db.ActiveIn(category)| < s.db.categories[category].capacity
      then WithTx(s, t, tx.(stage := Counted)) else DropTx(s, t)
  }

  function AfterInsert(s: Sys, t: Id, id: Id): Sys
    requires At(s, t, Numbered)
  {
    var tx := s.creates[t];
    if s.db.Taken(tx.params.user, tx.params.event) then DropTx(s, t)
    else WithTx(s, t, tx.(stage := Inserted, id := id))
  }

  /** ON CONFLICT DO NOTHING: a committed record with the same key keeps its place. */
  function AfterRecord(s: Sys, t: Id): Sys
    requires At(s, t, Ticketed)
  {
    var tx := s.creates[t];
    var outcome := match tx.params.hook
      case Some((key, hash)) => if key in s.db.outcomes then None else Some((key, Outcome(hash, tx.id, true, s.clock + OUTCOME_TTL)))
      case None => None;
    WithTx(s, t, tx.(stage := Recorded, outcome := outcome))
  }

  function AfterCommit(s: Sys, t: Id): Sys
    requires At(s, t, Recorded)
  {
    var tx := s.creates[t];
    DropTx(s, t).(
      db := CommittedDb(s.db, tx),
      calls := if tx.params.confirm then s.calls else s.calls[tx.id := AwaitingProvider])
  }

  function AfterRecordPayment(s: Sys, r: Id, p: Id, payment: Payment): Sys {
    var recorded := s.(db := CreatePayment(s.db, p, payment));
    if CreatePaymentError(s.db, payment).Some? || payment.status.Failed? then recorded.(calls := s.calls[r := Releasing])
    else DropCall(recorded, r)
  }

  function AfterPayAtOnce(s: Sys, r: Id, p: Id, payment: Payment, token: Id): Sys {
    DropCall(s, r).(db := ConfirmWithPayment(s.db, r, p, payment, token))
  }

  function AfterCreate(s: Sys, t: Id, step: CreateStep): Sys
    requires CreateEnabled(s, t, step)
  {
    match step
    case Begin(params) => WithTx(s, t, CreateTx(params, Begun, Number(0, 0), 0, None))
    case LockCategory =>
      if s.creates[t].params.category in s.db.categories then WithTx(s, t, s.creates[t].(stage := CategoryLocked))
      else DropTx(s, t)
    case CountActive => AfterCount(s, t)
    case AllocateNumber(year) =>
      WithTx(s, t, s.creates[t].(stage := Numbered, number := Number(year, s.db.LastValue(year) + 1)))
    case InsertRow(id) => AfterInsert(s, t, id)
    case IssueTicket => WithTx(s, t, s.creates[t].(stage := Ticketed))
    case RecordOutcome => AfterRecord(s, t)
    case Commit => AfterCommit(s, t)
    case Rollback => DropTx(s, t)
  }

  function AfterPaid(s: Sys, r: Id, step: PaidStep): Sys
    requires PaidEnabled(s, r, step)
  {
    match step
    case RecordPayment(p, payment) => AfterRecordPayment(s, r, p, payment)
    case PayAtOnce(p, payment, token) => AfterPayAtOnce(s, r, p, payment, token)
    case ProviderFailed => s.(calls := s.calls[r := Releasing])
    case Release => DropCall(s.(db := Cancel(s.db, r)), r)
    case Crash => DropCall(s, r)
  }

  /** What a step of registerPaid writes to the tables. */
  function PaidWrites(db: Db, r: Id, step: PaidStep): Db {
    match step
    case RecordPayment(p, payment) => CreatePayment(db, p, payment)
    case PayAtOnce(p, payment, token) => ConfirmWithPayment(db, r, p, payment, token)
    case Release => Cancel(db, r)
    case _ => db
  }

  lemma PaidDb(s: Sys, r: Id, step: PaidStep)
    requires PaidEnabled(s, r, step)
    ensures AfterPaid(s, r, step).db == PaidWrites(s.db, r, step)
  {
  }

  function AfterEntry(s: Sys, r: Id, step: EntryStep): Db {
    match step
    case CancelEntry(_) => Cancel(s.db, r)
    case SubmitReference(reference) => SubmitManualPayment(s.db, r, reference, s.clock)
    case RejectManual => FailManualPayment(s.db, r)
    case ApproveManual(p, token) => ApproveManualPayment(s.db, r, p, token)
    case SettleStored(p, token) => ConfirmStoredPayment(s.db, r, p, token)
    case ExpireClaimed(p, worker) => ExpireClaimedPayment(s.db, r, p, worker)
  }

  function AfterWork(s: Sys, step: WorkStep): Sys
    requires WorkEnabled(s, step)
  {
    match step
    case Claim(worker, now, chosen) => s.(db := ClaimPendingPayments(s.db, worker, now, chosen))
    case Reschedule(p, worker, next) => s.(db := SchedulePaymentReconciliation(s.db, p, worker, next))
    case SweepSelect(e, now) => s.(sweeps := s.sweeps[e := Sweep(now, SweepRows(s.db, now))])
    case SweepFinish(e) => s.(db := SweepCommit(s.db, s.sweeps[e].now, s.sweeps[e].rows), sweeps := s.sweeps - {e})
    case SweepAbort(e) => s.(sweeps := s.sweeps - {e})
  }

  /** registration_id is unique: a second check-in reports the violation and changes nothing. */
  function InsertCheckIn(db: Db, r: Id, staff: Id): Db {
    if r in db.checkIns then db else db.(checkIns := db.checkIns[r := staff])
  }

  function AfterOther(s: Sys, step: OtherStep): Sys
    requires OtherEnabled(s, step)
  {
    match step
    case ScanTicket(c, r) => s.(scans := s.scans[c := r])
    case CheckIn(c, staff) => s.(db := InsertCheckIn(s.db, s.scans[c], staff), scans := s.scans - {c})
    case ScanStatus(c, r) => s.(cancels := s.cancels[c := CancelCall(r, false)])
    case ScanCheckIn(c) => s.(cancels := s.cancels[c := CancelCall(s.cancels[c].registration, true)])
    case Leave(c) => s.(scans := s.scans - {c}, cancels := s.cancels - {c})
    case StorePaidOutcome(key, outcome) => s.(db := StoreOutcome(s.db, key, outcome))
    case CleanOutcomes(now) => s.(db := DeleteExpiredOutcomes(s.db, now))
    case SetCapacity(category, capacity) =>
      s.(db := s.db.(categories := s.db.categories[category := s.db.categories[category].(capacity := capacity)]))
    case Tick(to) => s.(clock := to)
  }

  function Next(s: Sys, a: Action): Sys
    requires Enabled(s, a)
  {
    match a
    case Create(t, step) => AfterCreate(s, t, step)
    case Paid(r, step) => AfterPaid(s, r, step)
    case Entry(r, step) =>
      s.(db := AfterEntry(s, r, step), cancels := if step.CancelEntry? then s.cancels - {step.c} else s.cancels)
    case Work(step) => AfterWork(s, step)
    case Other(step) => AfterOther(s, step)
  }

  /** A run: states[k + 1] follows states[k] by actions[k]. */
  datatype Run = Run(states: seq<Sys>, actions: seq<Action>) {
    ghost predicate Valid() {
      && |states| == |actions| + 1
      && forall k :: 0 <= k < |actions| ==> Enabled(states[k], actions[k]) && states[k + 1] == Next(states[k], actions[k])
    }
  }

  /** An empty system with some categories. */
  predicate Initial(s: Sys) {
    && s.db.registrations == map[] && s.db.payments == map[] && s.db.tickets == map[] && s.db.checkIns == map[]
    && s.db.counters == map[] && s.db.outcomes == map[]
    && s.creates == map[] && s.sweeps == map[] && s.calls == map[] && s.scans == map[] && s.cancels == map[]
  }
}
