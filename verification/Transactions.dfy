/** The repository's transactions run one at a time: each is a step, or a run of steps, of the protocol. */
module Transactions {
  import opened Wrappers
  import opened Tables
  import opened Statements
  import opened Protocol
  import opened CreateInvariant
  import opened PaymentInvariant
  import opened ProtocolInvariant
  import opened StepInvariant

  /** The protocol with nothing in flight. */
  function Alone(db: Db, clock: Instant): Sys {
    Sys(db, clock, map[], map[], map[], map[], map[])
  }

  /** What the committed tables keep. */
  ghost predicate Agrees(db: Db) {
    TablesAgree(db) && OneActiveEntry(db) && NumbersExact(db)
  }

  lemma AloneInv(db: Db, clock: Instant)
    ensures Agrees(db) <==> Inv(Alone(db, clock))
  {
  }

  lemma InvAgrees(s: Sys)
    requires Inv(s)
    ensures Agrees(s.db)
  {
  }

  lemma EntryAgrees(db: Db, now: Instant, r: Id, step: EntryStep)
    requires Agrees(db) && EntryEnabled(Alone(db, now), r, step)
    ensures Agrees(AfterEntry(Alone(db, now), r, step))
  {
    AloneInv(db, now);
    EntryStepKeepsInv(Alone(db, now), r, step);
    InvAgrees(Alone(db, now).(db := AfterEntry(Alone(db, now), r, step)));
  }

  lemma CancelAgreesAlone(db: Db, r: Id)
    requires Agrees(db)
    ensures Agrees(Cancel(db, r))
  {
    AloneInv(db, 0);
    CancelStep(Alone(db, 0), r);
    InvAgrees(Alone(db, 0).(db := Cancel(db, r)));
  }

  lemma OtherAgrees(db: Db, now: Instant, step: OtherStep)
    requires Agrees(db) && OtherEnabled(Alone(db, now), step)
    ensures Agrees(AfterOther(Alone(db, now), step).db)
  {
    AloneInv(db, now);
    OtherStepKeepsInv(Alone(db, now), step);
    InvAgrees(AfterOther(Alone(db, now), step));
  }

  lemma CheckInAgrees(db: Db, r: Id, staff: Id)
    requires Agrees(db) && db.StatusIs(r, Confirmed) && r !in db.checkIns
    ensures Agrees(db.(checkIns := db.checkIns[r := staff]))
  {
    var s := AfterOther(Alone(db, 0), ScanTicket(0, r));
    AloneInv(db, 0);
    OtherStepKeepsInv(Alone(db, 0), ScanTicket(0, r));
    OtherStepKeepsInv(s, CheckIn(0, staff));
    InvAgrees(AfterOther(s, CheckIn(0, staff)));
  }

  lemma ClaimAgreesAlone(db: Db, worker: Id, now: Instant, chosen: set<Id>)
    requires Agrees(db) && Claimable(db, now, chosen)
    ensures Agrees(ClaimPendingPayments(db, worker, now, chosen))
  {
    AloneInv(db, now);
    ClaimStep(Alone(db, now), worker, now, chosen);
    InvAgrees(Alone(db, now).(db := ClaimPendingPayments(db, worker, now, chosen)));
  }

  lemma ScheduleAgreesAlone(db: Db, p: Id, worker: Id, next: Instant)
    requires Agrees(db)
    ensures Agrees(SchedulePaymentReconciliation(db, p, worker, next))
  {
    AloneInv(db, 0);
    RescheduleStep(Alone(db, 0), p, worker, next);
    InvAgrees(Alone(db, 0).(db := SchedulePaymentReconciliation(db, p, worker, next)));
  }

  /** Both statements of an expiry sweep, with nothing in between. */
  function ExpirePendingPayments(db: Db, now: Instant): Db {
    SweepCommit(db, now, SweepRows(db, now))
  }

  lemma SweepAgreesAlone(db: Db, now: Instant)
    requires Agrees(db)
    ensures Agrees(ExpirePendingPayments(db, now))
  {
    var s := Alone(db, now);
    AloneInv(db, now);
    SelectStep(s, 0, now);
    FinishStep(AfterWork(s, SweepSelect(0, now)), 0);
    InvAgrees(AfterWork(AfterWork(s, SweepSelect(0, now)), SweepFinish(0)));
  }

  /** The registration's payment row is still to be written. */
  ghost predicate AwaitsPayment(db: Db, r: Id) {
    r in db.registrations && r !in db.tickets && !HasPayment(db, r)
  }

  lemma CallInv(db: Db, r: Id)
    requires Agrees(db) && AwaitsPayment(db, r)
    ensures Inv(Alone(db, 0).(calls := map[r := AwaitingProvider]))
  {
  }

  lemma CreatePaymentAgrees(db: Db, p: Id, payment: Payment)
    requires Agrees(db) && AwaitsPayment(db, payment.registration)
    requires p !in db.payments && !payment.status.Succeeded? && payment.worker.None? && payment.leaseUntil.None?
    ensures Agrees(CreatePayment(db, p, payment))
  {
    var s := Alone(db, 0).(calls := map[payment.registration := AwaitingProvider]);
    CallInv(db, payment.registration);
    RecordPaymentStep(s, payment.registration, p, payment);
    InvAgrees(AfterPaid(s, payment.registration, RecordPayment(p, payment)));
  }

  lemma ConfirmWithPaymentAgrees(db: Db, r: Id, p: Id, payment: Payment, token: Id)
    requires Agrees(db) && AwaitsPayment(db, r)
    requires p !in db.payments && payment.registration == r && payment.status.Succeeded?
    ensures Agrees(ConfirmWithPayment(db, r, p, payment, token))
  {
    var s := Alone(db, 0).(calls := map[r := AwaitingProvider]);
    CallInv(db, r);
    PayStep(s, r, p, payment, token);
    InvAgrees(AfterPaid(s, r, PayAtOnce(p, payment, token)));
  }

  // ---- Create ----

  function CreateError(db: Db, params: CreateParams): Option<RepoError> {
    if params.category !in db.categories then Some(NotFound)
    else if |db.ActiveIn(params.category)| >= db.categories[params.category].capacity then Some(CapacityFull)
    else if db.Taken(params.user, params.event) then Some(DuplicateRegistration)
    else None
  }

  function RecordedOutcome(db: Db, params: CreateParams, id: Id, now: Instant): Option<(Key, Outcome)> {
    match params.hook
    case Some((key, hash)) => if key in db.outcomes then None else Some((key, Outcome(hash, id, true, now + OUTCOME_TTL)))
    case None => None
  }

  /** The transaction at its commit, when it succeeds. */
  function CreatedTx(db: Db, params: CreateParams, year: nat, id: Id, now: Instant): CreateTx {
    CreateTx(params, Recorded, Number(year, db.LastValue(year) + 1), id, RecordedOutcome(db, params, id, now))
  }

  function Created(db: Db, params: CreateParams, year: nat, id: Id, now: Instant): Db {
    CommittedDb(db, CreatedTx(db, params, year, id, now))
  }

  /** The protocol with this one transaction open. */
  function Open(db: Db, tx: CreateTx, now: Instant): Sys {
    WithTx(Alone(db, now), 0, tx)
  }

  /** One statement of the only open transaction. */
  predicate Steps(s: Sys, step: CreateStep, s': Sys) {
    Enabled(s, Action.Create(0, step)) && s' == Next(s, Action.Create(0, step))
  }

  lemma FirstStatements(db: Db, params: CreateParams, now: Instant)
    requires params.WellFormed() && CreateError(db, params).None?
    ensures var tx := CreateTx(params, Begun, Number(0, 0), 0, None);
      && Steps(Alone(db, now), Begin(params), Open(db, tx, now))
      && Steps(Open(db, tx, now), LockCategory, Open(db, tx.(stage := CategoryLocked), now))
      && Steps(Open(db, tx.(stage := CategoryLocked), now), CountActive, Open(db, tx.(stage := Counted), now))
  {
    var tx := CreateTx(params, Begun, Number(0, 0), 0, None);
    assert AfterCreate(Open(db, tx, now), 0, LockCategory).creates == map[0 := tx.(stage := CategoryLocked)];
    assert AfterCreate(Open(db, tx.(stage := CategoryLocked), now), 0, CountActive).creates == map[0 := tx.(stage := Counted)];
  }

  lemma AllocateStatement(db: Db, params: CreateParams, year: nat, now: Instant)
    ensures Steps(Open(db, CreateTx(params, Counted, Number(0, 0), 0, None), now), AllocateNumber(year),
              Open(db, CreateTx(params, Numbered, Number(year, db.LastValue(year) + 1), 0, None), now))
  {
    var numbered := CreateTx(params, Numbered, Number(year, db.LastValue(year) + 1), 0, None);
    assert AfterCreate(Open(db, CreateTx(params, Counted, Number(0, 0), 0, None), now), 0, AllocateNumber(year)).creates
      == map[0 := numbered];
  }

  lemma InsertStatement(db: Db, params: CreateParams, number: Number, id: Id, now: Instant)
    requires CreateError(db, params).None? && id !in db.registrations
    ensures Steps(Open(db, CreateTx(params, Numbered, number, 0, None), now), InsertRow(id),
              Open(db, CreateTx(params, Inserted, number, id, None), now))
  {
    var inserted := CreateTx(params, Inserted, number, id, None);
    assert AfterCreate(Open(db, CreateTx(params, Numbered, number, 0, None), now), 0, InsertRow(id)).creates == map[0 := inserted];
  }

  lemma LastStatements(db: Db, params: CreateParams, year: nat, id: Id, now: Instant)
    ensures var tx := CreateTx(params, Inserted, Number(year, db.LastValue(year) + 1), id, None);
            var created := Open(db, CreatedTx(db, params, year, id, now), now);
      && Steps(Open(db, tx, now), IssueTicket, Open(db, tx.(stage := Ticketed), now))
      && Steps(Open(db, tx.(stage := Ticketed), now), RecordOutcome, created)
      && Steps(created, Commit, AfterCreate(created, 0, Commit))
      && AfterCreate(created, 0, Commit).db == Created(db, params, year, id, now)
  {
    var tx := CreateTx(params, Inserted, Number(year, db.LastValue(year) + 1), id, None);
    var created := CreatedTx(db, params, year, id, now);
    assert AfterCreate(Open(db, tx, now), 0, IssueTicket).creates == map[0 := tx.(stage := Ticketed)];
    assert AfterCreate(Open(db, tx.(stage := Ticketed), now), 0, RecordOutcome).creates == map[0 := created];
  }

  /** The states that a Create which runs alone passes through. */
  function CreateStates(db: Db, params: CreateParams, year: nat, id: Id, now: Instant): seq<Sys> {
    var begun := CreateTx(params, Begun, Number(0, 0), 0, None);
    var inserted := CreateTx(params, Inserted, Number(year, db.LastValue(year) + 1), id, None);
    [Alone(db, now), Open(db, begun, now), Open(db, begun.(stage := CategoryLocked), now), Open(db, begun.(stage := Counted), now),
     Open(db, inserted.(stage := Numbered, id := 0), now), Open(db, inserted, now), Open(db, inserted.(stage := Ticketed), now),
     Open(db, CreatedTx(db, params, year, id, now), now),
     AfterCreate(Open(db, CreatedTx(db, params, year, id, now), now), 0, Commit)]
  }

  function CreateSteps(params: CreateParams, year: nat, id: Id): seq<CreateStep> {
    [Begin(params), LockCategory, CountActive, AllocateNumber(year), InsertRow(id), IssueTicket, RecordOutcome, Commit]
  }

  lemma TakesFirst(db: Db, params: CreateParams, year: nat, id: Id, now: Instant, k: nat)
    requires params.WellFormed() && CreateError(db, params).None? && id !in db.registrations && k < 3
    ensures Steps(CreateStates(db, params, year, id, now)[k], CreateSteps(params, year, id)[k], CreateStates(db, params, year, id, now)[k + 1])
  {
    if k == 0 {
      FirstStatements(db, params, now);
    } else if k == 1 {
      FirstStatements(db, params, now);
    } else {
      FirstStatements(db, params, now);
    }
  }

  lemma TakesMiddle(db: Db, params: CreateParams, year: nat, id: Id, now: Instant, k: nat)
    requires params.WellFormed() && CreateError(db, params).None? && id !in db.registrations && 3 <= k < 5
    ensures Steps(CreateStates(db, params, year, id, now)[k], CreateSteps(params, year, id)[k], CreateStates(db, params, year, id, now)[k + 1])
  {
    if k == 3 {
      AllocateStatement(db, params, year, now);
    } else {
      InsertStatement(db, params, Number(year, db.LastValue(year) + 1), id, now);
    }
  }

  lemma TakesLast(db: Db, params: CreateParams, year: nat, id: Id, now: Instant, k: nat)
    requires params.WellFormed() && CreateError(db, params).None? && id !in db.registrations && 5 <= k < 8
    ensures Steps(CreateStates(db, params, year, id, now)[k], CreateSteps(params, year, id)[k], CreateStates(db, params, year, id, now)[k + 1])
  {
    if k == 5 {
      LastStatements(db, params, year, id, now);
    } else if k == 6 {
      LastStatements(db, params, year, id, now);
    } else {
      LastStatements(db, params, year, id, now);
    }
  }

  lemma CreateTakesSteps(db: Db, params: CreateParams, year: nat, id: Id, now: Instant, k: nat)
    requires params.WellFormed() && CreateError(db, params).None? && id !in db.registrations && k < 8
    ensures Steps(CreateStates(db, params, year, id, now)[k], CreateSteps(params, year, id)[k], CreateStates(db, params, year, id, now)[k + 1])
  {
    if k < 3 {
      TakesFirst(db, params, year, id, now, k);
    } else if k < 5 {
      TakesMiddle(db, params, year, id, now, k);
    } else {
      TakesLast(db, params, year, id, now, k);
    }
  }

  function CreateActions(steps: seq<CreateStep>): (actions: seq<Action>)
    ensures |actions| == |steps|
  {
    seq(|steps|, k requires 0 <= k < |steps| => Action.Create(0, steps[k]))
  }

  lemma StepsMakeRun(states: seq<Sys>, steps: seq<CreateStep>)
    requires |states| == |steps| + 1
    requires forall k :: 0 <= k < |steps| ==> Steps(states[k], steps[k], states[k + 1])
    ensures Run(states, CreateActions(steps)).Valid()
  {
    forall k | 0 <= k < |steps|
      ensures Enabled(states[k], CreateActions(steps)[k]) && states[k + 1] == Next(states[k], CreateActions(steps)[k])
    {
      assert Steps(states[k], steps[k], states[k + 1]);
    }
  }

  /** A Create that finds no error is a run of the protocol, from the tables it finds to the tables its specification says. */
  lemma CreateIsARun(db: Db, params: CreateParams, year: nat, id: Id, now: Instant)
    requires params.WellFormed() && CreateError(db, params).None? && id !in db.registrations
    ensures var run := Run(CreateStates(db, params, year, id, now), CreateActions(CreateSteps(params, year, id)));
      run.Valid() && run.states[0] == Alone(db, now) && run.states[8].db == Created(db, params, year, id, now)
  {
    var (states, steps) := (CreateStates(db, params, year, id, now), CreateSteps(params, year, id));
    forall k: nat | k < 8 ensures Steps(states[k], steps[k], states[k + 1]) {
      CreateTakesSteps(db, params, year, id, now, k);
    }
    StepsMakeRun(states, steps);
    LastDb(db, params, year, id, now);
  }

  lemma LastDb(db: Db, params: CreateParams, year: nat, id: Id, now: Instant)
    ensures CreateStates(db, params, year, id, now)[8].db == Created(db, params, year, id, now)
  {
    LastStatements(db, params, year, id, now);
  }

  /** ... and so keeps what every run keeps. */
  lemma CreateAgrees(db: Db, params: CreateParams, year: nat, id: Id, now: Instant)
    requires Agrees(db) && params.WellFormed() && id !in db.registrations && CreateError(db, params).None?
    ensures Agrees(Created(db, params, year, id, now))
  {
    var tx := CreatedTx(db, params, year, id, now);
    assert Fits(Open(db, tx, now), 0, tx);
    CommitStep(Open(db, tx, now), 0);
    InvAgrees(AfterCreate(Open(db, tx, now), 0, Commit));
  }
}
