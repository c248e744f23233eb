/** What one step may change: entries move one way, settled payments and tickets stay. */
module Evolution {
  import opened Wrappers
  import opened Tables
  import opened Statements
  import opened Protocol
  import opened CreateInvariant
  import opened ProtocolInvariant
  import opened StepInvariant

  /** PENDING may become anything, the others only CANCELLED. */
  ghost predicate Follows(before: Status, after: Status) {
    before == after || before.Pending? || after.Cancelled?
  }

  ghost predicate HasSettled(db: Db, r: Id) {
    exists p :: p in db.payments && db.payments[p].registration == r && db.payments[p].status.Succeeded?
  }

  /** A registration that existed before: it may be confirmed only by a settled payment. */
  ghost predicate EntryEvolves(db': Db, r: Id, before: Registration, after: Registration) {
    && after.SameEntry(before) && Follows(before.status, after.status)
    && (before.status.Pending? && after.status.Confirmed? ==> HasSettled(db', r))
  }

  ghost predicate PaymentEvolves(before: Payment, after: Payment) {
    after.SameCharge(before) && (before.status.Succeeded? ==> after.status.Succeeded?)
  }

  /** Tickets are issued to entries that are confirmed by the same step, and never withdrawn. */
  ghost predicate TicketEvolves(db: Db, db': Db, r: Id) {
    (r in db.tickets ==> r in db'.tickets) && (r in db'.tickets && r !in db.tickets ==> db'.StatusIs(r, Confirmed))
  }

  ghost predicate Evolves(db: Db, db': Db) {
    && (forall r :: r in db.registrations ==>
          r in db'.registrations && EntryEvolves(db', r, db.registrations[r], db'.registrations[r]))
    && (forall p :: p in db.payments ==> p in db'.payments && PaymentEvolves(db.payments[p], db'.payments[p]))
    && (forall r :: TicketEvolves(db, db', r))
    && (forall r :: r in db.checkIns ==> r in db'.checkIns && db'.checkIns[r] == db.checkIns[r])
  }

  lemma SameRowsEvolve(db: Db, db': Db)
    requires db'.registrations == db.registrations && db'.payments == db.payments && db'.tickets == db.tickets
    requires forall r :: r in db.checkIns ==> r in db'.checkIns && db'.checkIns[r] == db.checkIns[r]
    ensures Evolves(db, db')
  {
  }

  lemma ReleaseEvolves(db: Db, r: Id, status: Status)
    requires r in db.registrations && Follows(db.registrations[r].status, status) && !status.Confirmed?
    ensures Evolves(db, WithStatus(db, r, status))
  {
  }

  lemma PaymentRowEvolves(db: Db, p: Id, payment: Payment)
    requires p in db.payments ==> PaymentEvolves(db.payments[p], payment)
    ensures Evolves(db, WithPayment(db, p, payment))
  {
  }

  lemma ConfirmEvolves(db: Db, p: Id, payment: Payment, r: Id, token: Id)
    requires db.StatusIs(r, Pending) && payment.registration == r && payment.status.Succeeded?
    requires p in db.payments ==> PaymentEvolves(db.payments[p], payment)
    ensures Evolves(db, Confirm(WithPayment(db, p, payment), r, token))
  {
    var db' := Confirm(WithPayment(db, p, payment), r, token);
    assert HasSettled(db', r) by {
      assert db'.payments[p] == payment;
    }
    forall q | q in db.payments ensures q in db'.payments && PaymentEvolves(db.payments[q], db'.payments[q]) {}
    forall q | q in db.registrations ensures EntryEvolves(db', q, db.registrations[q], db'.registrations[q]) {}
    forall q ensures TicketEvolves(db, db', q) {}
  }

  /** A change of payments alone composes with a release. */
  lemma PaymentsThenRelease(a: Db, b: Db, r: Id, status: Status)
    requires Evolves(a, b) && b.registrations == a.registrations && b.tickets == a.tickets && r in a.registrations
    requires Follows(a.registrations[r].status, status) && !status.Confirmed?
    ensures Evolves(a, WithStatus(b, r, status))
  {
    var c := WithStatus(b, r, status);
    forall q | q in a.registrations ensures q in c.registrations && EntryEvolves(c, q, a.registrations[q], c.registrations[q]) {}
    forall q | q in a.payments ensures q in c.payments && PaymentEvolves(a.payments[q], c.payments[q]) {}
    forall q ensures TicketEvolves(a, c, q) {
      assert TicketEvolves(a, b, q);
    }
  }

  lemma EntryStepEvolves(s: Sys, r: Id, step: EntryStep)
    requires Inv(s) && EntryEnabled(s, r, step)
    ensures Evolves(s.db, AfterEntry(s, r, step))
  {
    match step {
      case CancelEntry(_) =>
        if r in s.db.registrations { ReleaseEvolves(s.db, r, Cancelled); }
      case SubmitReference(reference) =>
        SubmitEvolves(s.db, r, reference, s.clock);
      case RejectManual =>
        RejectEvolves(s.db, r);
      case ApproveManual(p, token) =>
        if ApproveManualError(s.db, r, p).None? { ConfirmEvolves(s.db, p, s.db.payments[p].(status := Succeeded), r, token); }
      case SettleStored(p, token) =>
        SettleEvolves(s.db, r, p, token);
      case ExpireClaimed(p, worker) =>
        ExpireEvolves(s.db, r, p, worker);
    }
  }

  lemma SubmitEvolves(db: Db, r: Id, reference: Id, now: Instant)
    ensures Evolves(db, SubmitManualPayment(db, r, reference, now))
  {
  }

  lemma RejectEvolves(db: Db, r: Id)
    ensures Evolves(db, FailManualPayment(db, r))
  {
    assert Evolves(db, FailReviewed(db, r));
    if FailManualError(db, r).None? {
      PaymentsThenRelease(db, FailReviewed(db, r), r, Expired);
    }
  }

  lemma SettleEvolves(db: Db, r: Id, p: Id, token: Id)
    requires p in db.payments && db.payments[p].registration == r
    ensures Evolves(db, ConfirmStoredPayment(db, r, p, token))
  {
    var payment := db.payments[p].(status := Succeeded);
    if db.StatusIs(r, Pending) {
      ConfirmEvolves(db, p, payment, r, token);
    } else {
      PaymentRowEvolves(db, p, payment);
    }
  }

  lemma ExpireEvolves(db: Db, r: Id, p: Id, worker: Id)
    ensures Evolves(db, ExpireClaimedPayment(db, r, p, worker))
  {
    if Claimed(db, r, p, worker) {
      PaymentRowEvolves(db, p, db.payments[p].(status := Failed, leaseUntil := None, worker := None));
      if db.registrations[r].status.Pending? { PaymentsThenRelease(db, FailClaimed(db, p), r, Expired); }
    }
  }

  lemma ClaimEvolves(db: Db, worker: Id, now: Instant, chosen: set<Id>)
    ensures Evolves(db, ClaimPendingPayments(db, worker, now, chosen))
  {
  }

  lemma RescheduleEvolves(db: Db, p: Id, worker: Id, next: Instant)
    ensures Evolves(db, SchedulePaymentReconciliation(db, p, worker, next))
  {
    if p in db.payments && db.payments[p].HeldBy(worker) {
      var payment := db.payments[p];
      PaymentRowEvolves(db, p, payment.(reconcileAfter := next, leaseUntil := None, worker := None, attempts := payment.attempts + 1));
    } else {
      SameRowsEvolve(db, db);
    }
  }

  lemma WorkStepEvolves(s: Sys, step: WorkStep)
    requires SweepsOwn(s) && WorkEnabled(s, step)
    ensures Evolves(s.db, AfterWork(s, step).db)
  {
    match step {
      case Claim(worker, now, chosen) => ClaimEvolves(s.db, worker, now, chosen);
      case Reschedule(p, worker, next) => RescheduleEvolves(s.db, p, worker, next);
      case SweepFinish(e) =>
        forall r | r in s.sweeps[e].rows ensures s.db.StatusIs(r, Pending) {
          assert SweptRow(s, s.sweeps[e].now, r);
        }
        SweepEvolves(s.db, s.sweeps[e].now, s.sweeps[e].rows);
      case _ => SameRowsEvolve(s.db, AfterWork(s, step).db);
    }
  }

  lemma SweepEvolves(db: Db, now: Instant, rows: set<Id>)
    requires forall r :: r in rows ==> db.StatusIs(r, Pending)
    ensures Evolves(db, SweepCommit(db, now, rows))
  {
  }

  lemma RecordPaymentEvolves(db: Db, p: Id, payment: Payment)
    requires p !in db.payments
    ensures Evolves(db, CreatePayment(db, p, payment))
  {
    if CreatePaymentError(db, payment).None? {
      PaymentRowEvolves(db, p, payment);
    } else {
      SameRowsEvolve(db, db);
    }
  }

  lemma PayEvolves(db: Db, r: Id, p: Id, payment: Payment, token: Id)
    requires p !in db.payments && payment.registration == r && payment.status.Succeeded?
    ensures Evolves(db, ConfirmWithPayment(db, r, p, payment, token))
  {
    if ConfirmWithPaymentError(db, r, payment).None? {
      ConfirmEvolves(db, p, payment, r, token);
    } else {
      SameRowsEvolve(db, db);
    }
  }

  lemma CancelEvolves(db: Db, r: Id)
    ensures Evolves(db, Cancel(db, r))
  {
    if r in db.registrations {
      ReleaseEvolves(db, r, Cancelled);
    } else {
      SameRowsEvolve(db, db);
    }
  }

  lemma PaidStepEvolves(s: Sys, r: Id, step: PaidStep)
    requires Inv(s) && PaidEnabled(s, r, step)
    ensures Evolves(s.db, AfterPaid(s, r, step).db)
  {
    PaidDb(s, r, step);
    match step {
      case RecordPayment(p, payment) => RecordPaymentEvolves(s.db, p, payment);
      case PayAtOnce(p, payment, token) => PayEvolves(s.db, r, p, payment, token);
      case Release => CancelEvolves(s.db, r);
      case _ => SameRowsEvolve(s.db, s.db);
    }
  }

  lemma CommitEvolves(db: Db, tx: CreateTx)
    requires tx.id !in db.registrations
    ensures Evolves(db, CommittedDb(db, tx))
  {
  }

  lemma CreateStepEvolves(s: Sys, t: Id, step: CreateStep)
    requires Inv(s) && CreateEnabled(s, t, step)
    ensures Evolves(s.db, AfterCreate(s, t, step).db)
  {
    if step.Commit? {
      assert Fits(s, t, s.creates[t]);
      CommitEvolves(s.db, s.creates[t]);
    } else {
      CreateKeepsFlow(s, t, step);
      SameRowsEvolve(s.db, s.db);
    }
  }

  lemma OtherStepEvolves(s: Sys, step: OtherStep)
    requires OtherEnabled(s, step)
    ensures Evolves(s.db, AfterOther(s, step).db)
  {
    SameRowsEvolve(s.db, AfterOther(s, step).db);
  }

  lemma StepEvolves(s: Sys, a: Action)
    requires Inv(s) && Enabled(s, a)
    ensures Evolves(s.db, Next(s, a).db)
  {
    match a {
      case Create(t, step) => CreateStepEvolves(s, t, step);
      case Paid(r, step) => PaidStepEvolves(s, r, step);
      case Entry(r, step) => EntryStepEvolves(s, r, step);
      case Work(step) => WorkStepEvolves(s, step);
      case Other(step) => OtherStepEvolves(s, step);
    }
  }

  // ---- Rows appear only by committing a Create ----

  predicate IsCommit(a: Action) {
    a.Create? && a.create.Commit?
  }

  ghost predicate SameEntries(db: Db, db': Db) {
    forall r :: r in db'.registrations ==> r in db.registrations
  }

  predicate IsSetCapacity(a: Action) {
    a.Other? && a.other.SetCapacity?
  }

  lemma EntryStepAddsNone(s: Sys, r: Id, step: EntryStep)
    requires EntryEnabled(s, r, step)
    ensures SameEntries(s.db, AfterEntry(s, r, step))
    ensures AfterEntry(s, r, step).categories == s.db.categories
  {
    match step {
      case CancelEntry(_) => CancelLawful(s, r);
      case SubmitReference(_) =>
      case RejectManual => FailManualLawful(s, r);
      case ApproveManual(p, token) => if ApproveManualError(s.db, r, p).None? { SettleLawful(s, r, p, token); }
      case SettleStored(p, token) => if r in s.db.registrations { SettleLawful(s, r, p, token); }
      case ExpireClaimed(p, worker) => ExpireClaimedLawful(s, r, p, worker);
    }
  }

  lemma WorkStepAddsNone(s: Sys, step: WorkStep)
    requires WorkEnabled(s, step)
    ensures SameEntries(s.db, AfterWork(s, step).db)
    ensures AfterWork(s, step).db.categories == s.db.categories
  {
  }

  /** The payment row is a new one. */
  predicate WritesNew(db: Db, step: PaidStep) {
    (step.RecordPayment? ==> step.p !in db.payments) && (step.PayAtOnce? ==> step.p !in db.payments)
  }

  /** Such a step touches its own registration and adds a payment, and nothing else but tickets. */
  lemma PaidWritesFrame(db: Db, r: Id, step: PaidStep)
    requires WritesNew(db, step)
    ensures var after := PaidWrites(db, r, step);
      && (forall q :: q in after.registrations <==> q in db.registrations)
      && (forall q :: q in db.registrations && q != r ==> after.registrations[q] == db.registrations[q])
      && (forall p :: p in db.payments ==> p in after.payments && after.payments[p] == db.payments[p])
  {
    match step {
      case RecordPayment(_, payment) => if CreatePaymentError(db, payment).None? {}
      case PayAtOnce(_, payment, _) => if ConfirmWithPaymentError(db, r, payment).None? {}
      case Release => if r in db.registrations {}
      case _ =>
    }
  }

  lemma PaidWritesKeeps(db: Db, r: Id, step: PaidStep)
    ensures var after := PaidWrites(db, r, step);
      && after.outcomes == db.outcomes && after.categories == db.categories && after.counters == db.counters && after.checkIns == db.checkIns
  {
    match step {
      case RecordPayment(_, payment) => if CreatePaymentError(db, payment).None? {}
      case PayAtOnce(_, payment, _) => if ConfirmWithPaymentError(db, r, payment).None? {}
      case Release => if r in db.registrations {}
      case _ =>
    }
  }

  lemma PaidStepAddsNone(s: Sys, r: Id, step: PaidStep)
    requires PaidEnabled(s, r, step)
    ensures SameEntries(s.db, AfterPaid(s, r, step).db)
    ensures AfterPaid(s, r, step).db.categories == s.db.categories
  {
    PaidDb(s, r, step);
    PaidWritesFrame(s.db, r, step);
    PaidWritesKeeps(s.db, r, step);
  }

  lemma CreateStepAddsNone(s: Sys, t: Id, step: CreateStep)
    requires CreateEnabled(s, t, step) && !step.Commit?
    ensures AfterCreate(s, t, step).db == s.db
  {
  }

  lemma OtherStepAddsNone(s: Sys, step: OtherStep)
    requires OtherEnabled(s, step)
    ensures SameEntries(s.db, AfterOther(s, step).db)
    ensures !step.SetCapacity? ==> AfterOther(s, step).db.categories == s.db.categories
  {
  }

  lemma StepAddsNone(s: Sys, a: Action)
    requires Enabled(s, a) && !IsCommit(a)
    ensures SameEntries(s.db, Next(s, a).db)
    ensures !IsSetCapacity(a) ==> Next(s, a).db.categories == s.db.categories
  {
    match a {
      case Create(t, step) => CreateStepAddsNone(s, t, step);
      case Paid(r, step) => PaidStepAddsNone(s, r, step);
      case Entry(r, step) => EntryStepAddsNone(s, r, step);
      case Work(step) => WorkStepAddsNone(s, step);
      case Other(step) => OtherStepAddsNone(s, step);
    }
  }

  lemma EvolvesSettles(db: Db, db': Db)
    requires Evolves(db, db') && SameEntries(db, db')
    ensures EntriesSettle(db, db')
  {
    forall r | r in db.registrations ensures EntryEvolves(db', r, db.registrations[r], db'.registrations[r]) {}
  }

  /** No step turns an inactive entry active, and only a commit adds one. */
  lemma StepSettles(s: Sys, a: Action)
    requires Inv(s) && Enabled(s, a) && !IsCommit(a)
    ensures EntriesSettle(s.db, Next(s, a).db)
  {
    StepEvolves(s, a);
    StepAddsNone(s, a);
    EvolvesSettles(s.db, Next(s, a).db);
  }

  // ---- Any number of steps ----

  ghost predicate LaterEntry(before: Registration, after: Registration) {
    after.SameEntry(before) && Follows(before.status, after.status)
  }

  /** What any number of steps may change. */
  ghost predicate Later(a: Db, b: Db) {
    && (forall r :: r in a.registrations ==> r in b.registrations && LaterEntry(a.registrations[r], b.registrations[r]))
    && (forall p :: p in a.payments ==> p in b.payments && PaymentEvolves(a.payments[p], b.payments[p]))
    && (forall r :: r in a.tickets ==> r in b.tickets)
    && (forall r :: r in a.checkIns ==> r in b.checkIns && b.checkIns[r] == a.checkIns[r])
  }

  lemma EvolvesLater(a: Db, b: Db)
    requires Evolves(a, b)
    ensures Later(a, b)
  {
    forall r | r in a.registrations ensures EntryEvolves(b, r, a.registrations[r], b.registrations[r]) {}
    forall r | r in a.tickets ensures r in b.tickets {
      assert TicketEvolves(a, b, r);
    }
  }

  lemma LaterComposes(a: Db, b: Db, c: Db)
    requires Later(a, b) && Later(b, c)
    ensures Later(a, c)
  {
    forall r | r in a.registrations ensures r in c.registrations && LaterEntry(a.registrations[r], c.registrations[r]) {
      assert LaterEntry(a.registrations[r], b.registrations[r]) && LaterEntry(b.registrations[r], c.registrations[r]);
    }
    forall p | p in a.payments ensures p in c.payments && PaymentEvolves(a.payments[p], c.payments[p]) {
      assert PaymentEvolves(a.payments[p], b.payments[p]) && PaymentEvolves(b.payments[p], c.payments[p]);
    }
  }

  /** The tables of successive states evolve step by step. */
  ghost predicate History(states: seq<Sys>) {
    forall k :: 0 <= k < |states| - 1 ==> Evolves(states[k].db, states[k + 1].db)
  }

  lemma RunHistory(run: Run)
    requires run.Valid() && Inv(run.states[0])
    ensures History(run.states)
  {
    forall k | 0 <= k < |run.states| - 1 ensures Evolves(run.states[k].db, run.states[k + 1].db) {
      RunKeepsInv(run, k);
      StepEvolves(run.states[k], run.actions[k]);
    }
  }

  lemma {:induction false} HistoryLater(states: seq<Sys>, i: nat, j: nat)
    requires History(states) && i <= j < |states|
    ensures Later(states[i].db, states[j].db)
    decreases j
  {
    if i < j {
      HistoryLater(states, i, j - 1);
      EvolvesLater(states[j - 1].db, states[j].db);
      LaterComposes(states[i].db, states[j - 1].db, states[j].db);
    }
  }

  lemma RunLater(run: Run, i: nat, j: nat)
    requires run.Valid() && i <= j < |run.states| && Inv(run.states[0])
    ensures Later(run.states[i].db, run.states[j].db)
  {
    RunHistory(run);
    HistoryLater(run.states, i, j);
  }
}
