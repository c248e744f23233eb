/** Every enabled step keeps the invariant, so it holds in every state a run reaches. */
module StepInvariant {
  import opened Wrappers
  import opened Tables
  import opened Statements
  import opened Protocol
  import opened CreateInvariant
  import opened PaymentInvariant
  import opened ProtocolInvariant

  // ---- Repository transactions on existing rows ----

  lemma CancelStep(s: Sys, r: Id)
    requires Inv(s) && s.RowFree(r)
    ensures Inv(s.(db := Cancel(s.db, r)))
  {
    CancelLawful(s, r);
    CancelAgrees(s.db, r);
    LawfulKeepsInv(s, Cancel(s.db, r));
  }

  lemma RejectStep(s: Sys, r: Id)
    requires Inv(s) && s.RowFree(r)
    ensures Inv(s.(db := FailManualPayment(s.db, r)))
  {
    FailManualLawful(s, r);
    FailManualAgrees(s.db, r);
    LawfulKeepsInv(s, FailManualPayment(s.db, r));
  }

  lemma ApproveStep(s: Sys, r: Id, p: Id, token: Id)
    requires Inv(s) && s.RowFree(r)
    ensures Inv(s.(db := ApproveManualPayment(s.db, r, p, token)))
  {
    if ApproveManualError(s.db, r, p).None? {
      SettleLawful(s, r, p, token);
      ApproveAgrees(s.db, r, p, token);
      LawfulKeepsInv(s, ApproveManualPayment(s.db, r, p, token));
    }
  }

  lemma SettleStep(s: Sys, r: Id, p: Id, token: Id)
    requires Inv(s) && s.RowFree(r) && p in s.db.payments && s.db.payments[p].registration == r
    ensures Inv(s.(db := ConfirmStoredPayment(s.db, r, p, token)))
  {
    if r in s.db.registrations {
      SettleLawful(s, r, p, token);
      ConfirmStoredAgrees(s.db, r, p, token);
      LawfulKeepsInv(s, ConfirmStoredPayment(s.db, r, p, token));
    }
  }

  lemma ClaimStep(s: Sys, worker: Id, now: Instant, chosen: set<Id>)
    requires Inv(s)
    ensures Inv(s.(db := ClaimPendingPayments(s.db, worker, now, chosen)))
  {
    ClaimLawful(s, worker, now, chosen);
    ClaimAgrees(s.db, worker, now, chosen);
    LawfulKeepsInv(s, ClaimPendingPayments(s.db, worker, now, chosen));
  }

  lemma RescheduleStep(s: Sys, p: Id, worker: Id, next: Instant)
    requires Inv(s)
    ensures Inv(s.(db := SchedulePaymentReconciliation(s.db, p, worker, next)))
  {
    ScheduleLawful(s, p, worker, next);
    ScheduleAgrees(s.db, p, worker, next);
    LawfulKeepsInv(s, SchedulePaymentReconciliation(s.db, p, worker, next));
  }

  lemma ExpireClaimedStep(s: Sys, r: Id, p: Id, worker: Id)
    requires Inv(s) && s.RowFree(r)
    ensures Inv(s.(db := ExpireClaimedPayment(s.db, r, p, worker)))
  {
    ExpireClaimedLawful(s, r, p, worker);
    ExpireClaimedAgrees(s.db, r, p, worker);
    LawfulKeepsInv(s, ExpireClaimedPayment(s.db, r, p, worker));
  }

  // ---- A submitted reference ----

  /** A swept payment has passed its expiry, so a reference is refused: the review never loses its row to the clock. */
  lemma SubmitKeepsRow(s: Sys, r: Id, reference: Id, e: Id, q: Id)
    requires SweepsOwn(s) && e in s.sweeps && q in s.sweeps[e].rows
    ensures SweptRow(s.(db := SubmitManualPayment(s.db, r, reference, s.clock)), s.sweeps[e].now, q)
  {
    assert SweptRow(s, s.sweeps[e].now, q);
  }

  lemma SubmitKeepsPays(db: Db, r: Id, reference: Id, now: Instant, q: Id)
    ensures HasPayment(SubmitManualPayment(db, r, reference, now), q) ==> HasPayment(db, q)
  {
    var db' := SubmitManualPayment(db, r, reference, now);
    if HasPayment(db', q) {
      var p :| p in db'.payments && db'.payments[p].registration == q;
      assert db.payments[p].registration == q;
    }
  }

  lemma SubmitKeepsSweeps(s: Sys, r: Id, reference: Id)
    requires SweepsOwn(s)
    ensures SweepsOwn(s.(db := SubmitManualPayment(s.db, r, reference, s.clock)))
  {
    forall e, q | e in s.sweeps && q in s.sweeps[e].rows
      ensures SweptRow(s.(db := SubmitManualPayment(s.db, r, reference, s.clock)), s.sweeps[e].now, q)
    {
      SubmitKeepsRow(s, r, reference, e, q);
    }
  }

  lemma SubmitKeepsCalls(s: Sys, r: Id, reference: Id)
    requires CallsOwn(s) && ScansTrue(s)
    ensures var s' := s.(db := SubmitManualPayment(s.db, r, reference, s.clock)); CallsOwn(s') && ScansTrue(s')
  {
    forall q | q in s.calls
      ensures HasPayment(SubmitManualPayment(s.db, r, reference, s.clock), q) ==> HasPayment(s.db, q)
    {
      SubmitKeepsPays(s.db, r, reference, s.clock, q);
    }
    if SubmitManualError(s.db, r, reference, s.clock).Some? {}
  }

  lemma SubmitStep(s: Sys, r: Id, reference: Id)
    requires Inv(s)
    ensures Inv(s.(db := SubmitManualPayment(s.db, r, reference, s.clock)))
  {
    SubmitKeeps(s.db, r, reference, s.clock);
    QuietKeepsInv(s, s.(db := SubmitManualPayment(s.db, r, reference, s.clock)));
    SubmitKeepsSweeps(s, r, reference);
    SubmitKeepsCalls(s, r, reference);
  }

  // ---- The payment of a new registration ----

  lemma NewPaymentPays(db: Db, p: Id, payment: Payment, q: Id)
    requires q != payment.registration && !HasPayment(db, q)
    ensures !HasPayment(WithPayment(db, p, payment), q)
  {
  }

  /** At most the payment is added, and the call has moved on. */
  ghost predicate PaymentRecorded(s: Sys, s': Sys, r: Id, p: Id, payment: Payment) {
    && s' == s.(db := s'.db, calls := s'.calls)
    && (s'.db == s.db || s'.db == WithPayment(s.db, p, payment))
    && (forall q :: q in s'.calls ==> q in s.calls && (q != r ==> s'.calls[q] == s.calls[q]))
    && (r in s'.calls ==> s'.calls[r].Releasing?)
  }

  lemma RecordPaymentWrites(s: Sys, r: Id, p: Id, payment: Payment)
    requires r in s.calls
    ensures PaymentRecorded(s, AfterRecordPayment(s, r, p, payment), r, p, payment)
  {
    if CreatePaymentError(s.db, payment).Some? {
    } else if payment.status.Failed? {
    }
  }

  lemma RecordedKeepsRow(s: Sys, s': Sys, r: Id, p: Id, payment: Payment, now: Instant, q: Id)
    requires PaymentRecorded(s, s', r, p, payment) && payment.registration == r
    requires SweptRow(s, now, q) && q != r
    ensures SweptRow(s', now, q)
  {
    assert SweptRow(s.(db := s'.db), now, q);
  }

  lemma RecordedKeepsSweeps(s: Sys, s': Sys, r: Id, p: Id, payment: Payment)
    requires PaymentRecorded(s, s', r, p, payment) && payment.registration == r
    requires SweepsOwn(s) && r in s.calls && s.calls[r].AwaitingProvider?
    ensures SweepsOwn(s')
  {
    forall e, q | e in s.sweeps && q in s.sweeps[e].rows ensures SweptRow(s', s.sweeps[e].now, q) {
      assert SweptRow(s, s.sweeps[e].now, q);
      RecordedKeepsRow(s, s', r, p, payment, s.sweeps[e].now, q);
    }
  }

  lemma RecordedQuiet(s: Sys, s': Sys, r: Id, p: Id, payment: Payment)
    requires PaymentRecorded(s, s', r, p, payment)
    ensures Quiet(s, s')
  {
  }

  lemma RecordedKeepsCalls(s: Sys, s': Sys, r: Id, p: Id, payment: Payment)
    requires PaymentRecorded(s, s', r, p, payment) && payment.registration == r && CallsOwn(s) && ScansTrue(s)
    ensures CallsOwn(s') && ScansTrue(s')
  {
    forall q | q in s'.calls && s'.calls[q].AwaitingProvider? ensures !HasPayment(s'.db, q) {
      NewPaymentPays(s.db, p, payment, q);
    }
  }

  lemma RecordPaymentTables(s: Sys, r: Id, p: Id, payment: Payment)
    requires Inv(s) && PaidEnabled(s, r, RecordPayment(p, payment))
    ensures CreateInv(AfterRecordPayment(s, r, p, payment)) && TablesAgree(AfterRecordPayment(s, r, p, payment).db)
  {
    CreatePaymentKeeps(s.db, p, payment);
    RecordPaymentWrites(s, r, p, payment);
    RecordedQuiet(s, AfterRecordPayment(s, r, p, payment), r, p, payment);
    QuietKeepsInv(s, AfterRecordPayment(s, r, p, payment));
  }

  lemma RecordPaymentFlow(s: Sys, r: Id, p: Id, payment: Payment)
    requires Inv(s) && PaidEnabled(s, r, RecordPayment(p, payment))
    ensures var after := AfterRecordPayment(s, r, p, payment); CallsOwn(after) && ScansTrue(after) && SweepsOwn(after)
  {
    RecordPaymentWrites(s, r, p, payment);
    RecordedKeepsSweeps(s, AfterRecordPayment(s, r, p, payment), r, p, payment);
    RecordedKeepsCalls(s, AfterRecordPayment(s, r, p, payment), r, p, payment);
  }

  lemma RecordPaymentStep(s: Sys, r: Id, p: Id, payment: Payment)
    requires Inv(s) && PaidEnabled(s, r, RecordPayment(p, payment))
    ensures Inv(AfterRecordPayment(s, r, p, payment))
  {
    RecordPaymentTables(s, r, p, payment);
    RecordPaymentFlow(s, r, p, payment);
  }

  lemma PayKeepsSweeps(s: Sys, r: Id, p: Id, payment: Payment, token: Id)
    requires SweepsOwn(s) && PaidEnabled(s, r, PayAtOnce(p, payment, token))
    ensures SweepsOwn(AfterPayAtOnce(s, r, p, payment, token))
  {
    forall e, q | e in s.sweeps && q in s.sweeps[e].rows
      ensures SweptRow(AfterPayAtOnce(s, r, p, payment, token), s.sweeps[e].now, q)
    {
      assert SweptRow(s, s.sweeps[e].now, q) && !s.RowFree(q);
    }
  }

  lemma PayKeepsCalls(s: Sys, r: Id, p: Id, payment: Payment, token: Id)
    requires CallsOwn(s) && ScansTrue(s) && PaidEnabled(s, r, PayAtOnce(p, payment, token))
    ensures CallsOwn(AfterPayAtOnce(s, r, p, payment, token)) && ScansTrue(AfterPayAtOnce(s, r, p, payment, token))
  {
    var s' := AfterPayAtOnce(s, r, p, payment, token);
    forall q | q in s'.calls && s'.calls[q].AwaitingProvider? ensures !HasPayment(s'.db, q) {
      NewPaymentPays(s.db, p, payment, q);
    }
  }

  lemma PayQuiet(s: Sys, r: Id, p: Id, payment: Payment, token: Id)
    ensures Quiet(s, AfterPayAtOnce(s, r, p, payment, token))
  {
  }

  lemma PayStep(s: Sys, r: Id, p: Id, payment: Payment, token: Id)
    requires Inv(s) && PaidEnabled(s, r, PayAtOnce(p, payment, token))
    ensures Inv(AfterPayAtOnce(s, r, p, payment, token))
  {
    ConfirmWithPaymentKeeps(s.db, r, p, payment, token);
    PayQuiet(s, r, p, payment, token);
    QuietKeepsInv(s, AfterPayAtOnce(s, r, p, payment, token));
    PayKeepsSweeps(s, r, p, payment, token);
    PayKeepsCalls(s, r, p, payment, token);
  }

  lemma CallKeepsSweeps(s: Sys, r: Id)
    requires SweepsOwn(s)
    ensures SweepsOwn(s.(calls := s.calls[r := Releasing]))
  {
    var s' := s.(calls := s.calls[r := Releasing]);
    forall e, q | e in s.sweeps && q in s.sweeps[e].rows ensures SweptRow(s', s.sweeps[e].now, q) {
      assert SweptRow(s, s.sweeps[e].now, q);
    }
  }

  lemma CallStep(s: Sys, r: Id)
    requires Inv(s) && r in s.calls
    ensures Inv(s.(calls := s.calls[r := Releasing]))
  {
    QuietKeepsInv(s, s.(calls := s.calls[r := Releasing]));
    CallKeepsSweeps(s, r);
  }

  // ---- Sweeps ----

  lemma SelectedRows(s: Sys, now: Instant, r: Id)
    requires Inv(s) && r in SweepRows(s.db, now)
    ensures SweptRow(s, now, r)
  {
    var p :| p in s.db.payments && s.db.payments[p].registration == r && s.db.payments[p].Overdue(now);
    assert HasPayment(s.db, r);
  }

  lemma SelectKeepsSweeps(s: Sys, e: Id, now: Instant)
    requires Inv(s) && WorkEnabled(s, SweepSelect(e, now))
    ensures SweepsOwn(s.(sweeps := s.sweeps[e := Sweep(now, SweepRows(s.db, now))]))
  {
    var s' := s.(sweeps := s.sweeps[e := Sweep(now, SweepRows(s.db, now))]);
    forall f, r | f in s'.sweeps && r in s'.sweeps[f].rows ensures SweptRow(s', s'.sweeps[f].now, r) {
      if f == e {
        SelectedRows(s, now, r);
      }
      assert SweptRow(s, s'.sweeps[f].now, r);
    }
  }

  lemma SelectStep(s: Sys, e: Id, now: Instant)
    requires Inv(s) && WorkEnabled(s, SweepSelect(e, now))
    ensures Inv(s.(sweeps := s.sweeps[e := Sweep(now, SweepRows(s.db, now))]))
  {
    QuietKeepsInv(s, s.(sweeps := s.sweeps[e := Sweep(now, SweepRows(s.db, now))]));
    SelectKeepsSweeps(s, e, now);
  }

  lemma AbortStep(s: Sys, e: Id)
    requires Inv(s)
    ensures Inv(s.(sweeps := s.sweeps - {e}))
  {
    var s' := s.(sweeps := s.sweeps - {e});
    QuietKeepsInv(s, s');
    forall f, r | f in s'.sweeps && r in s'.sweeps[f].rows ensures SweptRow(s', s.sweeps[f].now, r) {
      assert SweptRow(s, s.sweeps[f].now, r);
    }
  }

  /** Once the sweep has released its locks, its commit is a lawful change. */
  lemma SweepCommitLawful(s: Sys, now: Instant, rows: set<Id>)
    requires forall r :: r in rows ==> s.RowFree(r) && s.db.StatusIs(r, Pending)
    ensures Lawful(s, s.db, SweepCommit(s.db, now, rows))
  {
  }

  lemma FinishStep(s: Sys, e: Id)
    requires Inv(s) && e in s.sweeps
    ensures Inv(s.(db := SweepCommit(s.db, s.sweeps[e].now, s.sweeps[e].rows), sweeps := s.sweeps - {e}))
  {
    var now, rows, unlocked := s.sweeps[e].now, s.sweeps[e].rows, s.(sweeps := s.sweeps - {e});
    AbortStep(s, e);
    forall r | r in rows ensures unlocked.RowFree(r) && s.db.StatusIs(r, Pending) {
      assert SweptRow(s, now, r);
    }
    SweepCommitLawful(unlocked, now, rows);
    SweepAgrees(s.db, now, rows);
    LawfulKeepsInv(unlocked, SweepCommit(s.db, now, rows));
  }

  // ---- Commit ----

  lemma CommitPays(db: Db, tx: CreateTx, q: Id)
    ensures HasPayment(CommittedDb(db, tx), q) <==> HasPayment(db, q)
  {
  }

  lemma CommitKeepsSweeps(s: Sys, t: Id)
    requires SweepsOwn(s) && At(s, t, Recorded) && s.creates[t].id !in s.db.registrations
    ensures SweepsOwn(AfterCommit(s, t))
  {
    forall e, r | e in s.sweeps && r in s.sweeps[e].rows ensures SweptRow(AfterCommit(s, t), s.sweeps[e].now, r) {
      assert SweptRow(s, s.sweeps[e].now, r);
    }
  }

  lemma CommitKeepsCalls(s: Sys, t: Id)
    requires CallsOwn(s) && ScansTrue(s) && TablesAgree(s.db) && At(s, t, Recorded) && s.creates[t].id !in s.db.registrations
    ensures CallsOwn(AfterCommit(s, t)) && ScansTrue(AfterCommit(s, t))
  {
    var s' := AfterCommit(s, t);
    forall q | q in s'.calls && s'.calls[q].AwaitingProvider? ensures !HasPayment(s'.db, q) {
      CommitPays(s.db, s.creates[t], q);
    }
  }

  lemma CommitStep(s: Sys, t: Id)
    requires Inv(s) && At(s, t, Recorded)
    ensures Inv(AfterCommit(s, t))
  {
    assert Fits(s, t, s.creates[t]);
    CommitKeepsInv(s, t);
    CommitKeepsTables(s.db, s.creates[t]);
    CommitKeepsSweeps(s, t);
    CommitKeepsCalls(s, t);
  }

  // ---- The other tables, and time ----

  lemma SameFlow(s: Sys, s': Sys)
    requires CallsOwn(s) && ScansTrue(s) && SweepsOwn(s)
    requires s'.db.registrations == s.db.registrations && s'.db.payments == s.db.payments && s'.db.tickets == s.db.tickets
    requires s'.sweeps == s.sweeps && s'.calls == s.calls && s.clock <= s'.clock
    ensures CallsOwn(s') && SweepsOwn(s')
    ensures s'.scans == s.scans ==> ScansTrue(s')
  {
    forall e, r | e in s.sweeps && r in s.sweeps[e].rows ensures SweptRow(s', s.sweeps[e].now, r) {
      assert SweptRow(s, s.sweeps[e].now, r);
    }
    forall r ensures HasPayment(s'.db, r) <==> HasPayment(s.db, r) {}
  }

  lemma OtherQuiet(s: Sys, step: OtherStep)
    requires OtherEnabled(s, step) && !step.SetCapacity?
    ensures Quiet(s, AfterOther(s, step))
  {
  }

  lemma OtherKeepsTables(s: Sys, step: OtherStep)
    requires TablesAgree(s.db) && ScansTrue(s) && OtherEnabled(s, step)
    ensures TablesAgree(AfterOther(s, step).db) && ScansTrue(AfterOther(s, step))
  {
  }

  lemma OtherKeepsFlow(s: Sys, step: OtherStep)
    requires CallsOwn(s) && ScansTrue(s) && SweepsOwn(s) && OtherEnabled(s, step)
    ensures CallsOwn(AfterOther(s, step)) && SweepsOwn(AfterOther(s, step))
  {
    SameFlow(s, AfterOther(s, step));
  }

  lemma OtherStepKeepsInv(s: Sys, step: OtherStep)
    requires Inv(s) && OtherEnabled(s, step)
    ensures Inv(AfterOther(s, step))
  {
    if step.SetCapacity? {
      SetCapacityKeepsInv(s, step.category, step.capacity);
    } else {
      OtherQuiet(s, step);
      QuietKeepsInv(s, AfterOther(s, step));
    }
    OtherKeepsTables(s, step);
    OtherKeepsFlow(s, step);
  }

  /** Every statement but the commit only moves its own transaction on. */
  lemma CreateOnlyMoves(s: Sys, t: Id, step: CreateStep)
    requires CreateEnabled(s, t, step) && !step.Commit?
    ensures AfterCreate(s, t, step) == s.(creates := AfterCreate(s, t, step).creates)
  {
    match step {
      case CountActive =>
      case InsertRow(_) =>
      case _ =>
    }
  }

  lemma CreateKeepsFlow(s: Sys, t: Id, step: CreateStep)
    requires CallsOwn(s) && ScansTrue(s) && SweepsOwn(s) && CreateEnabled(s, t, step) && !step.Commit?
    ensures CallsOwn(AfterCreate(s, t, step)) && ScansTrue(AfterCreate(s, t, step)) && SweepsOwn(AfterCreate(s, t, step))
    ensures AfterCreate(s, t, step).db == s.db
  {
    CreateOnlyMoves(s, t, step);
    SameFlow(s, AfterCreate(s, t, step));
  }

  lemma CreateStepKeepsInv(s: Sys, t: Id, step: CreateStep)
    requires Inv(s) && CreateEnabled(s, t, step)
    ensures Inv(AfterCreate(s, t, step))
  {
    match step {
      case Begin(_) => BeginKeepsInv(s, t, step);
      case LockCategory => LockStepKeepsInv(s, t, step);
      case CountActive => LockStepKeepsInv(s, t, step);
      case InsertRow(_) => InsertStepKeepsInv(s, t, step);
      case RecordOutcome => RecordStepKeepsInv(s, t, step);
      case Commit => CommitStep(s, t);
      case _ => NumberStepKeepsInv(s, t, step);
    }
    if !step.Commit? {
      CreateKeepsFlow(s, t, step);
    }
  }

  lemma PaidStepKeepsInv(s: Sys, r: Id, step: PaidStep)
    requires Inv(s) && PaidEnabled(s, r, step)
    ensures Inv(AfterPaid(s, r, step))
  {
    match step {
      case RecordPayment(p, payment) => RecordPaymentStep(s, r, p, payment);
      case PayAtOnce(p, payment, token) => PayStep(s, r, p, payment, token);
      case ProviderFailed => CallStep(s, r);
      case Release => CancelStep(s, r); DropCallKeepsInv(s.(db := Cancel(s.db, r)), r);
      case Crash => DropCallKeepsInv(s, r);
    }
  }

  lemma EntryStepKeepsInv(s: Sys, r: Id, step: EntryStep)
    requires Inv(s) && EntryEnabled(s, r, step)
    ensures Inv(s.(db := AfterEntry(s, r, step)))
  {
    match step {
      case CancelEntry(_) => CancelStep(s, r);
      case SubmitReference(reference) => SubmitStep(s, r, reference);
      case RejectManual => RejectStep(s, r);
      case ApproveManual(p, token) => ApproveStep(s, r, p, token);
      case SettleStored(p, token) => SettleStep(s, r, p, token);
      case ExpireClaimed(p, worker) => ExpireClaimedStep(s, r, p, worker);
    }
  }

  lemma WorkStepKeepsInv(s: Sys, step: WorkStep)
    requires Inv(s) && WorkEnabled(s, step)
    ensures Inv(AfterWork(s, step))
  {
    match step {
      case Claim(worker, now, chosen) => ClaimStep(s, worker, now, chosen);
      case Reschedule(p, worker, next) => RescheduleStep(s, p, worker, next);
      case SweepSelect(e, now) => SelectStep(s, e, now);
      case SweepFinish(e) => FinishStep(s, e);
      case SweepAbort(e) => AbortStep(s, e);
    }
  }

  /** Nothing relies on the cancellation calls. */
  lemma CancelsFree(s: Sys, cancels: map<Id, CancelCall>)
    requires Inv(s)
    ensures Inv(s.(cancels := cancels))
  {
    QuietKeepsInv(s, s.(cancels := cancels));
    SameFlow(s, s.(cancels := cancels));
  }

  /** The invariant is inductive. */
  lemma StepKeepsInv(s: Sys, a: Action)
    requires Inv(s) && Enabled(s, a)
    ensures Inv(Next(s, a))
  {
    match a {
      case Create(t, step) => CreateStepKeepsInv(s, t, step);
      case Paid(r, step) => PaidStepKeepsInv(s, r, step);
      case Entry(r, step) => EntryStepKeepsInv(s, r, step); CancelsFree(s.(db := AfterEntry(s, r, step)), Next(s, a).cancels);
      case Work(step) => WorkStepKeepsInv(s, step);
      case Other(step) => OtherStepKeepsInv(s, step);
    }
  }

  /** ... and so holds throughout every run. */
  lemma {:induction false} RunKeepsInv(run: Run, k: nat)
    requires run.Valid() && Inv(run.states[0]) && k < |run.states|
    ensures Inv(run.states[k])
  {
    if k > 0 {
      RunKeepsInv(run, k - 1);
      StepKeepsInv(run.states[k - 1], run.actions[k - 1]);
    }
  }
}
