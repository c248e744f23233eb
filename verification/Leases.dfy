/** Reconciliation leases: two workers' claims of a payment are a lease apart, and a superseded claim is inert. */
module Leases {
  import opened Wrappers
  import opened Tables
  import opened Statements
  import opened Protocol
  import opened StepInvariant
  import opened Boundaries

  predicate Claims(a: Action, p: Id) {
    a.Work? && a.work.Claim? && p in a.work.chosen
  }

  /** A rescheduling that finds its claim still in force. */
  predicate Reschedules(s: Sys, a: Action, p: Id) {
    a.Work? && a.work.Reschedule? && a.work.p == p && p in s.db.payments && s.db.payments[p].HeldBy(a.work.worker)
  }

  predicate SameLease(before: Payment, after: Payment) {
    after.reconcileAfter == before.reconcileAfter && after.leaseUntil == before.leaseUntil && after.worker == before.worker
  }

  /** PENDING is never re-entered, and while it lasts only claims and effective reschedulings touch the lease. */
  ghost predicate LeaseEvolves(s: Sys, a: Action, before: Payment, after: Payment, p: Id) {
    after.status.Awaiting? ==>
      && before.status.Awaiting?
      && (Claims(a, p) ==>
            && before.Due(a.work.now) && after.worker == Some(a.work.worker)
            && after.leaseUntil == Some(a.work.now + RECONCILE_LEASE) && after.reconcileAfter == before.reconcileAfter)
      && (Reschedules(s, a, p) ==>
            && after.worker.None? && after.leaseUntil.None? && after.reconcileAfter == a.work.next)
      && (!Claims(a, p) && !Reschedules(s, a, p) ==> SameLease(before, after))
  }

  ghost predicate KeepsLease(db: Db, db': Db, p: Id) {
    p in db.payments ==>
      && p in db'.payments
      && (db'.payments[p].status.Awaiting? ==>
            db.payments[p].status.Awaiting? && SameLease(db.payments[p], db'.payments[p]))
  }

  lemma EntryLease(s: Sys, r: Id, step: EntryStep, p: Id)
    ensures KeepsLease(s.db, AfterEntry(s, r, step), p)
  {
    match step {
      case CancelEntry(_) => if r in s.db.registrations {}
      case SubmitReference(reference) => if SubmitManualError(s.db, r, reference, s.clock).Some? {}
      case RejectManual => if FailManualError(s.db, r).Some? {}
      case ApproveManual(q, token) => if ApproveManualError(s.db, r, q).Some? {}
      case SettleStored(q, token) =>
        if r in s.db.registrations {
          if q in s.db.payments && s.db.payments[q].registration == r {
            if s.db.registrations[r].status.Pending? {}
          }
        }
      case ExpireClaimed(q, worker) =>
        if Claimed(s.db, r, q, worker) {
          if s.db.registrations[r].status.Pending? {}
        }
    }
  }

  lemma ClaimLease(db: Db, worker: Id, now: Instant, chosen: set<Id>, p: Id)
    requires p in db.payments
    ensures var after := ClaimPendingPayments(db, worker, now, chosen).payments;
      && p in after
      && if p in chosen then
           after[p] == db.payments[p].(worker := Some(worker), leaseUntil := Some(now + RECONCILE_LEASE))
         else after[p] == db.payments[p]
  {
  }

  lemma RescheduleLease(db: Db, q: Id, worker: Id, next: Instant, p: Id)
    requires p in db.payments
    ensures var after := SchedulePaymentReconciliation(db, q, worker, next).payments;
      && p in after && after[p].status == db.payments[p].status
      && if q == p && db.payments[p].HeldBy(worker) then
           after[p].worker.None? && after[p].leaseUntil.None? && after[p].reconcileAfter == next
         else after[p] == db.payments[p]
  {
  }

  lemma SweepLease(db: Db, now: Instant, rows: set<Id>, p: Id)
    requires p in db.payments
    ensures var after := SweepCommit(db, now, rows).payments;
      p in after && after[p] == if db.payments[p].Overdue(now) then db.payments[p].(status := Failed) else db.payments[p]
  {
  }

  lemma WorkLease(s: Sys, step: WorkStep, p: Id)
    requires WorkEnabled(s, step) && p in s.db.payments
    ensures p in AfterWork(s, step).db.payments
    ensures LeaseEvolves(s, Work(step), s.db.payments[p], AfterWork(s, step).db.payments[p], p)
  {
    match step {
      case Claim(worker, now, chosen) => ClaimLease(s.db, worker, now, chosen, p);
      case Reschedule(q, worker, next) => RescheduleLease(s.db, q, worker, next, p);
      case SweepSelect(_, _) =>
      case SweepFinish(e) => SweepLease(s.db, s.sweeps[e].now, s.sweeps[e].rows, p);
      case SweepAbort(_) =>
    }
  }

  lemma CreatePayments(s: Sys, t: Id, step: CreateStep)
    requires CreateEnabled(s, t, step)
    ensures AfterCreate(s, t, step).db.payments == s.db.payments
  {
    if !step.Commit? {
      CreateOnlyMoves(s, t, step);
    }
  }

  lemma LeaseStep(s: Sys, a: Action, p: Id)
    requires Enabled(s, a) && p in s.db.payments
    ensures p in Next(s, a).db.payments
    ensures LeaseEvolves(s, a, s.db.payments[p], Next(s, a).db.payments[p], p)
  {
    match a {
      case Create(t, step) => CreatePayments(s, t, step);
      case Paid(r, step) => PaidPaymentFrame(s, r, step, p);
      case Entry(r, step) => EntryLease(s, r, step, p);
      case Work(step) => WorkLease(s, step, p);
      case Other(step) => OtherLeavesReview(s, step);
    }
  }

  /** After a claim at now, and until it is rescheduled, the payment's lease runs at least to now + 30. */
  lemma {:induction false} LeaseRuns(run: Run, i: nat, k: nat, p: Id)
    requires run.Valid() && i < k < |run.states|
    requires Claims(run.actions[i], p)
    requires forall m :: i < m < k ==> !Reschedules(run.states[m], run.actions[m], p)
    ensures p in run.states[k].db.payments
    ensures run.states[k].db.payments[p].status.Awaiting? ==>
      && run.states[k].db.payments[p].leaseUntil.Some?
      && run.states[k].db.payments[p].leaseUntil.value >= run.actions[i].work.now + RECONCILE_LEASE
    decreases k
  {
    if k == i + 1 {
      LeaseStep(run.states[i], run.actions[i], p);
    } else {
      LeaseRuns(run, i, k - 1, p);
      LeaseStep(run.states[k - 1], run.actions[k - 1], p);
    }
  }

  /** Two claims of one payment, by any workers, are more than a lease apart unless it was rescheduled in between. */
  lemma LeasesExclude(run: Run, i: nat, j: nat, p: Id)
    requires run.Valid() && i < j < |run.actions|
    requires Claims(run.actions[i], p) && Claims(run.actions[j], p)
    requires forall m :: i < m < j ==> !Reschedules(run.states[m], run.actions[m], p)
    ensures run.actions[j].work.now > run.actions[i].work.now + RECONCILE_LEASE
  {
    LeaseRuns(run, i, j, p);
    assert Enabled(run.states[j], run.actions[j]);
  }

  lemma {:induction false} LostClaimStaysLost(run: Run, i: nat, k: nat, p: Id, worker: Id)
    requires run.Valid() && i <= k < |run.states| && p in run.states[i].db.payments
    requires !run.states[i].db.payments[p].HeldBy(worker)
    requires forall m :: i <= m < k && Claims(run.actions[m], p) ==> run.actions[m].work.worker != worker
    ensures p in run.states[k].db.payments && !run.states[k].db.payments[p].HeldBy(worker)
    decreases k
  {
    if i < k {
      LostClaimStaysLost(run, i, k - 1, p, worker);
      LeaseStep(run.states[k - 1], run.actions[k - 1], p);
    }
  }

  /** A worker whose claim was superseded by another's, and who has not claimed again, changes nothing. */
  lemma SupersededIsInert(run: Run, i: nat, j: nat, p: Id, worker: Id, r: Id, next: Instant)
    requires run.Valid() && i < j < |run.states|
    requires Claims(run.actions[i], p) && run.actions[i].work.worker != worker
    requires forall m :: i < m < j && Claims(run.actions[m], p) ==> run.actions[m].work.worker != worker
    ensures SchedulePaymentReconciliation(run.states[j].db, p, worker, next) == run.states[j].db
    ensures ExpireClaimedPayment(run.states[j].db, r, p, worker) == run.states[j].db
  {
    assert Enabled(run.states[i], run.actions[i]);
    LeaseStep(run.states[i], run.actions[i], p);
    LostClaimStaysLost(run, i + 1, j, p, worker);
  }
}
