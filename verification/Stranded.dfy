/**
 * Places that nobody will give back: the paid call has gone, and no payment was recorded for a sweep, a lease or a
 * reviewer to act on. Which steps leave one behind, and what ends it.
 */
module Stranded {
  import opened Wrappers
  import opened Tables
  import opened Statements
  import opened Protocol
  import opened CreateInvariant
  import opened PaymentInvariant
  import opened ProtocolInvariant
  import opened StepInvariant
  import opened Evolution
  import opened Boundaries
  import opened CheckIns

  ghost predicate StrandedPlace(s: Sys, r: Id) {
    s.db.StatusIs(r, Pending) && !HasPayment(s.db, r) && r !in s.calls
  }

  /** The call of an unpaid place ends without a payment and without giving the place back. */
  ghost predicate Strands(s: Sys, a: Action, r: Id) {
    && s.db.StatusIs(r, Pending) && !HasPayment(s.db, r) && r in s.calls
    && a.Paid? && a.r == r
    && (a.paid.Crash? || (a.paid.PayAtOnce? && ConfirmWithPaymentError(s.db, r, a.paid.payment).Some?))
  }

  /** What the open sweeps will give up has a payment. */
  ghost predicate SweptHasPayment(s: Sys, r: Id) {
    forall e :: e in s.sweeps && r in s.sweeps[e].rows ==> HasPayment(s.db, r)
  }

  // ---- Payments come from calls ----

  lemma AddedPayment(db: Db, p: Id, payment: Payment, r: Id)
    requires payment.registration != r && p !in db.payments && HasPayment(WithPayment(db, p, payment), r)
    ensures HasPayment(db, r)
  {
    if !HasPayment(db, r) {
      NewPaymentPays(db, p, payment, r);
    }
  }

  lemma PaidPays(s: Sys, q: Id, step: PaidStep, r: Id)
    requires PaidEnabled(s, q, step) && q != r && HasPayment(PaidWrites(s.db, q, step), r)
    ensures HasPayment(s.db, r)
  {
    match step {
      case RecordPayment(p, payment) =>
        if CreatePaymentError(s.db, payment).None? { AddedPayment(s.db, p, payment, r); }
      case PayAtOnce(p, payment, _) =>
        if ConfirmWithPaymentError(s.db, q, payment).None? {
          assert HasPayment(WithPayment(s.db, p, payment), r);
          AddedPayment(s.db, p, payment, r);
        }
      case Release => if q in s.db.registrations {}
      case _ =>
    }
  }

  lemma EntryPays(s: Sys, q: Id, step: EntryStep, r: Id)
    requires EntryEnabled(s, q, step) && HasPayment(AfterEntry(s, q, step), r)
    ensures HasPayment(s.db, r)
  {
    match step {
      case CancelEntry(_) => CancelLawful(s, q); LawfulPays(s, s.db, AfterEntry(s, q, step), r);
      case SubmitReference(reference) => SubmitKeepsPays(s.db, q, reference, s.clock, r);
      case RejectManual => FailManualLawful(s, q); LawfulPays(s, s.db, AfterEntry(s, q, step), r);
      case ApproveManual(p, token) => if ApproveManualError(s.db, q, p).None? { SettlePays(s, q, p, token, r); }
      case SettleStored(p, token) => if q in s.db.registrations { SettlePays(s, q, p, token, r); }
      case ExpireClaimed(p, worker) => ExpireClaimedLawful(s, q, p, worker); LawfulPays(s, s.db, AfterEntry(s, q, step), r);
    }
  }

  lemma SettlePays(s: Sys, q: Id, p: Id, token: Id, r: Id)
    requires s.RowFree(q) && p in s.db.payments && s.db.payments[p].registration == q && q in s.db.registrations
    requires var settled := WithPaymentStatus(s.db, p, Succeeded); HasPayment(settled, r)
    ensures HasPayment(s.db, r)
  {
    SettleLawful(s, q, p, token);
    LawfulPays(s, s.db, WithPaymentStatus(s.db, p, Succeeded), r);
  }

  lemma WorkPays(s: Sys, step: WorkStep, r: Id)
    requires WorkEnabled(s, step) && HasPayment(AfterWork(s, step).db, r)
    ensures HasPayment(s.db, r)
  {
    var after := AfterWork(s, step).db;
    var p :| p in after.payments && after.payments[p].registration == r;
    assert s.db.payments[p].registration == r;
  }

  lemma CreatePays(s: Sys, t: Id, step: CreateStep)
    requires CreateEnabled(s, t, step)
    ensures AfterCreate(s, t, step).db.payments == s.db.payments
  {
    if !step.Commit? {
      CreateOnlyMoves(s, t, step);
    }
  }

  /** Only its own call gives a registration its first payment. */
  lemma FirstPayment(s: Sys, a: Action, r: Id)
    requires Enabled(s, a) && HasPayment(Next(s, a).db, r)
    ensures HasPayment(s.db, r) || (a.Paid? && a.r == r)
  {
    match a {
      case Create(t, step) => CreatePays(s, t, step);
      case Paid(q, step) => if q != r { PaidDb(s, q, step); PaidPays(s, q, step, r); }
      case Entry(q, step) => EntryPays(s, q, step, r);
      case Work(step) => WorkPays(s, step, r);
      case Other(step) => OtherLeavesReview(s, step);
    }
  }

  lemma PaymentStays(s: Sys, a: Action, r: Id)
    requires Inv(s) && Enabled(s, a) && HasPayment(s.db, r)
    ensures HasPayment(Next(s, a).db, r)
  {
    StepEvolves(s, a);
    var p :| p in s.db.payments && s.db.payments[p].registration == r;
    assert PaymentEvolves(s.db.payments[p], Next(s, a).db.payments[p]);
  }

  // ---- One step ----

  lemma PendingBefore(s: Sys, a: Action, r: Id)
    requires Inv(s) && Enabled(s, a) && r in s.db.registrations && Next(s, a).db.StatusIs(r, Pending)
    ensures s.db.StatusIs(r, Pending)
  {
    StepEvolves(s, a);
    assert EntryEvolves(Next(s, a).db, r, s.db.registrations[r], Next(s, a).db.registrations[r]);
  }

  lemma StrandedStays(s: Sys, a: Action, r: Id)
    requires Inv(s) && Enabled(s, a) && StrandedPlace(s, r) && SweptHasPayment(s, r) && !Cancels(a, r)
    ensures StrandedPlace(Next(s, a), r)
  {
    StrandedUnpaid(s, a, r);
    StrandedStatus(s, a, r);
    if r in Next(s, a).calls {
      CallBefore(s, a, r);
    }
  }

  lemma StrandedUnpaid(s: Sys, a: Action, r: Id)
    requires Enabled(s, a) && StrandedPlace(s, r)
    ensures !HasPayment(Next(s, a).db, r)
  {
    if HasPayment(Next(s, a).db, r) {
      FirstPayment(s, a, r);
    }
  }

  /** No step expires it, having no payment to expire it for. */
  lemma UnpaidNotExpired(s: Sys, a: Action, r: Id)
    requires Enabled(s, a) && !HasPayment(s.db, r) && SweptHasPayment(s, r)
    ensures !Expires(s, a, r)
  {
  }

  lemma StrandedStatus(s: Sys, a: Action, r: Id)
    requires Inv(s) && Enabled(s, a) && StrandedPlace(s, r) && SweptHasPayment(s, r) && !Cancels(a, r)
    requires !HasPayment(Next(s, a).db, r)
    ensures Next(s, a).db.StatusIs(r, Pending)
  {
    StepEvolves(s, a);
    assert EntryEvolves(Next(s, a).db, r, s.db.registrations[r], Next(s, a).db.registrations[r]);
    CancelledByStep(s, a, r);
    UnpaidNotExpired(s, a, r);
    ExpiredByStep(s, a, r);
  }

  lemma RecordedPays(db: Db, p: Id, payment: Payment)
    ensures CreatePaymentError(db, payment).None? ==> HasPayment(CreatePayment(db, p, payment), payment.registration)
  {
    if CreatePaymentError(db, payment).None? {
      assert CreatePayment(db, p, payment).payments[p] == payment;
    }
  }

  lemma PaidStrands(s: Sys, r: Id, step: PaidStep)
    requires PaidEnabled(s, r, step) && StrandedPlace(AfterPaid(s, r, step), r)
    requires s.db.StatusIs(r, Pending) && !HasPayment(s.db, r)
    ensures Strands(s, Paid(r, step), r)
  {
    PaidDb(s, r, step);
    match step {
      case RecordPayment(p, payment) =>
        RecordedPays(s.db, p, payment);
      case PayAtOnce(_, payment, _) => if ConfirmWithPaymentError(s.db, r, payment).None? {}
      case _ =>
    }
  }

  lemma StrandingStrands(s: Sys, a: Action, r: Id)
    requires Enabled(s, a) && Strands(s, a, r)
    ensures StrandedPlace(Next(s, a), r)
  {
    PaidDb(s, r, a.paid);
  }

  lemma OtherCalls(s: Sys, a: Action, r: Id)
    requires Enabled(s, a) && r in s.calls && !(a.Paid? && a.r == r)
    ensures r in Next(s, a).calls
  {
    match a {
      case Create(t, step) => if !step.Commit? { CreateOnlyMoves(s, t, step); }
      case Paid(q, step) => PaidLeavesCall(s, q, step, r);
      case Entry(_, _) =>
      case Work(step) => WorkKeepsCheckIns(s, step);
      case Other(step) => OtherCheckIns(s, step, r);
    }
  }

  lemma PaidLeavesCall(s: Sys, q: Id, step: PaidStep, r: Id)
    requires PaidEnabled(s, q, step) && r in s.calls && q != r
    ensures r in AfterPaid(s, q, step).calls
  {
    match step {
      case RecordPayment(_, payment) =>
        if CreatePaymentError(s.db, payment).Some? {
        } else if payment.status.Failed? {
        }
      case _ =>
    }
  }

  /** A new registration is confirmed, or has its call. */
  lemma NewIsNotStranded(s: Sys, a: Action, r: Id)
    requires Inv(s) && Enabled(s, a) && r !in s.db.registrations
    ensures !StrandedPlace(Next(s, a), r)
  {
    if IsCommit(a) {
      assert Fits(s, a.t, s.creates[a.t]);
    } else {
      StepAddsNone(s, a);
    }
  }

  lemma StrandedBefore(s: Sys, a: Action, r: Id)
    requires Inv(s) && Enabled(s, a) && StrandedPlace(Next(s, a), r)
    ensures StrandedPlace(s, r) || Strands(s, a, r)
  {
    if r !in s.db.registrations {
      NewIsNotStranded(s, a, r);
    } else {
      PendingBefore(s, a, r);
      if HasPayment(s.db, r) {
        PaymentStays(s, a, r);
      }
      if r in s.calls {
        if !(a.Paid? && a.r == r) {
          OtherCalls(s, a, r);
        } else {
          PaidStrands(s, r, a.paid);
        }
      }
    }
  }

  lemma CancelledNotStranded(s: Sys, a: Action, r: Id)
    requires Inv(s) && Enabled(s, a) && Cancels(a, r)
    ensures !StrandedPlace(Next(s, a), r)
  {
    CancelledByStep(s, a, r);
    if r !in s.db.registrations {
      NewIsNotStranded(s, a, r);
    }
  }

  /** A place is stranded after a step iff it was and the step does not cancel it, or the step strands it. */
  lemma StrandedByStep(s: Sys, a: Action, r: Id)
    requires Inv(s) && Enabled(s, a) && SweptHasPayment(s, r)
    ensures StrandedPlace(Next(s, a), r) <==> (StrandedPlace(s, r) && !Cancels(a, r)) || Strands(s, a, r)
  {
    if StrandedPlace(Next(s, a), r) {
      StrandedBefore(s, a, r);
    }
    if Cancels(a, r) {
      CancelledNotStranded(s, a, r);
    } else if StrandedPlace(s, r) {
      StrandedStays(s, a, r);
    }
    if Strands(s, a, r) {
      StrandingStrands(s, a, r);
    }
  }

  // ---- Every run ----

  lemma PaymentsLast(run: Run, h: nat, k: nat, r: Id)
    requires run.Valid() && h <= k < |run.states| && Inv(run.states[0]) && HasPayment(run.states[h].db, r)
    ensures HasPayment(run.states[k].db, r)
  {
    RunLater(run, h, k);
    var p :| p in run.states[h].db.payments && run.states[h].db.payments[p].registration == r;
    assert PaymentEvolves(run.states[h].db.payments[p], run.states[k].db.payments[p]);
  }

  lemma SweepsHavePayments(run: Run, k: nat, r: Id)
    requires run.Valid() && k < |run.states| && Initial(run.states[0])
    ensures SweptHasPayment(run.states[k], r)
  {
    InitialInv(run.states[0]);
    forall e | e in run.states[k].sweeps && r in run.states[k].sweeps[e].rows ensures HasPayment(run.states[k].db, r) {
      SweepHasSelected(run, k, e, r);
      var h: nat :| SelectedBy(run, h, k, e, r);
      PaymentsLast(run, h, k, r);
    }
  }

  /** Step m has stranded r, and no later one has cancelled it. */
  ghost predicate StrandedAt(run: Run, m: nat, k: nat, r: Id)
    requires run.Valid() && k < |run.states|
  {
    && m < k && Strands(run.states[m], run.actions[m], r)
    && (forall n :: m < n < k ==> !Cancels(run.actions[n], r))
  }

  ghost predicate WasStranded(run: Run, k: nat, r: Id)
    requires run.Valid() && k < |run.states|
  {
    exists m: nat :: StrandedAt(run, m, k, r)
  }

  lemma WasStrandedNext(run: Run, k: nat, r: Id)
    requires run.Valid() && k + 1 < |run.states|
    ensures WasStranded(run, k + 1, r) <==>
      (WasStranded(run, k, r) && !Cancels(run.actions[k], r)) || Strands(run.states[k], run.actions[k], r)
  {
    if Strands(run.states[k], run.actions[k], r) {
      assert StrandedAt(run, k, k + 1, r);
    }
    if WasStranded(run, k, r) && !Cancels(run.actions[k], r) {
      var m: nat :| StrandedAt(run, m, k, r);
      assert StrandedAt(run, m, k + 1, r);
    }
    if WasStranded(run, k + 1, r) {
      var m: nat :| StrandedAt(run, m, k + 1, r);
      if m < k {
        assert StrandedAt(run, m, k, r);
      }
    }
  }

  lemma StrandedNext(run: Run, k: nat, r: Id)
    requires run.Valid() && k + 1 < |run.states| && Initial(run.states[0])
    ensures StrandedPlace(run.states[k + 1], r) <==>
      (StrandedPlace(run.states[k], r) && !Cancels(run.actions[k], r)) || Strands(run.states[k], run.actions[k], r)
  {
    InitialInv(run.states[0]);
    RunKeepsInv(run, k);
    SweepsHavePayments(run, k, r);
    StrandedByStep(run.states[k], run.actions[k], r);
  }

  ghost predicate StrandHistory(run: Run, r: Id)
    requires run.Valid()
  {
    && !StrandedPlace(run.states[0], r)
    && forall k :: 0 <= k < |run.actions| ==>
         (StrandedPlace(run.states[k + 1], r) <==>
           (StrandedPlace(run.states[k], r) && !Cancels(run.actions[k], r)) || Strands(run.states[k], run.actions[k], r))
  }

  lemma {:induction false} HistoryStranded(run: Run, k: nat, r: Id)
    requires run.Valid() && k < |run.states| && StrandHistory(run, r)
    ensures StrandedPlace(run.states[k], r) <==> WasStranded(run, k, r)
  {
    if k > 0 {
      HistoryStranded(run, k - 1, r);
      WasStrandedNext(run, k - 1, r);
    }
  }

  /**
   * In every run a place is PENDING with no payment and no call exactly when its call has crashed, or its settlement
   * was refused, before a payment was recorded, and it has not been cancelled since.
   */
  lemma StrandedIff(run: Run, k: nat, r: Id)
    requires run.Valid() && k < |run.states| && Initial(run.states[0])
    ensures StrandedPlace(run.states[k], r) <==> WasStranded(run, k, r)
  {
    forall m | 0 <= m < |run.actions|
      ensures StrandedPlace(run.states[m + 1], r) <==>
        (StrandedPlace(run.states[m], r) && !Cancels(run.actions[m], r)) || Strands(run.states[m], run.actions[m], r)
    {
      StrandedNext(run, m, r);
    }
    HistoryStranded(run, k, r);
  }

  /** No sweep, lease, review or clock gives it back: it counts against the capacity until it is cancelled. */
  lemma StrandedHolds(run: Run, j: nat, k: nat, r: Id)
    requires run.Valid() && j <= k < |run.states| && Initial(run.states[0]) && StrandedPlace(run.states[j], r)
    ensures !CancelledWithin(run, j, k, r) <==> StrandedPlace(run.states[k], r)
    ensures !CancelledWithin(run, j, k, r) ==> r in run.states[k].db.ActiveIn(run.states[j].db.registrations[r].category)
  {
    InitialInv(run.states[0]);
    RunLater(run, j, k);
    CancelledSince(run, j, k, r);
    StrandedIff(run, j, r);
    StrandedIff(run, k, r);
    if !CancelledWithin(run, j, k, r) {
      var m: nat :| StrandedAt(run, m, j, r);
      forall n | m < n < k ensures !Cancels(run.actions[n], r) {}
      assert StrandedAt(run, m, k, r);
    }
  }
}
