/**
 * Where the guarantees stop, exactly: which steps cancel, what a settlement that comes too late does,
 * which steps expire, and what the clock may not take from a payment under review.
 */
module Boundaries {
  import opened Wrappers
  import opened Tables
  import opened Statements
  import opened Protocol
  import opened CreateInvariant
  import opened PaymentInvariant
  import opened ProtocolInvariant
  import opened StepInvariant
  import opened Evolution

  // ---- Cancellation ----

  predicate Cancels(a: Action, r: Id) {
    (a.Entry? && a.r == r && a.entry.CancelEntry?) || a == Paid(r, Release)
  }

  ghost predicate SameCancelled(db: Db, db': Db, r: Id) {
    r in db.registrations ==> r in db'.registrations && (db'.registrations[r].status.Cancelled? <==> db.registrations[r].status.Cancelled?)
  }

  lemma EntryCancels(s: Sys, q: Id, step: EntryStep, r: Id)
    requires !(step.CancelEntry? && q == r)
    ensures SameCancelled(s.db, AfterEntry(s, q, step), r)
  {
    match step {
      case CancelEntry(_) => if q in s.db.registrations {}
      case SubmitReference(reference) => if SubmitManualError(s.db, q, reference, s.clock).Some? {}
      case RejectManual => if FailManualError(s.db, q).Some? {}
      case ApproveManual(payment, token) => if ApproveManualError(s.db, q, payment).Some? {}
      case SettleStored(payment, token) =>
        if q in s.db.registrations {
          if s.db.registrations[q].status.Pending? {}
        }
      case ExpireClaimed(payment, worker) =>
        if Claimed(s.db, q, payment, worker) {
          if s.db.registrations[q].status.Pending? {}
        }
    }
  }

  lemma PaidWritesCancels(db: Db, q: Id, step: PaidStep, r: Id)
    requires !(step.Release? && q == r)
    ensures SameCancelled(db, PaidWrites(db, q, step), r)
  {
    match step {
      case RecordPayment(_, payment) => if CreatePaymentError(db, payment).None? {}
      case PayAtOnce(_, payment, _) => if ConfirmWithPaymentError(db, q, payment).None? {}
      case Release => if q in db.registrations {}
      case _ =>
    }
  }

  lemma PaidCancels(s: Sys, q: Id, step: PaidStep, r: Id)
    requires PaidEnabled(s, q, step) && !(step.Release? && q == r)
    ensures SameCancelled(s.db, AfterPaid(s, q, step).db, r)
  {
    PaidDb(s, q, step);
    PaidWritesCancels(s.db, q, step, r);
  }

  lemma WorkCancels(s: Sys, step: WorkStep, r: Id)
    requires SweepsOwn(s) && WorkEnabled(s, step)
    ensures SameCancelled(s.db, AfterWork(s, step).db, r)
  {
    if step.SweepFinish? && r in s.sweeps[step.e].rows {
      assert SweptRow(s, s.sweeps[step.e].now, r);
    }
  }

  lemma CreateCancels(s: Sys, t: Id, step: CreateStep, r: Id)
    requires CreateInv(s) && CreateEnabled(s, t, step)
    ensures SameCancelled(s.db, AfterCreate(s, t, step).db, r)
    ensures r !in s.db.registrations ==> !AfterCreate(s, t, step).db.StatusIs(r, Cancelled)
  {
    if step.Commit? {
      assert Fits(s, t, s.creates[t]);
    } else {
      CreateStepAddsNone(s, t, step);
    }
  }

  lemma OtherCancels(s: Sys, step: OtherStep, r: Id)
    requires OtherEnabled(s, step)
    ensures SameCancelled(s.db, AfterOther(s, step).db, r)
  {
  }

  /** A registration that exists is CANCELLED after a step iff it was, or the step cancels it. */
  lemma CancelledByStep(s: Sys, a: Action, r: Id)
    requires Inv(s) && Enabled(s, a)
    ensures Next(s, a).db.StatusIs(r, Cancelled) <==> s.db.StatusIs(r, Cancelled) || (r in s.db.registrations && Cancels(a, r))
  {
    if !IsCommit(a) {
      StepAddsNone(s, a);
    }
    match a {
      case Create(t, step) => CreateCancels(s, t, step, r);
      case Paid(q, step) => if !Cancels(a, r) { PaidCancels(s, q, step, r); }
      case Entry(q, step) => if !Cancels(a, r) { EntryCancels(s, q, step, r); }
      case Work(step) => WorkCancels(s, step, r);
      case Other(step) => OtherCancels(s, step, r);
    }
  }

  ghost predicate WasCancelled(run: Run, k: nat, r: Id)
    requires run.Valid() && k < |run.states|
  {
    exists i :: 0 <= i < k && r in run.states[i].db.registrations && Cancels(run.actions[i], r)
  }

  lemma {:induction false} CancelledIffCancelStep(run: Run, k: nat, r: Id)
    requires run.Valid() && k < |run.states| && Initial(run.states[0])
    ensures run.states[k].db.StatusIs(r, Cancelled) <==> WasCancelled(run, k, r)
  {
    if k > 0 {
      CancelledIffCancelStep(run, k - 1, r);
      InitialInv(run.states[0]);
      RunKeepsInv(run, k - 1);
      CancelledByStep(run.states[k - 1], run.actions[k - 1], r);
      assert WasCancelled(run, k, r) <==>
        WasCancelled(run, k - 1, r) || (r in run.states[k - 1].db.registrations && Cancels(run.actions[k - 1], r));
    }
  }

  // ---- Settlement ----

  /** Settling a stored payment confirms the entry iff its place has not been given up. */
  lemma SettlementConfirmsIffPlaceHeld(s: Sys, r: Id, p: Id, token: Id)
    requires Inv(s) && Enabled(s, Entry(r, SettleStored(p, token)))
    ensures var after := Next(s, Entry(r, SettleStored(p, token))).db;
      && after.payments[p].status.Succeeded?
      && (after.StatusIs(r, Confirmed) <==> s.db.registrations[r].status.Active())
  {
  }

  // ---- The clock and payments under review ----

  predicate Reviews(a: Action, r: Id, p: Id) {
    a.Entry? && a.r == r && (a.entry.RejectManual? || (a.entry.ApproveManual? && a.entry.p == p))
  }

  ghost predicate StillReviewed(db: Db, db': Db, r: Id, p: Id) {
    && p in db'.payments && db'.payments[p].status.Processing?
    && db'.StatusIs(r, Pending)
  }

  /** A step on one registration leaves the others, and their payments, alone. */
  lemma EntryFrame(s: Sys, q: Id, step: EntryStep, r: Id)
    requires q != r && r in s.db.registrations
    ensures r in AfterEntry(s, q, step).registrations && AfterEntry(s, q, step).registrations[r] == s.db.registrations[r]
  {
  }

  lemma EntryPaymentFrame(s: Sys, q: Id, step: EntryStep, p: Id)
    requires EntryEnabled(s, q, step) && p in s.db.payments && s.db.payments[p].registration != q
    ensures p in AfterEntry(s, q, step).payments && AfterEntry(s, q, step).payments[p] == s.db.payments[p]
  {
    match step {
      case CancelEntry(_) => if q in s.db.registrations {}
      case SubmitReference(reference) => if SubmitManualError(s.db, q, reference, s.clock).Some? {}
      case RejectManual => if FailManualError(s.db, q).Some? {}
      case ApproveManual(payment, token) => if ApproveManualError(s.db, q, payment).Some? {}
      case SettleStored(payment, token) =>
        if q in s.db.registrations {
          if s.db.registrations[q].status.Pending? {}
        }
      case ExpireClaimed(payment, worker) =>
        if Claimed(s.db, q, payment, worker) {
          if s.db.registrations[q].status.Pending? {}
        }
    }
  }

  lemma PaidFrame(s: Sys, q: Id, step: PaidStep, r: Id)
    requires PaidEnabled(s, q, step) && q != r && r in s.db.registrations
    ensures r in AfterPaid(s, q, step).db.registrations && AfterPaid(s, q, step).db.registrations[r] == s.db.registrations[r]
  {
    PaidDb(s, q, step);
    PaidWritesFrame(s.db, q, step);
  }

  lemma PaidPaymentFrame(s: Sys, q: Id, step: PaidStep, p: Id)
    requires PaidEnabled(s, q, step) && p in s.db.payments
    ensures p in AfterPaid(s, q, step).db.payments && AfterPaid(s, q, step).db.payments[p] == s.db.payments[p]
  {
    PaidDb(s, q, step);
    PaidWritesFrame(s.db, q, step);
  }

  lemma EntryHere(s: Sys, step: EntryStep, r: Id, p: Id)
    requires OnePaymentEach(s.db) && EntryEnabled(s, r, step)
    requires s.db.StatusIs(r, Pending) && p in s.db.payments && UnderReview(s.db.payments[p], r)
    requires step.SubmitReference? || step.SettleStored? || step.ExpireClaimed? || (step.ApproveManual? && step.p != p)
    ensures StillReviewed(s.db, AfterEntry(s, r, step), r, p)
  {
  }

  lemma EntryLeavesReview(s: Sys, q: Id, step: EntryStep, r: Id, p: Id)
    requires EntryEnabled(s, q, step) && OnePaymentEach(s.db)
    requires s.db.StatusIs(r, Pending) && p in s.db.payments && UnderReview(s.db.payments[p], r)
    requires !Reviews(Entry(q, step), r, p) && !Cancels(Entry(q, step), r)
    ensures StillReviewed(s.db, AfterEntry(s, q, step), r, p)
  {
    if q == r {
      EntryHere(s, step, r, p);
    } else {
      EntryFrame(s, q, step, r);
      EntryPaymentFrame(s, q, step, p);
    }
  }

  lemma SweptPayment(s: Sys, e: Id, r: Id, p: Id)
    requires SweepsOwn(s) && e in s.sweeps && r in s.sweeps[e].rows && p in s.db.payments && s.db.payments[p].registration == r
    ensures !s.db.payments[p].status.Processing?
  {
    assert SweptRow(s, s.sweeps[e].now, r);
  }

  lemma WorkLeavesReview(s: Sys, step: WorkStep, r: Id, p: Id)
    requires WorkEnabled(s, step) && SweepsOwn(s)
    requires s.db.StatusIs(r, Pending) && p in s.db.payments && UnderReview(s.db.payments[p], r)
    ensures StillReviewed(s.db, AfterWork(s, step).db, r, p)
  {
    if step.SweepFinish? && r in s.sweeps[step.e].rows {
      SweptPayment(s, step.e, r, p);
    }
  }

  lemma PaidLeavesReview(s: Sys, q: Id, step: PaidStep, r: Id, p: Id)
    requires PaidEnabled(s, q, step) && CallsOwn(s)
    requires s.db.StatusIs(r, Pending) && p in s.db.payments && UnderReview(s.db.payments[p], r)
    requires !Cancels(Paid(q, step), r)
    ensures StillReviewed(s.db, AfterPaid(s, q, step).db, r, p)
  {
    if q == r {
      assert HasPayment(s.db, r);
    } else {
      PaidFrame(s, q, step, r);
      PaidPaymentFrame(s, q, step, p);
    }
  }

  lemma CreateLeavesReview(s: Sys, t: Id, step: CreateStep, r: Id, p: Id)
    requires CreateInv(s) && CreateEnabled(s, t, step)
    requires s.db.StatusIs(r, Pending) && p in s.db.payments && UnderReview(s.db.payments[p], r)
    ensures StillReviewed(s.db, AfterCreate(s, t, step).db, r, p)
  {
    if step.Commit? {
      assert Fits(s, t, s.creates[t]);
    } else {
      CreateStepAddsNone(s, t, step);
    }
  }

  lemma OtherLeavesReview(s: Sys, step: OtherStep)
    requires OtherEnabled(s, step)
    ensures AfterOther(s, step).db.payments == s.db.payments && AfterOther(s, step).db.registrations == s.db.registrations
  {
  }

  /**
   * A manual payment under review, and the place it holds, are given up only by its approval or rejection, or by a
   * cancellation: no sweep, lease or clock reading takes them, even when the payment has expired.
   */
  lemma ReviewOutlastsClock(s: Sys, a: Action, r: Id, p: Id)
    requires Inv(s) && Enabled(s, a)
    requires s.db.StatusIs(r, Pending) && p in s.db.payments && UnderReview(s.db.payments[p], r)
    requires !Reviews(a, r, p) && !Cancels(a, r)
    ensures StillReviewed(s.db, Next(s, a).db, r, p)
  {
    match a {
      case Create(t, step) => CreateLeavesReview(s, t, step, r, p);
      case Paid(q, step) => PaidLeavesReview(s, q, step, r, p);
      case Entry(q, step) => EntryLeavesReview(s, q, step, r, p);
      case Work(step) => WorkLeavesReview(s, step, r, p);
      case Other(step) => OtherLeavesReview(s, step);
    }
  }

  // ---- Expiry ----

  /** The steps that give up a pending place for its payment's sake, where they take effect. */
  predicate Expires(s: Sys, a: Action, r: Id) {
    || (a.Work? && a.work.SweepFinish? && a.work.e in s.sweeps && r in s.sweeps[a.work.e].rows)
    || (a == Entry(r, RejectManual) && FailManualError(s.db, r).None?)
    || (a.Entry? && a.r == r && a.entry.ExpireClaimed? && Claimed(s.db, r, a.entry.p, a.entry.worker) && s.db.StatusIs(r, Pending))
  }

  ghost predicate SameExpired(db: Db, db': Db, r: Id) {
    db'.StatusIs(r, Expired) <==> db.StatusIs(r, Expired)
  }

  lemma EntryExpires(s: Sys, step: EntryStep, r: Id)
    ensures AfterEntry(s, r, step).StatusIs(r, Expired) <==>
      (s.db.StatusIs(r, Expired) && !step.CancelEntry?) || Expires(s, Entry(r, step), r)
  {
    match step {
      case CancelEntry(_) => if r in s.db.registrations {}
      case SubmitReference(reference) => if SubmitManualError(s.db, r, reference, s.clock).Some? {}
      case RejectManual => if FailManualError(s.db, r).Some? {}
      case ApproveManual(payment, token) => if ApproveManualError(s.db, r, payment).Some? {}
      case SettleStored(payment, token) =>
        if r in s.db.registrations {
          if s.db.registrations[r].status.Pending? {}
        }
      case ExpireClaimed(payment, worker) =>
        if Claimed(s.db, r, payment, worker) {
          if s.db.registrations[r].status.Pending? {}
        }
    }
  }

  lemma EntryExpiresOthers(s: Sys, q: Id, step: EntryStep, r: Id)
    requires q != r
    ensures SameExpired(s.db, AfterEntry(s, q, step), r)
  {
    match step {
      case CancelEntry(_) => if q in s.db.registrations {}
      case SubmitReference(reference) => if SubmitManualError(s.db, q, reference, s.clock).Some? {}
      case RejectManual => if FailManualError(s.db, q).Some? {}
      case ApproveManual(payment, token) => if ApproveManualError(s.db, q, payment).Some? {}
      case SettleStored(payment, token) =>
        if q in s.db.registrations {
          if s.db.registrations[q].status.Pending? {}
        }
      case ExpireClaimed(payment, worker) =>
        if Claimed(s.db, q, payment, worker) {
          if s.db.registrations[q].status.Pending? {}
        }
    }
  }

  lemma PaidExpires(db: Db, q: Id, step: PaidStep, r: Id)
    ensures PaidWrites(db, q, step).StatusIs(r, Expired) <==> db.StatusIs(r, Expired) && !(step.Release? && q == r)
  {
    match step {
      case RecordPayment(_, payment) => if CreatePaymentError(db, payment).None? {}
      case PayAtOnce(_, payment, _) => if ConfirmWithPaymentError(db, q, payment).None? {}
      case Release => if q in db.registrations {}
      case _ =>
    }
  }

  lemma WorkExpires(s: Sys, step: WorkStep, r: Id)
    requires SweepsOwn(s) && WorkEnabled(s, step)
    ensures AfterWork(s, step).db.StatusIs(r, Expired) <==> s.db.StatusIs(r, Expired) || Expires(s, Work(step), r)
  {
    match step {
      case SweepFinish(e) => if r in s.sweeps[e].rows { assert SweptRow(s, s.sweeps[e].now, r); }
      case _ =>
    }
  }

  lemma CreateExpires(s: Sys, t: Id, step: CreateStep, r: Id)
    requires CreateInv(s) && CreateEnabled(s, t, step)
    ensures SameExpired(s.db, AfterCreate(s, t, step).db, r)
  {
    if step.Commit? {
      assert Fits(s, t, s.creates[t]);
    } else {
      CreateStepAddsNone(s, t, step);
    }
  }

  /**
   * A registration is EXPIRED after a step iff the step is the end of a sweep that has selected it, the rejection of
   * its payment under review, or the effective giving up of its claimed payment - or it was before, and is not cancelled.
   */
  lemma ExpiredByStep(s: Sys, a: Action, r: Id)
    requires Inv(s) && Enabled(s, a)
    ensures Next(s, a).db.StatusIs(r, Expired) <==> (s.db.StatusIs(r, Expired) && !Cancels(a, r)) || Expires(s, a, r)
  {
    match a {
      case Create(t, step) => CreateExpires(s, t, step, r);
      case Paid(q, step) => PaidDb(s, q, step); PaidExpires(s.db, q, step, r);
      case Entry(q, step) => if q == r { EntryExpires(s, step, r); } else { EntryExpiresOthers(s, q, step, r); }
      case Work(step) => WorkExpires(s, step, r);
      case Other(step) => OtherLeavesReview(s, step);
    }
  }

  /** Step h began the sweep e that is open at state m, and r was then pending with an overdue payment. */
  ghost predicate SelectedBy(run: Run, h: nat, m: nat, e: Id, r: Id)
    requires run.Valid() && m < |run.states|
  {
    && h < m && run.actions[h].Work? && run.actions[h].work.SweepSelect? && run.actions[h].work.e == e
    && r in SweepRows(run.states[h].db, run.actions[h].work.now)
  }

  ghost predicate Selected(run: Run, m: nat, e: Id, r: Id)
    requires run.Valid() && m < |run.states|
  {
    exists h: nat :: SelectedBy(run, h, m, e, r)
  }

  lemma CreateKeepsSweepSet(s: Sys, t: Id, step: CreateStep)
    requires CreateEnabled(s, t, step)
    ensures AfterCreate(s, t, step).sweeps == s.sweeps
  {
    if !step.Commit? {
      CreateOnlyMoves(s, t, step);
    }
  }

  lemma PaidKeepsSweepSet(s: Sys, r: Id, step: PaidStep)
    requires PaidEnabled(s, r, step)
    ensures AfterPaid(s, r, step).sweeps == s.sweeps
  {
    match step {
      case RecordPayment(_, payment) =>
        if CreatePaymentError(s.db, payment).Some? {
        } else if payment.status.Failed? {
        }
      case _ =>
    }
  }

  lemma OtherKeepsSweepSet(s: Sys, step: OtherStep)
    requires OtherEnabled(s, step)
    ensures AfterOther(s, step).sweeps == s.sweeps
  {
  }

  lemma SweepRowsStep(s: Sys, a: Action, e: Id)
    requires Enabled(s, a) && e in Next(s, a).sweeps
    ensures if a.Work? && a.work.SweepSelect? && a.work.e == e then Next(s, a).sweeps[e].rows == SweepRows(s.db, a.work.now)
            else e in s.sweeps && Next(s, a).sweeps[e] == s.sweeps[e]
  {
    match a {
      case Create(t, step) => CreateKeepsSweepSet(s, t, step);
      case Paid(r, step) => PaidKeepsSweepSet(s, r, step);
      case Entry(_, _) =>
      case Work(_) =>
      case Other(step) => OtherKeepsSweepSet(s, step);
    }
  }

  /** What a sweep will give up was pending and overdue when it selected. */
  lemma {:induction false} SweepHasSelected(run: Run, m: nat, e: Id, r: Id)
    requires run.Valid() && m < |run.states| && Initial(run.states[0])
    requires e in run.states[m].sweeps && r in run.states[m].sweeps[e].rows
    ensures Selected(run, m, e, r)
  {
    if m > 0 {
      SweepRowsStep(run.states[m - 1], run.actions[m - 1], e);
      if run.actions[m - 1].Work? && run.actions[m - 1].work.SweepSelect? && run.actions[m - 1].work.e == e {
        assert SelectedBy(run, m - 1, m, e, r);
      } else {
        SweepHasSelected(run, m - 1, e, r);
        var h: nat :| SelectedBy(run, h, m - 1, e, r);
        assert SelectedBy(run, h, m, e, r);
      }
    }
  }

  /** Step m has expired r, and no later one has cancelled it. */
  ghost predicate ExpiredAt(run: Run, m: nat, k: nat, r: Id)
    requires run.Valid() && k < |run.states|
  {
    && m < k && Expires(run.states[m], run.actions[m], r)
    && (forall n :: m < n < k ==> !Cancels(run.actions[n], r))
  }

  ghost predicate WasExpired(run: Run, k: nat, r: Id)
    requires run.Valid() && k < |run.states|
  {
    exists m: nat :: ExpiredAt(run, m, k, r)
  }

  lemma WasExpiredNext(run: Run, k: nat, r: Id)
    requires run.Valid() && k + 1 < |run.states|
    ensures WasExpired(run, k + 1, r) <==>
      (WasExpired(run, k, r) && !Cancels(run.actions[k], r)) || Expires(run.states[k], run.actions[k], r)
  {
    if Expires(run.states[k], run.actions[k], r) {
      assert ExpiredAt(run, k, k + 1, r);
    }
    if WasExpired(run, k, r) && !Cancels(run.actions[k], r) {
      var m: nat :| ExpiredAt(run, m, k, r);
      assert ExpiredAt(run, m, k + 1, r);
    }
    if WasExpired(run, k + 1, r) {
      var m: nat :| ExpiredAt(run, m, k + 1, r);
      if m < k {
        assert ExpiredAt(run, m, k, r);
      }
    }
  }

  /** In every run a registration is EXPIRED exactly when such a step of it has happened, and no cancellation since. */
  lemma {:induction false} ExpiredIff(run: Run, k: nat, r: Id)
    requires run.Valid() && k < |run.states| && Initial(run.states[0])
    ensures run.states[k].db.StatusIs(r, Expired) <==> WasExpired(run, k, r)
  {
    if k > 0 {
      ExpiredIff(run, k - 1, r);
      InitialInv(run.states[0]);
      RunKeepsInv(run, k - 1);
      ExpiredByStep(run.states[k - 1], run.actions[k - 1], r);
      WasExpiredNext(run, k - 1, r);
    }
  }

  // ---- A sweep that comes before the money ----

  /** Both statements of a sweep with nothing in between. */
  lemma SweepPair(s: Sys, e: Id, now: Instant)
    requires Enabled(s, Work(SweepSelect(e, now)))
    ensures var selected := Next(s, Work(SweepSelect(e, now)));
      && Enabled(selected, Work(SweepFinish(e)))
      && Next(selected, Work(SweepFinish(e))) == s.(db := SweepCommit(s.db, now, SweepRows(s.db, now)))
  {
    var selected := AfterWork(s, SweepSelect(e, now));
    assert selected.sweeps - {e} == s.sweeps;
  }

  lemma SweptPlace(db: Db, now: Instant, r: Id, p: Id)
    requires db.StatusIs(r, Pending) && p in db.payments && db.payments[p].registration == r && db.payments[p].Overdue(now)
    ensures var after := SweepCommit(db, now, SweepRows(db, now));
      && after.StatusIs(r, Expired) && after.tickets == db.tickets
      && p in after.payments && after.payments[p] == db.payments[p].(status := Failed)
  {
    assert r in SweepRows(db, now);
  }

  lemma LateSettlement(db: Db, r: Id, p: Id, token: Id)
    requires db.StatusIs(r, Expired) && p in db.payments && db.payments[p].registration == r
    ensures var after := ConfirmStoredPayment(db, r, p, token);
      && after.StatusIs(r, Expired) && after.tickets == db.tickets
      && p in after.payments && after.payments[p].status.Succeeded?
  {
  }

  /**
   * The sweep asks no provider: from every state with a pending place whose payment is overdue, a sweep can release it
   * although the payment is settled in the next step. The money is then taken, and there is no place and no ticket.
   */
  lemma SweepLosesSettledPlace(s: Sys, e: Id, now: Instant, r: Id, p: Id, token: Id)
    requires Inv(s) && Enabled(s, Work(SweepSelect(e, now))) && s.db.StatusIs(r, Pending) && s.RowFree(r)
    requires p in s.db.payments && s.db.payments[p].registration == r && s.db.payments[p].Overdue(now)
    requires !s.db.payments[p].provider.Manual?
    ensures var swept := Next(Next(s, Work(SweepSelect(e, now))), Work(SweepFinish(e)));
      && swept.db.StatusIs(r, Expired) && Enabled(swept, Entry(r, SettleStored(p, token)))
      && var after := Next(swept, Entry(r, SettleStored(p, token))).db;
         && p in after.payments && after.payments[p].status.Succeeded?
         && after.StatusIs(r, Expired) && r !in after.tickets
  {
    SweepPair(s, e, now);
    SweptPlace(s.db, now, r, p);
    LateSettlement(SweepCommit(s.db, now, SweepRows(s.db, now)), r, p, token);
  }
}
