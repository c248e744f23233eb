/**
 * Check-ins against cancellations. Both read first and write later, and no lock covers the pair, so a registration
 * can end checked in and CANCELLED: exactly when a cancellation overlaps the insertion.
 */
module CheckIns {
  import opened Wrappers
  import opened Tables
  import opened Statements
  import opened Protocol
  import opened CreateInvariant
  import opened ProtocolInvariant
  import opened StepInvariant
  import opened Evolution
  import opened Boundaries

  // ---- The insertion ----

  /** The step inserts the check-in of r. */
  predicate Inserts(s: Sys, a: Action, r: Id) {
    a.Other? && a.other.CheckIn? && a.other.c in s.scans && s.scans[a.other.c] == r && r !in s.db.checkIns
  }

  lemma CreateKeepsCheckIns(s: Sys, t: Id, step: CreateStep)
    requires CreateEnabled(s, t, step)
    ensures AfterCreate(s, t, step).db.checkIns == s.db.checkIns
  {
    if !step.Commit? {
      CreateOnlyMoves(s, t, step);
    }
  }

  lemma EntryKeepsCheckIns(s: Sys, q: Id, step: EntryStep)
    requires EntryEnabled(s, q, step)
    ensures AfterEntry(s, q, step).checkIns == s.db.checkIns
  {
    match step {
      case CancelEntry(_) => CancelLawful(s, q);
      case SubmitReference(reference) => if SubmitManualError(s.db, q, reference, s.clock).Some? {}
      case RejectManual => FailManualLawful(s, q);
      case ApproveManual(p, token) => if ApproveManualError(s.db, q, p).None? { SettleLawful(s, q, p, token); }
      case SettleStored(p, token) => if q in s.db.registrations { SettleLawful(s, q, p, token); }
      case ExpireClaimed(p, worker) => ExpireClaimedLawful(s, q, p, worker);
    }
  }

  lemma PaidKeepsCheckIns(s: Sys, q: Id, step: PaidStep)
    requires PaidEnabled(s, q, step)
    ensures AfterPaid(s, q, step).db.checkIns == s.db.checkIns
  {
    PaidDb(s, q, step);
    PaidWritesKeeps(s.db, q, step);
  }

  lemma WorkKeepsCheckIns(s: Sys, step: WorkStep)
    requires WorkEnabled(s, step)
    ensures AfterWork(s, step).db.checkIns == s.db.checkIns
    ensures AfterWork(s, step).cancels == s.cancels && AfterWork(s, step).calls == s.calls
  {
  }

  lemma OtherCheckIns(s: Sys, step: OtherStep, r: Id)
    requires OtherEnabled(s, step)
    ensures r in AfterOther(s, step).db.checkIns <==> r in s.db.checkIns || Inserts(s, Other(step), r)
    ensures AfterOther(s, step).calls == s.calls
  {
  }

  lemma CheckedInByStep(s: Sys, a: Action, r: Id)
    requires Enabled(s, a)
    ensures r in Next(s, a).db.checkIns <==> r in s.db.checkIns || Inserts(s, a, r)
  {
    match a {
      case Create(t, step) => CreateKeepsCheckIns(s, t, step);
      case Paid(q, step) => PaidKeepsCheckIns(s, q, step);
      case Entry(q, step) => EntryKeepsCheckIns(s, q, step);
      case Work(step) => WorkKeepsCheckIns(s, step);
      case Other(step) => OtherCheckIns(s, step, r);
    }
  }

  // ---- Cancellations that are open ----

  /** Call c has read r as active and without a check-in, and goes on to cancel it. */
  predicate ReadyToCancel(s: Sys, c: Id, r: Id) {
    c in s.cancels && s.cancels[c] == CancelCall(r, true)
  }

  /** Action a cancels r on behalf of a call that is open, past its reads, in state s. */
  predicate OpenCancellation(s: Sys, a: Action, r: Id) {
    || (a.Entry? && a.r == r && a.entry.CancelEntry? && ReadyToCancel(s, a.entry.c, r))
    || (a == Paid(r, Release) && r in s.calls)
  }

  lemma EnabledCancelIsOpen(s: Sys, a: Action, r: Id)
    requires Enabled(s, a) && Cancels(a, r)
    ensures OpenCancellation(s, a, r)
  {
  }

  lemma CreateKeepsCancels(s: Sys, t: Id, step: CreateStep)
    requires CreateEnabled(s, t, step)
    ensures AfterCreate(s, t, step).cancels == s.cancels
  {
    if !step.Commit? {
      CreateOnlyMoves(s, t, step);
    }
  }

  lemma PaidKeepsCancels(s: Sys, q: Id, step: PaidStep)
    requires PaidEnabled(s, q, step)
    ensures AfterPaid(s, q, step).cancels == s.cancels
  {
    match step {
      case RecordPayment(_, payment) =>
        if CreatePaymentError(s.db, payment).Some? {
        } else if payment.status.Failed? {
        }
      case _ =>
    }
  }

  lemma OtherReadyBefore(s: Sys, step: OtherStep, c: Id, r: Id)
    requires OtherEnabled(s, step) && r in s.db.checkIns && ReadyToCancel(AfterOther(s, step), c, r)
    ensures ReadyToCancel(s, c, r)
  {
  }

  /** No call becomes ready to cancel a registration that is checked in. */
  lemma ReadyBefore(s: Sys, a: Action, c: Id, r: Id)
    requires Enabled(s, a) && r in s.db.checkIns && ReadyToCancel(Next(s, a), c, r)
    ensures ReadyToCancel(s, c, r)
  {
    match a {
      case Create(t, step) => CreateKeepsCancels(s, t, step);
      case Paid(q, step) => PaidKeepsCancels(s, q, step);
      case Entry(_, _) =>
      case Work(step) => WorkKeepsCheckIns(s, step);
      case Other(step) => OtherReadyBefore(s, step, c, r);
    }
  }

  lemma PaidCallBefore(s: Sys, q: Id, step: PaidStep, r: Id)
    requires PaidEnabled(s, q, step) && r in AfterPaid(s, q, step).calls
    ensures r in s.calls
  {
    match step {
      case RecordPayment(_, payment) =>
        if CreatePaymentError(s.db, payment).Some? {
        } else if payment.status.Failed? {
        }
      case _ =>
    }
  }

  lemma CreateCallBefore(s: Sys, t: Id, step: CreateStep, r: Id)
    requires CreateInv(s) && CreateEnabled(s, t, step) && r in s.db.registrations && r in AfterCreate(s, t, step).calls
    ensures r in s.calls
  {
    if step.Commit? {
      assert Fits(s, t, s.creates[t]);
    } else {
      CreateOnlyMoves(s, t, step);
    }
  }

  /** A paid call is opened only by the commit that adds its registration. */
  lemma CallBefore(s: Sys, a: Action, r: Id)
    requires Inv(s) && Enabled(s, a) && r in s.db.registrations && r in Next(s, a).calls
    ensures r in s.calls
  {
    match a {
      case Create(t, step) => CreateCallBefore(s, t, step, r);
      case Paid(q, step) => PaidCallBefore(s, q, step, r);
      case Entry(_, _) =>
      case Work(step) => WorkKeepsCheckIns(s, step);
      case Other(step) => OtherCheckIns(s, step, r);
    }
  }

  lemma OpenBefore(s: Sys, a: Action, b: Action, r: Id)
    requires Inv(s) && Enabled(s, a) && r in s.db.registrations && r in s.db.checkIns
    requires OpenCancellation(Next(s, a), b, r)
    ensures OpenCancellation(s, b, r)
  {
    if b == Paid(r, Release) {
      CallBefore(s, a, r);
    } else {
      ReadyBefore(s, a, b.entry.c, r);
    }
  }

  /** A cancellation that is open after the insertion was open at it. */
  lemma InsertOpenBefore(s: Sys, a: Action, b: Action, r: Id)
    requires Enabled(s, a) && Inserts(s, a, r)
    requires OpenCancellation(Next(s, a), b, r)
    ensures OpenCancellation(s, b, r)
  {
  }

  // ---- Over a run ----

  ghost predicate CancelledWithin(run: Run, i: nat, k: nat, r: Id)
    requires run.Valid() && k < |run.states|
  {
    exists m :: i <= m < k && Cancels(run.actions[m], r)
  }

  lemma CancelledWithinNext(run: Run, i: nat, k: nat, r: Id)
    requires run.Valid() && i <= k && k + 1 < |run.states|
    ensures CancelledWithin(run, i, k + 1, r) <==> CancelledWithin(run, i, k, r) || Cancels(run.actions[k], r)
  {
  }

  lemma CancelledNext(run: Run, i: nat, k: nat, r: Id)
    requires run.Valid() && i <= k && k + 1 < |run.states| && Inv(run.states[0]) && r in run.states[i].db.registrations
    ensures run.states[k + 1].db.StatusIs(r, Cancelled) <==> run.states[k].db.StatusIs(r, Cancelled) || Cancels(run.actions[k], r)
  {
    RunKeepsInv(run, k);
    RunLater(run, i, k);
    CancelledByStep(run.states[k], run.actions[k], r);
  }

  /** From state i on, r is CANCELLED by its cancelling steps and by no others. */
  ghost predicate CancelHistory(run: Run, i: nat, r: Id)
    requires run.Valid()
  {
    forall k :: i <= k < |run.actions| ==>
      (run.states[k + 1].db.StatusIs(r, Cancelled) <==> run.states[k].db.StatusIs(r, Cancelled) || Cancels(run.actions[k], r))
  }

  lemma {:induction false} HistoryCancelled(run: Run, i: nat, k: nat, r: Id)
    requires run.Valid() && i <= k < |run.states| && CancelHistory(run, i, r)
    ensures run.states[k].db.StatusIs(r, Cancelled) <==> run.states[i].db.StatusIs(r, Cancelled) || CancelledWithin(run, i, k, r)
    decreases k
  {
    if i < k {
      HistoryCancelled(run, i, k - 1, r);
      CancelledWithinNext(run, i, k - 1, r);
    }
  }

  /** From any state on, a registration is CANCELLED iff it was or a step in between cancels it. */
  lemma CancelledSince(run: Run, i: nat, k: nat, r: Id)
    requires run.Valid() && i <= k < |run.states| && Inv(run.states[0]) && r in run.states[i].db.registrations
    ensures run.states[k].db.StatusIs(r, Cancelled) <==> run.states[i].db.StatusIs(r, Cancelled) || CancelledWithin(run, i, k, r)
  {
    forall m | i <= m < |run.actions|
      ensures run.states[m + 1].db.StatusIs(r, Cancelled) <==> run.states[m].db.StatusIs(r, Cancelled) || Cancels(run.actions[m], r)
    {
      CancelledNext(run, i, m, r);
    }
    HistoryCancelled(run, i, k, r);
  }

  /** A call that has read its registration as CONFIRMED finds it cancelled iff a cancellation came in between. */
  lemma InsertionFindsCancelled(run: Run, h: nat, i: nat, c: Id, r: Id)
    requires run.Valid() && h < i < |run.actions| && Inv(run.states[0])
    requires run.actions[h] == Other(ScanTicket(c, r))
    ensures run.states[i].db.StatusIs(r, Cancelled) <==> CancelledWithin(run, h + 1, i, r)
    ensures run.states[i].db.StatusIs(r, Cancelled) || run.states[i].db.StatusIs(r, Confirmed)
  {
    assert Enabled(run.states[h], run.actions[h]);
    assert run.states[h + 1].db == run.states[h].db;
    CancelledSince(run, h + 1, i, r);
    RunKeepsInv(run, h);
    TicketedStays(run, h, i, r);
  }

  /** A ticketed registration is CONFIRMED or CANCELLED in every later state. */
  lemma TicketedStays(run: Run, h: nat, i: nat, r: Id)
    requires run.Valid() && h <= i < |run.states| && Inv(run.states[0]) && r in run.states[h].db.tickets
    ensures run.states[i].db.StatusIs(r, Cancelled) || run.states[i].db.StatusIs(r, Confirmed)
  {
    RunLater(run, h, i);
    RunKeepsInv(run, i);
  }

  lemma OpenPrevious(run: Run, k: nat, b: Action, r: Id)
    requires run.Valid() && k + 1 < |run.states| && Inv(run.states[0])
    requires r in run.states[k].db.registrations && r in run.states[k].db.checkIns
    requires OpenCancellation(run.states[k + 1], b, r)
    ensures OpenCancellation(run.states[k], b, r)
  {
    RunKeepsInv(run, k);
    OpenBefore(run.states[k], run.actions[k], b, r);
  }

  /** What is open afterwards was open before. */
  ghost predicate OpensNone(s: Sys, s': Sys, r: Id) {
    forall b :: OpenCancellation(s', b, r) ==> OpenCancellation(s, b, r)
  }

  lemma {:induction false} HistoryOpen(states: seq<Sys>, i: nat, k: nat, b: Action, r: Id)
    requires i <= k < |states| && OpenCancellation(states[k], b, r)
    requires forall m: nat :: i <= m < |states| - 1 ==> OpensNone(states[m], states[m + 1], r)
    ensures OpenCancellation(states[i], b, r)
    decreases k
  {
    if i < k {
      assert OpensNone(states[k - 1], states[k], r);
      HistoryOpen(states, i, k - 1, b, r);
    }
  }

  lemma InsertionOpensNone(run: Run, i: nat, m: nat, r: Id)
    requires run.Valid() && i <= m < |run.actions| && Inv(run.states[0]) && Inserts(run.states[i], run.actions[i], r)
    ensures OpensNone(run.states[m], run.states[m + 1], r)
  {
    forall b | OpenCancellation(run.states[m + 1], b, r) ensures OpenCancellation(run.states[m], b, r) {
      if m == i {
        InsertOpenBefore(run.states[i], run.actions[i], b, r);
      } else {
        CheckInStays(run, i, m, r);
        OpenPrevious(run, m, b, r);
      }
    }
  }

  /** What is open at k was open at the insertion. */
  lemma OpenSinceInsertion(run: Run, i: nat, k: nat, b: Action, r: Id)
    requires run.Valid() && i < k < |run.states| && Inv(run.states[0]) && Inserts(run.states[i], run.actions[i], r)
    requires OpenCancellation(run.states[k], b, r)
    ensures OpenCancellation(run.states[i], b, r)
  {
    forall m: nat | i <= m < |run.states| - 1 ensures OpensNone(run.states[m], run.states[m + 1], r) {
      InsertionOpensNone(run, i, m, r);
    }
    HistoryOpen(run.states, i, k, b, r);
  }

  lemma CheckInStays(run: Run, i: nat, k: nat, r: Id)
    requires run.Valid() && i < k < |run.states| && Inv(run.states[0]) && Inserts(run.states[i], run.actions[i], r)
    ensures r in run.states[k].db.checkIns && r in run.states[k].db.tickets && r in run.states[k].db.registrations
  {
    assert Enabled(run.states[i], run.actions[i]);
    RunLater(run, i + 1, k);
    RunKeepsInv(run, k);
  }

  /** A cancellation past its reads when state i was reached completes before state k. */
  ghost predicate OverlappedBy(run: Run, i: nat, k: nat, r: Id)
    requires run.Valid() && i < k < |run.states|
  {
    exists m :: i < m < k && OpenCancellation(run.states[i], run.actions[m], r)
  }

  lemma OverlapIsCancel(run: Run, i: nat, k: nat, r: Id)
    requires run.Valid() && i < k < |run.states| && Inv(run.states[0]) && Inserts(run.states[i], run.actions[i], r)
    ensures OverlappedBy(run, i, k, r) <==> CancelledWithin(run, i + 1, k, r)
  {
    if CancelledWithin(run, i + 1, k, r) {
      var m :| i + 1 <= m < k && Cancels(run.actions[m], r);
      EnabledCancelIsOpen(run.states[m], run.actions[m], r);
      OpenSinceInsertion(run, i, m, run.actions[m], r);
    }
  }

  /**
   * A checked-in registration ends CANCELLED iff the insertion found it cancelled already, or a cancellation that was
   * past its reads at the insertion completes afterwards. Otherwise it is CONFIRMED.
   */
  lemma CheckedInUnlessOverlapped(run: Run, i: nat, k: nat, r: Id)
    requires run.Valid() && i < k < |run.states| && Inv(run.states[0]) && Inserts(run.states[i], run.actions[i], r)
    ensures run.states[k].db.StatusIs(r, Cancelled) <==> run.states[i].db.StatusIs(r, Cancelled) || OverlappedBy(run, i, k, r)
    ensures !run.states[k].db.StatusIs(r, Cancelled) ==> run.states[k].db.StatusIs(r, Confirmed)
    ensures r in run.states[k].db.checkIns && r in run.states[k].db.tickets
  {
    assert Enabled(run.states[i], run.actions[i]);
    assert run.states[i + 1].db.registrations == run.states[i].db.registrations;
    CheckInStays(run, i, i + 1, r);
    CheckInStays(run, i, k, r);
    CancelledSince(run, i + 1, k, r);
    OverlapIsCancel(run, i, k, r);
    RunKeepsInv(run, k);
  }

  /** No cancellation of r is past its reads. */
  ghost predicate NoneOpen(s: Sys, r: Id) {
    (forall c :: !ReadyToCancel(s, c, r)) && r !in s.calls
  }

  /** Checked in while CONFIRMED and with no cancellation under way, a registration stays CONFIRMED for good. */
  lemma CheckInIsFinal(run: Run, i: nat, k: nat, r: Id)
    requires run.Valid() && i < k < |run.states| && Inv(run.states[0]) && Inserts(run.states[i], run.actions[i], r)
    requires run.states[i].db.StatusIs(r, Confirmed) && NoneOpen(run.states[i], r)
    ensures run.states[k].db.StatusIs(r, Confirmed)
  {
    CheckedInUnlessOverlapped(run, i, k, r);
  }

  // ---- The race ----

  function Scanned(s: Sys, c: Id, d: Id, r: Id): Sys {
    s.(scans := s.scans[c := r], cancels := s.cancels[d := CancelCall(r, true)])
  }

  lemma BothScan(s: Sys, c: Id, d: Id, r: Id)
    requires s.db.StatusIs(r, Confirmed) && r !in s.db.checkIns && c !in s.scans && d !in s.cancels
    ensures Enabled(s, Other(ScanTicket(c, r)))
    ensures var s1 := Next(s, Other(ScanTicket(c, r)));
      && Enabled(s1, Other(ScanStatus(d, r)))
      && var s2 := Next(s1, Other(ScanStatus(d, r)));
         && Enabled(s2, Other(ScanCheckIn(d)))
         && Next(s2, Other(ScanCheckIn(d))) == Scanned(s, c, d, r)
  {
    var cancels := s.cancels[d := CancelCall(r, false)];
    assert cancels[d := CancelCall(r, true)] == s.cancels[d := CancelCall(r, true)];
  }

  /**
   * From every state with a confirmed registration that has no check-in, both calls can pass their reads, and then
   * either order of their writes leaves it checked in and CANCELLED.
   */
  lemma CheckInRacesCancel(s: Sys, c: Id, d: Id, r: Id, staff: Id)
    requires s.db.StatusIs(r, Confirmed) && r !in s.db.checkIns && c !in s.scans && d !in s.cancels && s.RowFree(r)
    ensures var both := Scanned(s, c, d, r);
      && Enabled(both, Other(CheckIn(c, staff))) && Enabled(both, Entry(r, CancelEntry(d)))
      && var checkedIn := Next(both, Other(CheckIn(c, staff)));
         var cancelled := Next(both, Entry(r, CancelEntry(d)));
         && Enabled(checkedIn, Entry(r, CancelEntry(d))) && Enabled(cancelled, Other(CheckIn(c, staff)))
         && Next(checkedIn, Entry(r, CancelEntry(d))).db == Next(cancelled, Other(CheckIn(c, staff))).db
         && r in Next(checkedIn, Entry(r, CancelEntry(d))).db.checkIns
         && Next(checkedIn, Entry(r, CancelEntry(d))).db.StatusIs(r, Cancelled)
  {
    BothScan(s, c, d, r);
  }
}
