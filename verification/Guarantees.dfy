/** What the protocol guarantees over whole runs, in every interleaving. */
module Guarantees {
  import opened Wrappers
  import opened Tables
  import opened Statements
  import opened Protocol
  import opened CreateInvariant
  import opened PaymentInvariant
  import opened ProtocolInvariant
  import opened StepInvariant
  import opened Evolution

  // ---- Capacity ----

  ghost predicate WithinCapacity(db: Db, category: Id) {
    category in db.categories ==> |db.ActiveIn(category)| <= db.categories[category].capacity
  }

  /** The step sets the category's capacity below the places it has given out. */
  ghost predicate Lowers(s: Sys, a: Action, category: Id) {
    a.Other? && a.other.SetCapacity? && a.other.category == category && a.other.capacity < |s.db.ActiveIn(category)|
  }

  lemma CommitFillsRoom(db: Db, tx: CreateTx, category: Id)
    requires tx.id !in db.registrations && HasRoom(db, tx.params.category) && WithinCapacity(db, category)
    ensures WithinCapacity(CommittedDb(db, tx), category)
  {
    var db' := CommittedDb(db, tx);
    if category == tx.params.category {
      assert db'.ActiveIn(category) == db.ActiveIn(category) + {tx.id};
    } else {
      assert db'.ActiveIn(category) == db.ActiveIn(category);
    }
  }

  lemma OthersOversellByLowering(s: Sys, a: Action, category: Id)
    requires Inv(s) && Enabled(s, a) && WithinCapacity(s.db, category) && !IsCommit(a) && !IsSetCapacity(a)
    ensures WithinCapacity(Next(s, a).db, category)
  {
    StepSettles(s, a);
    ActiveShrinks(s.db, Next(s, a).db, category);
    StepAddsNone(s, a);
  }

  lemma SetCapacityOversells(s: Sys, a: Action, category: Id)
    requires Enabled(s, a) && WithinCapacity(s.db, category) && IsSetCapacity(a)
    ensures !WithinCapacity(Next(s, a).db, category) <==> Lowers(s, a, category)
  {
    assert Next(s, a).db.ActiveIn(category) == s.db.ActiveIn(category);
  }

  /** However Create transactions interleave, only an explicit lowering leaves a category oversold. */
  lemma OversoldOnlyByLowering(s: Sys, a: Action, category: Id)
    requires Inv(s) && Enabled(s, a) && WithinCapacity(s.db, category)
    ensures !WithinCapacity(Next(s, a).db, category) <==> Lowers(s, a, category)
  {
    if IsCommit(a) {
      assert Fits(s, a.t, s.creates[a.t]);
      CommitFillsRoom(s.db, s.creates[a.t], category);
    } else if IsSetCapacity(a) {
      SetCapacityOversells(s, a, category);
    } else {
      OthersOversellByLowering(s, a, category);
    }
  }

  lemma {:induction false} NeverOversold(run: Run, k: nat, category: Id)
    requires run.Valid() && k < |run.states| && Inv(run.states[0]) && WithinCapacity(run.states[0].db, category)
    requires forall i :: 0 <= i < k ==> !Lowers(run.states[i], run.actions[i], category)
    ensures WithinCapacity(run.states[k].db, category)
  {
    if k > 0 {
      NeverOversold(run, k - 1, category);
      RunKeepsInv(run, k - 1);
      OversoldOnlyByLowering(run.states[k - 1], run.actions[k - 1], category);
    }
  }

  // ---- Entries ----

  lemma OneEntryPerRunner(run: Run, k: nat, q: Id, r: Id)
    requires run.Valid() && k < |run.states| && Inv(run.states[0])
    requires q in run.states[k].db.registrations && r in run.states[k].db.registrations
    requires run.states[k].db.registrations[q].status.Active() && run.states[k].db.registrations[r].status.Active()
    requires run.states[k].db.registrations[q].SameRunner(run.states[k].db.registrations[r].user, run.states[k].db.registrations[r].event)
    ensures q == r
  {
    RunKeepsInv(run, k);
  }

  /** An entry keeps its runner, event, category and number, and is never reactivated. */
  lemma ActivityOneWay(run: Run, i: nat, j: nat, r: Id)
    requires run.Valid() && i <= j < |run.states| && Inv(run.states[0]) && r in run.states[i].db.registrations
    ensures r in run.states[j].db.registrations
    ensures run.states[j].db.registrations[r].SameEntry(run.states[i].db.registrations[r])
    ensures run.states[j].db.registrations[r].status.Active() ==> run.states[i].db.registrations[r].status.Active()
  {
    RunLater(run, i, j);
    assert LaterEntry(run.states[i].db.registrations[r], run.states[j].db.registrations[r]);
  }

  /** The registrations of a year carry exactly the numbers 1..last_value, once each. */
  lemma NumbersGapless(run: Run, k: nat, year: nat, value: nat)
    requires run.Valid() && k < |run.states| && Inv(run.states[0])
    ensures HasNumber(run.states[k].db, year, value) <==> 1 <= value <= run.states[k].db.LastValue(year)
    ensures NumbersDistinct(run.states[k].db)
  {
    RunKeepsInv(run, k);
  }

  // ---- Payments ----

  /** A payment keeps its charge, and SUCCEEDED is never left. */
  lemma SettledForGood(run: Run, i: nat, j: nat, p: Id)
    requires run.Valid() && i <= j < |run.states| && Inv(run.states[0]) && p in run.states[i].db.payments
    ensures p in run.states[j].db.payments && run.states[j].db.payments[p].SameCharge(run.states[i].db.payments[p])
    ensures run.states[i].db.payments[p].status.Succeeded? ==> run.states[j].db.payments[p].status.Succeeded?
  {
    RunLater(run, i, j);
    assert PaymentEvolves(run.states[i].db.payments[p], run.states[j].db.payments[p]);
  }

  /** The coupling of a registration with its payment, in every reachable state. */
  lemma CouplingHolds(run: Run, k: nat, p: Id, q: Id)
    requires run.Valid() && k < |run.states| && Inv(run.states[0])
    requires p in run.states[k].db.payments && q in run.states[k].db.payments
    ensures run.states[k].db.payments[p].registration in run.states[k].db.registrations
    ensures run.states[k].db.payments[p].registration == run.states[k].db.payments[q].registration ==> p == q
    ensures var r := run.states[k].db.payments[p].registration;
      && (run.states[k].db.StatusIs(r, Confirmed) ==> run.states[k].db.payments[p].status.Succeeded?)
      && (run.states[k].db.payments[p].status.Succeeded? ==> !run.states[k].db.StatusIs(r, Pending))
      && (run.states[k].db.StatusIs(r, Expired) ==> r !in run.states[k].db.tickets)
  {
    RunKeepsInv(run, k);
  }

  lemma PaymentsStay(before: Db, after: Db, r: Id)
    requires Evolves(before, after) && HasPayment(before, r)
    ensures HasPayment(after, r)
  {
    var p :| p in before.payments && before.payments[p].registration == r;
    assert PaymentEvolves(before.payments[p], after.payments[p]);
  }

  lemma UnpaidStepKeepsConfirmed(before: Db, after: Db, r: Id)
    requires Evolves(before, after) && r in before.registrations
    requires after.StatusIs(r, Confirmed) && !HasPayment(after, r)
    ensures before.StatusIs(r, Confirmed) && !HasPayment(before, r)
  {
    assert EntryEvolves(after, r, before.registrations[r], after.registrations[r]);
    if HasPayment(before, r) {
      PaymentsStay(before, after, r);
    }
  }

  lemma {:induction false} UnpaidStaysConfirmed(states: seq<Sys>, i: nat, j: nat, r: Id)
    requires History(states) && i <= j < |states| && r in states[i].db.registrations
    requires states[j].db.StatusIs(r, Confirmed) && !HasPayment(states[j].db, r)
    ensures states[i].db.StatusIs(r, Confirmed)
    decreases j
  {
    if i < j {
      HistoryLater(states, i, j - 1);
      UnpaidStepKeepsConfirmed(states[j - 1].db, states[j].db, r);
      UnpaidStaysConfirmed(states, i, j - 1, r);
    }
  }

  /** A confirmed entry without a payment was confirmed whenever its row existed: it was free. */
  lemma ConfirmedUnpaidIsFree(run: Run, i: nat, j: nat, r: Id)
    requires run.Valid() && i <= j < |run.states| && Inv(run.states[0])
    requires r in run.states[i].db.registrations
    requires run.states[j].db.StatusIs(r, Confirmed) && !HasPayment(run.states[j].db, r)
    ensures run.states[i].db.StatusIs(r, Confirmed)
  {
    RunHistory(run);
    UnpaidStaysConfirmed(run.states, i, j, r);
  }

  // ---- Tickets and notices ----

  lemma TicketsStay(run: Run, i: nat, j: nat, r: Id)
    requires run.Valid() && i <= j < |run.states| && Inv(run.states[0])
    ensures r in run.states[i].db.tickets ==> r in run.states[j].db.tickets
    ensures r in run.states[i].db.checkIns ==>
      r in run.states[j].db.checkIns && run.states[j].db.checkIns[r] == run.states[i].db.checkIns[r]
  {
    RunLater(run, i, j);
  }

  ghost predicate OnceConfirmed(states: seq<Sys>, k: nat, r: Id)
    requires k < |states|
  {
    exists i :: 0 <= i <= k && states[i].db.StatusIs(r, Confirmed)
  }

  lemma {:induction false} TicketNeedsConfirmation(states: seq<Sys>, k: nat, r: Id)
    requires History(states) && k < |states| && r !in states[0].db.tickets && r in states[k].db.tickets
    ensures OnceConfirmed(states, k, r)
  {
    if k > 0 {
      if r in states[k - 1].db.tickets {
        TicketNeedsConfirmation(states, k - 1, r);
        var i :| 0 <= i <= k - 1 && states[i].db.StatusIs(r, Confirmed);
      } else {
        assert TicketEvolves(states[k - 1].db, states[k].db, r);
      }
    }
  }

  /** A ticket exists exactly for the registrations that were once CONFIRMED. */
  lemma TicketIffOnceConfirmed(run: Run, k: nat, r: Id)
    requires run.Valid() && k < |run.states| && Initial(run.states[0])
    ensures r in run.states[k].db.tickets <==> OnceConfirmed(run.states, k, r)
  {
    InitialInv(run.states[0]);
    RunHistory(run);
    if r in run.states[k].db.tickets {
      TicketNeedsConfirmation(run.states, k, r);
    }
    if OnceConfirmed(run.states, k, r) {
      var i :| 0 <= i <= k && run.states[i].db.StatusIs(r, Confirmed);
      RunKeepsInv(run, i);
      TicketsStay(run, i, k, r);
    }
  }

  predicate PaidConfirms(s: Sys, r: Id, step: PaidStep) {
    step.PayAtOnce? && ConfirmWithPaymentError(s.db, r, step.payment).None?
  }

  /** newlyConfirmed, as the repository reports it. */
  predicate EntryConfirms(s: Sys, r: Id, step: EntryStep) {
    || (step.ApproveManual? && ApproveManualError(s.db, r, step.p).None?)
    || (step.SettleStored? && s.db.StatusIs(r, Pending))
  }

  /** The registration whose confirmation notice the caller sends after the step, if any. */
  function Notice(s: Sys, a: Action): Option<Id>
    requires Enabled(s, a)
  {
    match a
    case Create(t, step) => if step.Commit? && s.creates[t].params.confirm then Some(s.creates[t].id) else None
    case Paid(r, step) => if PaidConfirms(s, r, step) then Some(r) else None
    case Entry(r, step) => if EntryConfirms(s, r, step) then Some(r) else None
    case _ => None
  }

  lemma PaidWritesTickets(db: Db, q: Id, step: PaidStep, r: Id)
    ensures q == r && step.PayAtOnce? && ConfirmWithPaymentError(db, q, step.payment).None? <==>
      r !in db.tickets && r in PaidWrites(db, q, step).tickets
  {
    match step {
      case RecordPayment(_, payment) => if CreatePaymentError(db, payment).None? {}
      case PayAtOnce(_, payment, _) => if ConfirmWithPaymentError(db, q, payment).None? {}
      case Release => if q in db.registrations {}
      case _ =>
    }
  }

  lemma NoticePaid(s: Sys, q: Id, step: PaidStep, r: Id)
    requires PaidEnabled(s, q, step)
    ensures q == r && PaidConfirms(s, q, step) <==> r !in s.db.tickets && r in AfterPaid(s, q, step).db.tickets
  {
    PaidDb(s, q, step);
    PaidWritesTickets(s.db, q, step, r);
  }

  lemma UnconfirmingKeepsTickets(s: Sys, q: Id, step: EntryStep)
    requires !step.ApproveManual? && !step.SettleStored?
    ensures AfterEntry(s, q, step).tickets == s.db.tickets
  {
  }

  lemma ConfirmingTickets(db: Db, q: Id, p: Id, token: Id, r: Id)
    requires TicketsAgree(db)
    ensures q == r && ApproveManualError(db, q, p).None? <==> r !in db.tickets && r in ApproveManualPayment(db, q, p, token).tickets
    ensures q == r && db.StatusIs(q, Pending) <==> r !in db.tickets && r in ConfirmStoredPayment(db, q, p, token).tickets
  {
  }

  lemma NoticeEntry(s: Sys, q: Id, step: EntryStep, r: Id)
    requires TicketsAgree(s.db)
    ensures q == r && EntryConfirms(s, q, step) <==> r !in s.db.tickets && r in AfterEntry(s, q, step).tickets
  {
    if step.ApproveManual? || step.SettleStored? {
      ConfirmingTickets(s.db, q, step.p, step.token, r);
    } else {
      UnconfirmingKeepsTickets(s, q, step);
    }
  }

  lemma NoticeWork(s: Sys, step: WorkStep)
    requires WorkEnabled(s, step)
    ensures AfterWork(s, step).db.tickets == s.db.tickets
  {
  }

  lemma NoticeOther(s: Sys, step: OtherStep)
    requires OtherEnabled(s, step)
    ensures AfterOther(s, step).db.tickets == s.db.tickets
  {
  }

  lemma NoticeCreate(s: Sys, t: Id, step: CreateStep, r: Id)
    requires Inv(s) && CreateEnabled(s, t, step)
    ensures step.Commit? && s.creates[t].params.confirm && s.creates[t].id == r <==>
      r !in s.db.tickets && r in AfterCreate(s, t, step).db.tickets
  {
    if step.Commit? {
      assert Fits(s, t, s.creates[t]);
    } else {
      CreateStepAddsNone(s, t, step);
    }
  }

  /** A notice is due exactly when the step issues the ticket. */
  lemma NoticeWithTicket(s: Sys, a: Action, r: Id)
    requires Inv(s) && Enabled(s, a)
    ensures Notice(s, a) == Some(r) <==> r !in s.db.tickets && r in Next(s, a).db.tickets
  {
    match a {
      case Create(t, step) => NoticeCreate(s, t, step, r);
      case Paid(q, step) => NoticePaid(s, q, step, r);
      case Entry(q, step) => NoticeEntry(s, q, step, r);
      case Work(step) => NoticeWork(s, step);
      case Other(step) => NoticeOther(s, step);
    }
  }
}
