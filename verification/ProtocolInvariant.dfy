/**
 * The whole invariant, and its preservation by every step: the tables agree, the open Create
 * transactions fit, and each in-flight call and sweep still sees what it relies on.
 */
module ProtocolInvariant {
  import opened Wrappers
  import opened Tables
  import opened Statements
  import opened Protocol
  import opened CreateInvariant
  import opened PaymentInvariant

  /** Only a call that has not yet written its payment may write one. */
  ghost predicate CallsOwn(s: Sys) {
    forall r :: r in s.calls ==>
      r in s.db.registrations && (s.calls[r].AwaitingProvider? ==> !HasPayment(s.db, r) && r !in s.db.tickets)
  }

  ghost predicate ScansTrue(s: Sys) {
    forall c :: c in s.scans ==> s.scans[c] in s.db.tickets
  }

  /** A row an open sweep has updated stays PENDING, with a payment the sweep's second statement fails. */
  ghost predicate SweptRow(s: Sys, now: Instant, r: Id) {
    && s.db.StatusIs(r, Pending)
    && (r in s.calls ==> !s.calls[r].AwaitingProvider?)
    && forall p :: p in s.db.payments && s.db.payments[p].registration == r ==>
         && (s.db.payments[p].status.Awaiting? || s.db.payments[p].status.Failed?)
         && s.db.payments[p].expiresAt.Some? && s.db.payments[p].expiresAt.value <= now
  }

  ghost predicate SweepsOwn(s: Sys) {
    && (forall e :: e in s.sweeps ==> s.sweeps[e].now <= s.clock)
    && (forall e, r :: e in s.sweeps && r in s.sweeps[e].rows ==> SweptRow(s, s.sweeps[e].now, r))
    && forall e, f, r :: e in s.sweeps && f in s.sweeps && e != f && r in s.sweeps[e].rows ==> r !in s.sweeps[f].rows
  }

  ghost predicate Inv(s: Sys) {
    CreateInv(s) && TablesAgree(s.db) && CallsOwn(s) && ScansTrue(s) && SweepsOwn(s)
  }

  lemma InitialInv(s: Sys)
    requires Initial(s)
    ensures Inv(s)
  {
  }

  // ---- Lawful changes of the committed tables ----

  /** A row held by an open sweep stays, and its payment at most fails. */
  ghost predicate LawfulRow(s: Sys, r: Id, old_: Registration, new_: Registration) {
    new_.SameEntry(old_) && (new_.status.Active() ==> old_.status.Active()) && (s.RowFree(r) || new_ == old_)
  }

  ghost predicate LawfulPayment(s: Sys, old_: Payment, new_: Payment) {
    && new_.SameCharge(old_) && new_.reference == old_.reference
    && (s.RowFree(old_.registration) || new_.status == old_.status || new_.status.Failed?)
  }

  /** What a repository transaction on existing rows may do: statuses, leases, and tickets for paid entries. */
  ghost predicate Lawful(s: Sys, a: Db, b: Db) {
    && b.categories == a.categories && b.counters == a.counters && b.outcomes == a.outcomes && b.checkIns == a.checkIns
    && (forall r :: r in b.registrations <==> r in a.registrations)
    && (forall r :: r in a.registrations ==> LawfulRow(s, r, a.registrations[r], b.registrations[r]))
    && (forall p :: p in b.payments <==> p in a.payments)
    && (forall p :: p in a.payments ==> LawfulPayment(s, a.payments[p], b.payments[p]))
    && (forall r :: r in a.tickets ==> r in b.tickets)
    && (forall r :: r in b.tickets && r !in a.tickets ==> HasPayment(a, r))
  }

  lemma LawfulPays(s: Sys, a: Db, b: Db, r: Id)
    requires Lawful(s, a, b)
    ensures HasPayment(a, r) <==> HasPayment(b, r)
  {
    if HasPayment(a, r) {
      var p :| p in a.payments && a.payments[p].registration == r;
      assert LawfulPayment(s, a.payments[p], b.payments[p]) && p in b.payments;
    }
    if HasPayment(b, r) {
      var p :| p in b.payments && b.payments[p].registration == r;
      assert LawfulPayment(s, a.payments[p], b.payments[p]);
    }
  }

  lemma LawfulComposes(s: Sys, a: Db, b: Db, c: Db)
    requires Lawful(s, a, b) && Lawful(s, b, c)
    ensures Lawful(s, a, c)
  {
    forall r | r in a.registrations ensures LawfulRow(s, r, a.registrations[r], c.registrations[r]) {
      assert LawfulRow(s, r, a.registrations[r], b.registrations[r]) && LawfulRow(s, r, b.registrations[r], c.registrations[r]);
    }
    forall p | p in a.payments ensures LawfulPayment(s, a.payments[p], c.payments[p]) {
      assert LawfulPayment(s, a.payments[p], b.payments[p]) && LawfulPayment(s, b.payments[p], c.payments[p]);
    }
    forall r | r in c.tickets && r !in a.tickets ensures HasPayment(a, r) {
      LawfulPays(s, a, b, r);
    }
  }

  lemma StatusLawful(s: Sys, db: Db, r: Id, status: Status)
    requires r in db.registrations && s.RowFree(r) && (status.Active() ==> db.registrations[r].status.Active())
    ensures Lawful(s, db, WithStatus(db, r, status))
  {
  }

  lemma PaymentLawful(s: Sys, db: Db, p: Id, payment: Payment)
    requires p in db.payments && LawfulPayment(s, db.payments[p], payment)
    ensures Lawful(s, db, WithPayment(db, p, payment))
  {
  }

  lemma ConfirmLawful(s: Sys, db: Db, r: Id, token: Id)
    requires db.StatusIs(r, Pending) && s.RowFree(r) && HasPayment(db, r)
    ensures Lawful(s, db, Confirm(db, r, token))
  {
    StatusLawful(s, db, r, Confirmed);
  }

  lemma CancelLawful(s: Sys, r: Id)
    requires s.RowFree(r)
    ensures Lawful(s, s.db, Cancel(s.db, r))
  {
    if r in s.db.registrations {
      StatusLawful(s, s.db, r, Cancelled);
    }
  }

  lemma FailReviewedLawful(s: Sys, db: Db, r: Id)
    ensures Lawful(s, db, FailReviewed(db, r))
  {
  }

  lemma FailManualLawful(s: Sys, r: Id)
    requires s.RowFree(r)
    ensures Lawful(s, s.db, FailManualPayment(s.db, r))
  {
    if FailManualError(s.db, r).None? {
      FailReviewedLawful(s, s.db, r);
      StatusLawful(s, FailReviewed(s.db, r), r, Expired);
      LawfulComposes(s, s.db, FailReviewed(s.db, r), FailManualPayment(s.db, r));
    }
  }

  /** Settling a payment and confirming its registration, as the review and the reconciler do. */
  lemma SettleLawful(s: Sys, r: Id, p: Id, token: Id)
    requires s.RowFree(r) && p in s.db.payments && s.db.payments[p].registration == r
    ensures Lawful(s, s.db, WithPaymentStatus(s.db, p, Succeeded))
    ensures s.db.StatusIs(r, Pending) ==> Lawful(s, s.db, Confirm(WithPaymentStatus(s.db, p, Succeeded), r, token))
  {
    var settled := WithPaymentStatus(s.db, p, Succeeded);
    PaymentLawful(s, s.db, p, s.db.payments[p].(status := Succeeded));
    if s.db.StatusIs(r, Pending) {
      assert settled.payments[p].registration == r;
      ConfirmLawful(s, settled, r, token);
      LawfulComposes(s, s.db, settled, Confirm(settled, r, token));
    }
  }

  lemma FailClaimedLawful(s: Sys, p: Id)
    requires p in s.db.payments
    ensures Lawful(s, s.db, FailClaimed(s.db, p))
  {
    PaymentLawful(s, s.db, p, s.db.payments[p].(status := Failed, leaseUntil := None, worker := None));
  }

  lemma ExpireClaimedLawful(s: Sys, r: Id, p: Id, worker: Id)
    requires s.RowFree(r)
    ensures Lawful(s, s.db, ExpireClaimedPayment(s.db, r, p, worker))
  {
    if Claimed(s.db, r, p, worker) {
      FailClaimedLawful(s, p);
      if s.db.registrations[r].status.Pending? {
        StatusLawful(s, FailClaimed(s.db, p), r, Expired);
        LawfulComposes(s, s.db, FailClaimed(s.db, p), ExpireClaimedPayment(s.db, r, p, worker));
      }
    }
  }

  lemma ClaimLawful(s: Sys, worker: Id, now: Instant, chosen: set<Id>)
    ensures Lawful(s, s.db, ClaimPendingPayments(s.db, worker, now, chosen))
  {
  }

  lemma ScheduleLawful(s: Sys, p: Id, worker: Id, next: Instant)
    ensures Lawful(s, s.db, SchedulePaymentReconciliation(s.db, p, worker, next))
  {
  }

  // ---- Lawful steps keep the invariant ----

  lemma LawfulKeepsTables(s: Sys, db': Db)
    requires TablesAgree(s.db) && Lawful(s, s.db, db') && SettlementAgrees(db') && TicketsAgree(db')
    ensures TablesAgree(db')
  {
    forall p | p in db'.payments ensures LawfulPayment(s, s.db.payments[p], db'.payments[p]) {}
    assert OnePaymentEach(db');
    assert ReferencesUnique(db');
    assert OutcomesTrue(db') by {
      forall r | r in db'.registrations ensures LawfulRow(s, r, s.db.registrations[r], db'.registrations[r]) {}
    }
  }

  lemma LawfulKeepsRow(s: Sys, db': Db, now: Instant, r: Id)
    requires Lawful(s, s.db, db') && SweptRow(s, now, r) && !s.RowFree(r)
    ensures SweptRow(s.(db := db'), now, r)
  {
    assert LawfulRow(s, r, s.db.registrations[r], db'.registrations[r]);
    forall p | p in db'.payments && db'.payments[p].registration == r
      ensures db'.payments[p].status.Awaiting? || db'.payments[p].status.Failed?
      ensures db'.payments[p].expiresAt.Some? && db'.payments[p].expiresAt.value <= now
    {
      assert LawfulPayment(s, s.db.payments[p], db'.payments[p]);
    }
  }

  lemma LawfulKeepsSweeps(s: Sys, db': Db)
    requires SweepsOwn(s) && Lawful(s, s.db, db')
    ensures SweepsOwn(s.(db := db'))
  {
    forall e, r | e in s.sweeps && r in s.sweeps[e].rows ensures SweptRow(s.(db := db'), s.sweeps[e].now, r) {
      assert SweptRow(s, s.sweeps[e].now, r) && !s.RowFree(r);
      LawfulKeepsRow(s, db', s.sweeps[e].now, r);
    }
  }

  lemma LawfulKeepsCalls(s: Sys, db': Db)
    requires CallsOwn(s) && ScansTrue(s) && Lawful(s, s.db, db')
    ensures CallsOwn(s.(db := db')) && ScansTrue(s.(db := db'))
  {
    forall r | r in s.calls
      ensures r in db'.registrations && (s.calls[r].AwaitingProvider? ==> !HasPayment(db', r) && r !in db'.tickets)
    {
      LawfulPays(s, s.db, db', r);
    }
  }

  lemma LawfulQuiet(s: Sys, db': Db)
    requires Lawful(s, s.db, db')
    ensures Quiet(s, s.(db := db'))
  {
    forall r | r in s.db.registrations ensures LawfulRow(s, r, s.db.registrations[r], db'.registrations[r]) {}
  }

  lemma LawfulKeepsInv(s: Sys, db': Db)
    requires Inv(s) && Lawful(s, s.db, db') && SettlementAgrees(db') && TicketsAgree(db')
    ensures Inv(s.(db := db'))
  {
    LawfulQuiet(s, db');
    QuietKeepsInv(s, s.(db := db'));
    LawfulKeepsTables(s, db');
    LawfulKeepsSweeps(s, db');
    LawfulKeepsCalls(s, db');
  }

  lemma DropCallKeepsInv(s: Sys, r: Id)
    requires Inv(s)
    ensures Inv(DropCall(s, r))
  {
    QuietKeepsInv(s, DropCall(s, r));
    forall e, q | e in s.sweeps && q in s.sweeps[e].rows ensures SweptRow(DropCall(s, r), s.sweeps[e].now, q) {
      assert SweptRow(s, s.sweeps[e].now, q);
    }
  }
}
