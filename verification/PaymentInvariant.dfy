/**
 * The agreement between registrations, payments, tickets, check-ins and stored responses: what every
 * repository transaction keeps on the committed tables, and what the in-flight calls may rely on.
 */
module PaymentInvariant {
  import opened Wrappers
  import opened Tables
  import opened Statements
  import opened Protocol

  // ---- The committed tables ----

  /** No column of payments is unique per registration: this holds because only one call writes the row. */
  ghost predicate OnePaymentEach(db: Db) {
    && (forall p :: p in db.payments ==> db.payments[p].registration in db.registrations)
    && forall p, q :: p in db.payments && q in db.payments && p != q ==>
         db.payments[p].registration != db.payments[q].registration
  }

  /** A settled payment leaves no place pending, and a ticketed registration's payment is settled. */
  ghost predicate SettlementAgrees(db: Db) {
    forall p :: p in db.payments && db.payments[p].registration in db.registrations ==>
      && (db.payments[p].status.Succeeded? ==> !db.registrations[db.payments[p].registration].status.Pending?)
      && (db.payments[p].registration in db.tickets ==> db.payments[p].status.Succeeded?)
  }

  ghost predicate TicketsAgree(db: Db) {
    && (forall r :: r in db.registrations ==>
          && (db.registrations[r].status.Confirmed? ==> r in db.tickets)
          && (db.registrations[r].status.Pending? || db.registrations[r].status.Expired? ==> r !in db.tickets))
    && (forall r :: r in db.tickets ==> r in db.registrations)
    && (forall r :: r in db.checkIns ==> r in db.tickets)
  }

  /** The partial unique index on (provider, provider_reference). */
  ghost predicate ReferencesUnique(db: Db) {
    forall p, q :: p in db.payments && q in db.payments && p != q && db.payments[p].reference.Some? ==>
      !(db.payments[p].provider == db.payments[q].provider && db.payments[p].reference == db.payments[q].reference)
  }

  ghost predicate OutcomesTrue(db: Db) {
    forall k :: k in db.outcomes ==>
      var r := db.outcomes[k].registration;
      && r in db.registrations && db.registrations[r].user == k.user
      && (db.outcomes[k].free ==> r in db.tickets)
  }

  ghost predicate TablesAgree(db: Db) {
    OnePaymentEach(db) && SettlementAgrees(db) && TicketsAgree(db) && ReferencesUnique(db) && OutcomesTrue(db)
  }

  ghost predicate HasPayment(db: Db, r: Id) {
    exists p :: p in db.payments && db.payments[p].registration == r
  }

  // ---- Statements on rows that exist ----

  /** What such a statement must keep for the tables to go on agreeing. */
  ghost predicate StatusesAgree(db: Db) {
    OnePaymentEach(db) && SettlementAgrees(db) && TicketsAgree(db)
  }

  lemma CancelAgrees(db: Db, r: Id)
    requires StatusesAgree(db)
    ensures SettlementAgrees(Cancel(db, r)) && TicketsAgree(Cancel(db, r))
  {
    if r in db.registrations {}
  }

  lemma FailManualAgrees(db: Db, r: Id)
    requires StatusesAgree(db)
    ensures SettlementAgrees(FailManualPayment(db, r)) && TicketsAgree(FailManualPayment(db, r))
  {
    if FailManualError(db, r).None? {}
  }

  lemma ApproveAgrees(db: Db, r: Id, p: Id, token: Id)
    requires StatusesAgree(db)
    ensures SettlementAgrees(ApproveManualPayment(db, r, p, token)) && TicketsAgree(ApproveManualPayment(db, r, p, token))
  {
    if ApproveManualError(db, r, p).None? {}
  }

  lemma ConfirmStoredSettles(db: Db, r: Id, p: Id, token: Id)
    requires StatusesAgree(db) && p in db.payments && db.payments[p].registration == r
    ensures SettlementAgrees(ConfirmStoredPayment(db, r, p, token))
  {
    if db.StatusIs(r, Pending) {}
  }

  lemma ConfirmStoredAgrees(db: Db, r: Id, p: Id, token: Id)
    requires StatusesAgree(db) && p in db.payments && db.payments[p].registration == r
    ensures SettlementAgrees(ConfirmStoredPayment(db, r, p, token)) && TicketsAgree(ConfirmStoredPayment(db, r, p, token))
  {
    ConfirmStoredSettles(db, r, p, token);
  }

  lemma ClaimAgrees(db: Db, worker: Id, now: Instant, chosen: set<Id>)
    requires StatusesAgree(db)
    ensures SettlementAgrees(ClaimPendingPayments(db, worker, now, chosen)) && TicketsAgree(ClaimPendingPayments(db, worker, now, chosen))
  {
  }

  lemma ScheduleAgrees(db: Db, p: Id, worker: Id, next: Instant)
    requires StatusesAgree(db)
    ensures SettlementAgrees(SchedulePaymentReconciliation(db, p, worker, next)) && TicketsAgree(SchedulePaymentReconciliation(db, p, worker, next))
  {
  }

  lemma FailClaimedAgrees(db: Db, p: Id)
    requires StatusesAgree(db) && p in db.payments && db.payments[p].status.Awaiting?
    ensures StatusesAgree(FailClaimed(db, p))
  {
  }

  lemma ExpireAgrees(db: Db, r: Id)
    requires StatusesAgree(db) && db.StatusIs(r, Pending)
    ensures StatusesAgree(WithStatus(db, r, Expired))
  {
  }

  lemma ExpireClaimedAgrees(db: Db, r: Id, p: Id, worker: Id)
    requires StatusesAgree(db)
    ensures StatusesAgree(ExpireClaimedPayment(db, r, p, worker))
  {
    if Claimed(db, r, p, worker) {
      FailClaimedAgrees(db, p);
      if db.registrations[r].status.Pending? {
        ExpireAgrees(FailClaimed(db, p), r);
      }
    }
  }

  lemma SweepAgrees(db: Db, now: Instant, rows: set<Id>)
    requires StatusesAgree(db)
    requires forall r :: r in rows ==> db.StatusIs(r, Pending)
    ensures SettlementAgrees(SweepCommit(db, now, rows)) && TicketsAgree(SweepCommit(db, now, rows))
  {
  }

  // ---- Statements that add a row or write a reference ----

  lemma CreatePaymentKeeps(db: Db, p: Id, payment: Payment)
    requires TablesAgree(db) && p !in db.payments && !payment.status.Succeeded?
    requires payment.registration in db.registrations && payment.registration !in db.tickets && !HasPayment(db, payment.registration)
    ensures TablesAgree(CreatePayment(db, p, payment))
  {
    if CreatePaymentError(db, payment).None? {}
  }

  lemma ConfirmWithPaymentKeeps(db: Db, r: Id, p: Id, payment: Payment, token: Id)
    requires TablesAgree(db) && p !in db.payments && !HasPayment(db, r)
    requires payment.registration == r && payment.status.Succeeded?
    ensures TablesAgree(ConfirmWithPayment(db, r, p, payment, token))
  {
    if ConfirmWithPaymentError(db, r, payment).None? {}
  }

  lemma SubmitKeepsReferences(db: Db, r: Id, reference: Id, now: Instant)
    requires OnePaymentEach(db) && ReferencesUnique(db) && SubmitManualError(db, r, reference, now).None?
    ensures ReferencesUnique(SubmitManualPayment(db, r, reference, now))
  {
    var rows := SubmittedRows(db, r, now);
    var db' := SubmitManualPayment(db, r, reference, now);
    forall p, q | p in db'.payments && q in db'.payments && p != q && db'.payments[p].reference.Some?
      ensures !(db'.payments[p].provider == db'.payments[q].provider && db'.payments[p].reference == db'.payments[q].reference)
    {
      assert !(p in rows && q in rows);
    }
  }

  lemma SubmitKeepsRows(db: Db, r: Id, reference: Id, now: Instant)
    requires OnePaymentEach(db) && SettlementAgrees(db)
    ensures OnePaymentEach(SubmitManualPayment(db, r, reference, now)) && SettlementAgrees(SubmitManualPayment(db, r, reference, now))
  {
    if SubmitManualError(db, r, reference, now).None? {}
  }

  lemma SubmitKeeps(db: Db, r: Id, reference: Id, now: Instant)
    requires TablesAgree(db)
    ensures TablesAgree(SubmitManualPayment(db, r, reference, now))
  {
    if SubmitManualError(db, r, reference, now).None? {
      SubmitKeepsReferences(db, r, reference, now);
    }
    SubmitKeepsRows(db, r, reference, now);
  }

  lemma CommitKeepsTables(db: Db, tx: CreateTx)
    requires TablesAgree(db) && tx.id !in db.registrations
    requires tx.outcome.Some? ==> tx.outcome.value.1.registration == tx.id && tx.outcome.value.0.user == tx.params.user && tx.params.confirm
    ensures TablesAgree(CommittedDb(db, tx))
  {
  }
}
