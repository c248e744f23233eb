/**
 * The repository's methods over mutable tables. Each method is one transaction: it either commits the
 * whole effect its specification in Statements describes, or reports an error and leaves every table as it was.
 */
module RegistrationRepository {
  import opened Wrappers
  import opened Tables
  import S = Statements
  import opened Protocol
  import T = Transactions

  type RepoError = S.RepoError

  function EffectiveLimit(limit: int): nat {
    if limit <= 0 || limit > S.MAX_CLAIMS then S.CLAIM_LIMIT else limit
  }

  lemma {:induction false} EarliestExists(payments: map<Id, Payment>, due: set<Id>)
    requires due != {} && forall p :: p in due ==> p in payments
    ensures exists p :: p in due && forall q :: q in due ==> payments[p].reconcileAfter <= payments[q].reconcileAfter
    decreases |due|
  {
    var p :| p in due;
    var rest := due - {p};
    if rest != {} {
      EarliestExists(payments, rest);
      var q :| q in rest && forall u :: u in rest ==> payments[q].reconcileAfter <= payments[u].reconcileAfter;
      var e := if payments[p].reconcileAfter <= payments[q].reconcileAfter then p else q;
      forall u | u in due ensures payments[e].reconcileAfter <= payments[u].reconcileAfter {
        assert u == p || u in rest;
      }
    } else {
      forall u | u in due ensures u == p {
        assert u !in rest;
      }
    }
  }

  /** The claimed payments are among the due ones, once each, the earliest first and as many as the limit allows. */
  ghost predicate FirstDue(db: Db, now: Instant, limit: nat, claimed: seq<Id>) {
    && (forall i, j :: 0 <= i < j < |claimed| ==> claimed[i] != claimed[j])
    && (forall p :: p in claimed ==> p in db.payments && db.payments[p].Due(now))
    && |claimed| <= limit
    && (forall p, q :: p in claimed && q !in claimed && q in db.payments && db.payments[q].Due(now) ==>
          |claimed| == limit && db.payments[p].reconcileAfter <= db.payments[q].reconcileAfter)
  }

  lemma FirstDueClaimable(db: Db, now: Instant, limit: int, claimed: seq<Id>)
    requires FirstDue(db, now, EffectiveLimit(limit), claimed)
    ensures S.Claimable(db, now, Elements(claimed))
  {
    DistinctSize(claimed);
  }

  function Elements(s: seq<Id>): set<Id> {
    set x | x in s
  }

  lemma {:induction false} DistinctSize(s: seq<Id>)
    requires forall i, j :: 0 <= i < j < |s| ==> s[i] != s[j]
    ensures |Elements(s)| == |s|
  {
    if s == [] {
      assert Elements(s) == {};
    } else {
      var (init, last) := (s[..|s| - 1], s[|s| - 1]);
      DistinctSize(init);
      assert s == init + [last];
      assert Elements(s) == Elements(init) + {last};
      assert last !in Elements(init);
    }
  }

  /** The candidates of a claim: the due payments in the order of reconcile_after, up to the limit. */
  method EarliestDue(payments: map<Id, Payment>, now: Instant, limit: nat) returns (claimed: seq<Id>)
    ensures FirstDue(Db(map[], map[], payments, map[], map[], map[], map[]), now, limit, claimed)
  {
    var candidates := set p | p in payments && payments[p].Due(now);
    claimed := [];
    while candidates != {} && |claimed| < limit
      invariant forall i, j :: 0 <= i < j < |claimed| ==> claimed[i] != claimed[j]
      invariant forall p :: p in payments && payments[p].Due(now) <==> p in candidates || p in claimed
      invariant forall p :: p in candidates ==> p !in claimed
      invariant |claimed| <= limit
      invariant forall p, q :: p in claimed && q in candidates ==> payments[p].reconcileAfter <= payments[q].reconcileAfter
      decreases |candidates|
    {
      EarliestExists(payments, candidates);
      var p :| p in candidates && forall q :: q in candidates ==> payments[p].reconcileAfter <= payments[q].reconcileAfter;
      candidates := candidates - {p};
      claimed := claimed + [p];
    }
  }

  /** One category for each released registration. */
  ghost predicate CategoriesFreed(registrations: map<Id, Registration>, rows: set<Id>, freed: seq<Id>) {
    && |freed| == |rows|
    && forall c :: c in freed <==> exists r :: r in rows && r in registrations && registrations[r].category == c
  }

  /** The rows an expiry returns. */
  method CategoriesOf(registrations: map<Id, Registration>, rows: set<Id>) returns (freed: seq<Id>)
    requires forall r :: r in rows ==> r in registrations
    ensures CategoriesFreed(registrations, rows, freed)
  {
    freed := [];
    var left := rows;
    while left != {}
      invariant left <= rows && |freed| + |left| == |rows|
      invariant forall c :: c in freed <==> exists r :: r in rows && r !in left && registrations[r].category == c
      decreases |left|
    {
      var r :| r in left;
      freed := freed + [registrations[r].category];
      left := left - {r};
    }
  }

  class Repository {
    var categories: map<Id, Category>
    var registrations: map<Id, Registration>
    var payments: map<Id, Payment>
    var tickets: map<Id, Id>
    var checkIns: map<Id, Id>
    var counters: map<nat, nat>
    var outcomes: map<Key, Outcome>

    function Tables(): Db
      reads this
    {
      Db(categories, registrations, payments, tickets, checkIns, counters, outcomes)
    }

    constructor (categories: map<Id, Category>)
      ensures Tables() == Db(categories, map[], map[], map[], map[], map[], map[])
    {
      this.categories, registrations, payments, tickets := categories, map[], map[], map[];
      checkIns, counters, outcomes := map[], map[], map[];
    }

    /** id is the fresh UUID of the row, year the current one. */
    method Create(params: CreateParams, year: nat, id: Id, now: Instant) returns (result: Result<Registration, RepoError>)
      requires params.WellFormed() && id !in registrations
      modifies this
      ensures match result
        case Err(error) => T.CreateError(old(Tables()), params) == Some(error) && Tables() == old(Tables())
        case Ok(row) =>
          && T.CreateError(old(Tables()), params).None? && Tables() == T.Created(old(Tables()), params, year, id, now)
          && row == registrations[id]
    {
      if params.category !in categories {
        return Err(S.NotFound);
      }
      var lockedCapacity := categories[params.category].capacity;
      var activeCount := |Tables().ActiveIn(params.category)|;
      if activeCount >= lockedCapacity {
        return Err(S.CapacityFull);
      }
      var counter := counters;
      var number := NextRegistrationNumber(year);
      if Tables().Taken(params.user, params.event) {
        counters := counter;
        return Err(S.DuplicateRegistration);
      }
      var status := if params.confirm then Confirmed else Pending;
      registrations := registrations[id := Registration(number, params.user, params.event, params.category, status)];
      if params.confirm {
        tickets := tickets[id := params.token];
      }
      if params.hook.Some? {
        var (key, hash) := params.hook.value;
        StoreOutcome(key, Outcome(hash, id, true, now + OUTCOME_TTL));
      }
      return Ok(registrations[id]);
    }

    method NextRegistrationNumber(year: nat) returns (number: Number)
      modifies this`counters
      ensures number == Number(year, old(Tables()).LastValue(year) + 1)
      ensures counters == old(counters)[year := number.value]
    {
      if year in counters {
        counters := counters[year := counters[year] + 1];
      } else {
        counters := counters[year := 1];
      }
      number := Number(year, counters[year]);
    }

    method Cancel(r: Id) returns (error: Option<RepoError>)
      modifies this`registrations
      ensures error == S.CancelError(old(Tables()), r) && Tables() == S.Cancel(old(Tables()), r)
    {
      if r !in registrations {
        return Some(S.NotFound);
      }
      registrations := registrations[r := registrations[r].(status := Cancelled)];
      error := None;
    }

    /** Inserts the payment of a registration; the caller is the call that has just created the registration. */
    method CreatePayment(p: Id, payment: Payment) returns (error: Option<RepoError>)
      requires p !in payments && payment.registration in registrations
      requires !payment.status.Succeeded? && payment.worker.None? && payment.leaseUntil.None?
      modifies this`payments
      ensures error == S.CreatePaymentError(old(Tables()), payment) && Tables() == S.CreatePayment(old(Tables()), p, payment)
    {
      if Tables().ReferenceUsed(payment.provider, payment.reference) {
        return Some(S.UniqueViolation);
      }
      payments := payments[p := payment];
      error := None;
    }

    method ConfirmWithPayment(r: Id, p: Id, payment: Payment, token: Id) returns (error: Option<RepoError>)
      requires p !in payments && payment.registration == r && r in registrations && payment.status.Succeeded?
      modifies this`payments, this`registrations, this`tickets
      ensures error == S.ConfirmWithPaymentError(old(Tables()), r, payment)
      ensures Tables() == S.ConfirmWithPayment(old(Tables()), r, p, payment, token)
    {
      if Tables().ReferenceUsed(payment.provider, payment.reference) {
        return Some(S.UniqueViolation);
      }
      var stored := payments;
      payments := payments[p := payment];
      if !registrations[r].status.Pending? {
        payments := stored;
        return Some(S.NotFound);
      }
      if r in tickets {
        payments := stored;
        return Some(S.UniqueViolation);
      }
      registrations := registrations[r := registrations[r].(status := Confirmed)];
      tickets := tickets[r := token];
      error := None;
    }

    method SubmitManualPayment(r: Id, reference: Id, now: Instant) returns (error: Option<RepoError>)
      modifies this`payments
      ensures error == S.SubmitManualError(old(Tables()), r, reference, now)
      ensures Tables() == S.SubmitManualPayment(old(Tables()), r, reference, now)
    {
      var rows := S.SubmittedRows(Tables(), r, now);
      if rows == {} {
        return Some(S.PaymentUnavailable);
      }
      if |rows| > 1 || exists q :: q in payments && q !in rows && payments[q].provider.Manual? && payments[q].reference == Some(reference) {
        return Some(S.UniqueViolation);
      }
      payments := map p | p in payments ::
        if S.Submittable(payments[p], r, now) then payments[p].(reference := Some(reference), status := Processing) else payments[p];
      error := None;
    }

    method FailManualPayment(r: Id) returns (result: Result<Id, RepoError>)
      modifies this`payments, this`registrations
      ensures Tables() == S.FailManualPayment(old(Tables()), r)
      ensures match result
        case Err(error) => S.FailManualError(old(Tables()), r) == Some(error)
        case Ok(category) => S.FailManualError(old(Tables()), r).None? && category == old(registrations)[r].category
    {
      if r !in registrations {
        return Err(S.NotFound);
      }
      var reg := registrations[r];
      if !reg.status.Pending? {
        return Err(S.PaymentUnavailable);
      }
      if !exists p :: p in payments && S.UnderReview(payments[p], r) {
        return Err(S.PaymentUnavailable);
      }
      payments := map p | p in payments ::
        if S.UnderReview(payments[p], r) then payments[p].(status := Failed) else payments[p];
      registrations := registrations[r := reg.(status := Expired)];
      result := Ok(reg.category);
    }

    method ApproveManualPayment(r: Id, p: Id, token: Id) returns (result: Result<bool, RepoError>)
      modifies this`payments, this`registrations, this`tickets
      ensures Tables() == S.ApproveManualPayment(old(Tables()), r, p, token)
      ensures match result
        case Err(error) => S.ApproveManualError(old(Tables()), r, p) == Some(error)
        case Ok(newlyConfirmed) =>
          newlyConfirmed && S.ApproveManualError(old(Tables()), r, p).None?
    {
      if r !in registrations {
        return Err(S.NotFound);
      }
      if !registrations[r].status.Pending? {
        return Err(S.PaymentUnavailable);
      }
      if !(p in payments && S.UnderReview(payments[p], r)) {
        return Err(S.PaymentUnavailable);
      }
      payments := payments[p := payments[p].(status := Succeeded)];
      registrations := registrations[r := registrations[r].(status := Confirmed)];
      if r !in tickets {
        tickets := tickets[r := token];
      }
      result := Ok(true);
    }

    method ConfirmStoredPayment(r: Id, p: Id, token: Id) returns (result: Result<bool, RepoError>)
      modifies this`payments, this`registrations, this`tickets
      ensures Tables() == S.ConfirmStoredPayment(old(Tables()), r, p, token)
      ensures result == if r !in old(registrations) then Err(S.NotFound) else Ok(old(registrations)[r].status.Pending?)
    {
      if r !in registrations {
        return Err(S.NotFound);
      }
      var newlyConfirmed := registrations[r].status.Pending?;
      if p in payments && payments[p].registration == r {
        payments := payments[p := payments[p].(status := Succeeded)];
      }
      if newlyConfirmed {
        registrations := registrations[r := registrations[r].(status := Confirmed)];
        if r !in tickets {
          tickets := tickets[r := token];
        }
      }
      result := Ok(newlyConfirmed);
    }

    method ClaimPendingPayments(worker: Id, now: Instant, limit: int) returns (claimed: seq<Id>)
      modifies this`payments
      ensures FirstDue(old(Tables()), now, EffectiveLimit(limit), claimed)
      ensures Tables() == S.ClaimPendingPayments(old(Tables()), worker, now, Elements(claimed))
    {
      claimed := EarliestDue(payments, now, EffectiveLimit(limit));
      var chosen := Elements(claimed);
      payments := map p | p in payments ::
        if p in chosen then payments[p].(worker := Some(worker), leaseUntil := Some(now + S.RECONCILE_LEASE)) else payments[p];
    }

    method SchedulePaymentReconciliation(p: Id, worker: Id, next: Instant)
      modifies this`payments
      ensures Tables() == S.SchedulePaymentReconciliation(old(Tables()), p, worker, next)
    {
      if p in payments && payments[p].HeldBy(worker) {
        var payment := payments[p];
        payments := payments[p := payment.(reconcileAfter := next, leaseUntil := None, worker := None, attempts := payment.attempts + 1)];
      }
    }

    /** The category, and whether a place was released. */
    method ExpireClaimedPayment(r: Id, p: Id, worker: Id) returns (result: Result<(Id, bool), RepoError>)
      modifies this`payments, this`registrations
      ensures Tables() == S.ExpireClaimedPayment(old(Tables()), r, p, worker)
      ensures result == if r !in old(registrations) then Err(S.NotFound)
        else Ok((old(registrations)[r].category, S.Claimed(old(Tables()), r, p, worker) && old(registrations)[r].status.Pending?))
    {
      if r !in registrations {
        return Err(S.NotFound);
      }
      var reg := registrations[r];
      if !(p in payments && payments[p].registration == r && payments[p].HeldBy(worker)) {
        return Ok((reg.category, false));
      }
      payments := payments[p := payments[p].(status := Failed, leaseUntil := None, worker := None)];
      if reg.status.Pending? {
        registrations := registrations[r := reg.(status := Expired)];
      }
      result := Ok((reg.category, reg.status.Pending?));
    }

    /** The categories whose places were released, one per registration. */
    method ExpirePendingPayments(now: Instant) returns (freed: seq<Id>)
      modifies this`payments, this`registrations
      ensures Tables() == T.ExpirePendingPayments(old(Tables()), now)
      ensures CategoriesFreed(old(registrations), S.SweepRows(old(Tables()), now), freed)
    {
      var rows := S.SweepRows(Tables(), now);
      freed := Sweep(rows, now);
    }

    /** The two UPDATEs of the sweep, the first on the rows it has selected. */
    method Sweep(rows: set<Id>, now: Instant) returns (freed: seq<Id>)
      requires forall r :: r in rows ==> r in registrations
      modifies this`payments, this`registrations
      ensures Tables() == S.SweepCommit(old(Tables()), now, rows)
      ensures CategoriesFreed(old(registrations), rows, freed)
    {
      freed := CategoriesOf(registrations, rows);
      registrations := map r | r in registrations ::
        if r in rows then registrations[r].(status := Expired) else registrations[r];
      payments := map p | p in payments ::
        if payments[p].Overdue(now) then payments[p].(status := Failed) else payments[p];
    }

    /** Find and Lookup of the idempotency package. */
    method Lookup(key: Key, requestHash: Id) returns (found: S.Replay)
      ensures found == S.Lookup(Tables(), key, requestHash)
    {
      if key !in outcomes {
        return S.NoRecord;
      }
      var record := outcomes[key];
      found := if record.requestHash != requestHash then S.Conflict else S.Replay(record);
    }

    method StoreOutcome(key: Key, outcome: Outcome)
      modifies this`outcomes
      ensures Tables() == S.StoreOutcome(old(Tables()), key, outcome)
    {
      if key !in outcomes {
        outcomes := outcomes[key := outcome];
      }
    }

    method DeleteExpired(now: Instant) returns (removed: nat)
      modifies this`outcomes
      ensures Tables() == S.DeleteExpiredOutcomes(old(Tables()), now)
      ensures removed == |set k | k in old(outcomes) && old(outcomes)[k].expiresAt <= now|
    {
      removed := |set k | k in outcomes && outcomes[k].expiresAt <= now|;
      outcomes := map k | k in outcomes && outcomes[k].expiresAt > now :: outcomes[k];
    }

    /** INSERT INTO check_ins; None is the unique violation. */
    method RecordCheckIn(r: Id, staff: Id) returns (created: bool)
      modifies this`checkIns
      ensures created == (r !in old(checkIns))
      ensures checkIns == if created then old(checkIns)[r := staff] else old(checkIns)
    {
      created := r !in checkIns;
      if created {
        checkIns := checkIns[r := staff];
      }
    }
  }
}
