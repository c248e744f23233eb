/**
 * The service over the repository: which transactions it runs, in which order and under which guards, and
 * which registrations it announces. Calls run one after the other here; their interleaving is the protocol's.
 */
module RegistrationService {
  import opened Wrappers
  import opened Backoffs
  import opened Tables
  import S = Statements
  import opened Protocol
  import opened PaymentInvariant
  import opened Reconciler
  import T = Transactions
  import R = RegistrationRepository

  /** A registration has been announced as confirmed exactly when it has a ticket, and only once. */
  ghost predicate Announced(db: Db, notices: seq<Id>) {
    && (forall i, j :: 0 <= i < j < |notices| ==> notices[i] != notices[j])
    && forall r :: r in notices <==> r in db.tickets
  }

  lemma AnnounceTicket(db: Db, db': Db, notices: seq<Id>, r: Id)
    requires Announced(db, notices) && r !in db.tickets
    requires forall q :: q in db'.tickets <==> q in db.tickets || q == r
    ensures Announced(db', notices + [r])
  {
  }

  // ---- One reconciliation pass ----

  /** The transaction a decision leads to. */
  function Acted(db: Db, decision: Decision, p: Id, worker: Id, now: Instant, token: Id): Db
    requires p in db.payments
  {
    match decision
    case RetryAfter(delay) => S.SchedulePaymentReconciliation(db, p, worker, now + delay)
    case GiveUp => S.ExpireClaimedPayment(db, db.payments[p].registration, p, worker)
    case AcceptPayment => S.ConfirmStoredPayment(db, db.payments[p].registration, p, token)
    case LeaveLease => db
  }

  function PaymentAfter(stored: Payment, decision: Decision, now: Instant): Payment {
    match decision
    case RetryAfter(delay) =>
      stored.(reconcileAfter := now + delay, leaseUntil := None, worker := None, attempts := stored.attempts + 1)
    case GiveUp => stored.(status := Failed, leaseUntil := None, worker := None)
    case AcceptPayment => stored.(status := Succeeded)
    case LeaveLease => stored
  }

  function StatusAfter(status: Status, decision: Decision): Status {
    match decision
    case RetryAfter(_) => status
    case GiveUp => if status.Pending? then Expired else status
    case AcceptPayment => if status.Pending? then Confirmed else status
    case LeaveLease => status
  }

  /** The pass has done to the payment and its registration what the decision says. */
  ghost predicate Reconciled(before: Db, after: Db, p: Id, decision: Decision, now: Instant) {
    && p in before.payments && p in after.payments
    && after.payments[p] == PaymentAfter(before.payments[p], decision, now)
    && var r := before.payments[p].registration;
       && r in before.registrations && r in after.registrations
       && after.registrations[r] == before.registrations[r].(status := StatusAfter(before.registrations[r].status, decision))
       && (r in after.tickets <==> r in before.tickets || (decision.AcceptPayment? && before.registrations[r].status.Pending?))
  }

  /** A payment and its registration are as they were. */
  ghost predicate Untouched(before: Db, after: Db, p: Id) {
    && p in before.payments && p in after.payments && after.payments[p] == before.payments[p]
    && var r := before.payments[p].registration;
       && r in before.registrations && r in after.registrations && after.registrations[r] == before.registrations[r]
       && (r in after.tickets <==> r in before.tickets)
  }

  lemma ActedReconciles(db: Db, decision: Decision, p: Id, worker: Id, now: Instant, token: Id)
    requires OnePaymentEach(db) && p in db.payments && db.payments[p].HeldBy(worker)
    ensures Reconciled(db, Acted(db, decision, p, worker, now, token), p, decision, now)
  {
    match decision {
      case RetryAfter(_) =>
      case GiveUp => if db.StatusIs(db.payments[p].registration, Pending) {}
      case AcceptPayment => if db.StatusIs(db.payments[p].registration, Pending) {}
      case LeaveLease =>
    }
  }

  lemma AgreesOnePayment(db: Db)
    requires T.Agrees(db)
    ensures OnePaymentEach(db)
  {
  }

  /** The payment waits for its next pass, which comes between 15 s and 16 min later. */
  predicate WaitsAgain(before: Payment, after: Payment, now: Instant) {
    && after.status.Awaiting? && after.leaseUntil.None? && after.worker.None? && after.attempts == before.attempts + 1
    && now + 15 <= after.reconcileAfter <= now + 16 * MINUTE
  }

  /** Place and payment move together. */
  ghost predicate MovesTogether(before: Payment, after: Db, p: Id, decision: Decision, now: Instant) {
    && p in after.payments
    && (after.StatusIs(before.registration, Confirmed) <==> decision.AcceptPayment?)
    && (after.StatusIs(before.registration, Confirmed) <==> after.payments[p].status.Succeeded?)
    && (after.StatusIs(before.registration, Confirmed) <==> before.registration in after.tickets)
    && (after.StatusIs(before.registration, Expired) <==> decision.GiveUp?)
    && (after.StatusIs(before.registration, Expired) <==> after.payments[p].status.Failed?)
    && (after.StatusIs(before.registration, Pending) <==>
          if decision.LeaveLease? then after.payments[p] == before else WaitsAgain(before, after.payments[p], now))
  }

  lemma ReconciledMoves(db: Db, after: Db, p: Id, decision: Decision, now: Instant)
    requires Reconciled(db, after, p, decision, now) && db.StatusIs(db.payments[p].registration, Pending)
    requires db.payments[p].registration !in db.tickets && db.payments[p].status.Awaiting?
    requires decision.RetryAfter? ==> 15 <= decision.delay <= 16 * MINUTE
    ensures MovesTogether(db.payments[p], after, p, decision, now)
  {
  }

  lemma DecisionMeans(stored: Payment, provider: Provider, answer: Answer, failing: Failing, now: Instant)
    ensures var decision := Faced(Decide(stored, provider, answer, now), failing);
      && (decision.AcceptPayment? <==> PaidBy(stored, provider, answer) && failing.NoneFails?)
      && (decision.GiveUp? <==> ForfeitedBy(stored, provider, answer, now) && failing.NoneFails?)
      && (decision.RetryAfter? ==> 15 <= decision.delay <= 16 * MINUTE)
  {
    DelayBounds(stored, provider, answer, now);
  }

  /**
   * What the provider's answer does to a place that is still pending: it is confirmed, with a ticket, iff exactly the
   * amount due was paid; given up iff the provider was asked after the expiry and nobody had paid; and otherwise kept,
   * with its payment waiting for the next pass. A failing transaction keeps it too, at worst with its lease.
   */
  lemma AnswerDecidesPlace(db: Db, provider: Provider, p: Id, worker: Id, answer: Answer, failing: Failing, now: Instant, token: Id)
    requires T.Agrees(db) && p in db.payments && db.payments[p].HeldBy(worker) && db.StatusIs(db.payments[p].registration, Pending)
    ensures var stored := db.payments[p];
            var after := Acted(db, Faced(Decide(stored, provider, answer, now), failing), p, worker, now, token);
      && (after.StatusIs(stored.registration, Confirmed) <==> PaidBy(stored, provider, answer) && failing.NoneFails?)
      && (after.StatusIs(stored.registration, Expired) <==> ForfeitedBy(stored, provider, answer, now) && failing.NoneFails?)
      && MovesTogether(stored, after, p, Faced(Decide(stored, provider, answer, now), failing), now)
  {
    var decision := Faced(Decide(db.payments[p], provider, answer, now), failing);
    DecisionMeans(db.payments[p], provider, answer, failing, now);
    AgreesOnePayment(db);
    PendingUnticketed(db, db.payments[p].registration);
    ActedReconciles(db, decision, p, worker, now, token);
    ReconciledMoves(db, Acted(db, decision, p, worker, now, token), p, decision, now);
  }

  lemma PendingUnticketed(db: Db, r: Id)
    requires T.Agrees(db) && db.StatusIs(r, Pending)
    ensures r !in db.tickets
  {
  }

  lemma RetryLeaves(db: Db, p: Id, worker: Id, next: Instant, q: Id)
    requires OnePaymentEach(db) && q in db.payments && p != q
    ensures Untouched(db, S.SchedulePaymentReconciliation(db, p, worker, next), q)
  {
  }

  lemma GiveUpLeaves(db: Db, r: Id, p: Id, worker: Id, q: Id)
    requires OnePaymentEach(db) && q in db.payments && p != q && db.payments[q].registration != r
    ensures Untouched(db, S.ExpireClaimedPayment(db, r, p, worker), q)
  {
    if db.StatusIs(r, Pending) {}
  }

  lemma AcceptLeaves(db: Db, r: Id, p: Id, token: Id, q: Id)
    requires OnePaymentEach(db) && q in db.payments && p != q && db.payments[q].registration != r
    ensures Untouched(db, S.ConfirmStoredPayment(db, r, p, token), q)
  {
    if db.StatusIs(r, Pending) {}
  }

  lemma ActedLeaves(db: Db, decision: Decision, p: Id, worker: Id, now: Instant, token: Id, q: Id)
    requires OnePaymentEach(db) && p in db.payments && q in db.payments && p != q
    ensures Untouched(db, Acted(db, decision, p, worker, now, token), q)
  {
    match decision {
      case RetryAfter(delay) => RetryLeaves(db, p, worker, now + delay, q);
      case GiveUp => GiveUpLeaves(db, db.payments[p].registration, p, worker, q);
      case AcceptPayment => AcceptLeaves(db, db.payments[p].registration, p, token, q);
      case LeaveLease =>
    }
  }

  lemma RetryAgrees(db: Db, decision: Decision, p: Id, worker: Id, now: Instant, token: Id)
    requires T.Agrees(db) && p in db.payments && decision.RetryAfter?
    ensures T.Agrees(Acted(db, decision, p, worker, now, token))
  {
    T.ScheduleAgreesAlone(db, p, worker, now + decision.delay);
  }

  lemma GiveUpAgrees(db: Db, decision: Decision, p: Id, worker: Id, now: Instant, token: Id)
    requires T.Agrees(db) && p in db.payments && decision.GiveUp?
    ensures T.Agrees(Acted(db, decision, p, worker, now, token))
  {
    T.EntryAgrees(db, 0, db.payments[p].registration, EntryStep.ExpireClaimed(p, worker));
  }

  lemma AcceptAgrees(db: Db, decision: Decision, p: Id, worker: Id, now: Instant, token: Id)
    requires T.Agrees(db) && p in db.payments && !db.payments[p].provider.Manual? && decision.AcceptPayment?
    ensures T.Agrees(Acted(db, decision, p, worker, now, token))
  {
    T.EntryAgrees(db, 0, db.payments[p].registration, SettleStored(p, token));
  }

  lemma ActedAgrees(db: Db, decision: Decision, p: Id, worker: Id, now: Instant, token: Id)
    requires T.Agrees(db) && p in db.payments && !db.payments[p].provider.Manual?
    ensures T.Agrees(Acted(db, decision, p, worker, now, token))
  {
    match decision {
      case RetryAfter(_) => RetryAgrees(db, decision, p, worker, now, token);
      case GiveUp => GiveUpAgrees(db, decision, p, worker, now, token);
      case AcceptPayment => AcceptAgrees(db, decision, p, worker, now, token);
      case LeaveLease =>
    }
  }

  /** The registration the pass has newly confirmed, if any. */
  predicate NewlyConfirms(db: Db, decision: Decision, p: Id) {
    decision.AcceptPayment? && p in db.payments && db.StatusIs(db.payments[p].registration, Pending)
  }

  lemma ActedAnnounces(db: Db, decision: Decision, p: Id, worker: Id, now: Instant, token: Id, notices: seq<Id>)
    requires T.Agrees(db) && p in db.payments && Announced(db, notices)
    ensures Announced(Acted(db, decision, p, worker, now, token),
              notices + if NewlyConfirms(db, decision, p) then [db.payments[p].registration] else [])
  {
    var db' := Acted(db, decision, p, worker, now, token);
    if NewlyConfirms(db, decision, p) {
      AnnounceTicket(db, db', notices, db.payments[p].registration);
    } else {
      assert notices + [] == notices;
      match decision {
        case RetryAfter(_) =>
        case GiveUp => if db.StatusIs(db.payments[p].registration, Pending) {}
        case AcceptPayment =>
        case LeaveLease =>
      }
    }
  }

  /** What a whole pass leaves: its payments handled from position k on are still to come, the others are done. */
  ghost predicate Handled(claimed: Db, db: Db, batch: seq<Id>, k: nat, decide: Id -> Decision, time: Id -> Instant) {
    && (forall i :: 0 <= i < k && i < |batch| ==> Reconciled(claimed, db, batch[i], decide(batch[i]), time(batch[i])))
    && forall p :: p in claimed.payments && p !in batch[..if k < |batch| then k else |batch|] ==> Untouched(claimed, db, p)
  }

  lemma ReconciledStays(claimed: Db, db: Db, db': Db, p: Id, decision: Decision, now: Instant)
    requires Reconciled(claimed, db, p, decision, now) && Untouched(db, db', p)
    ensures Reconciled(claimed, db', p, decision, now)
  {
  }

  lemma UntouchedChains(claimed: Db, db: Db, db': Db, p: Id)
    requires Untouched(claimed, db, p) && Untouched(db, db', p)
    ensures Untouched(claimed, db', p)
  {
  }

  lemma ReconciledLater(claimed: Db, db: Db, db': Db, p: Id, decision: Decision, now: Instant)
    requires Untouched(claimed, db, p) && Reconciled(db, db', p, decision, now)
    ensures Reconciled(claimed, db', p, decision, now)
  {
  }

  /** Handling the next payment of the batch. */
  lemma HandledNext(claimed: Db, db: Db, db': Db, batch: seq<Id>, k: nat, decide: Id -> Decision, time: Id -> Instant)
    requires k < |batch| && Handled(claimed, db, batch, k, decide, time)
    requires forall i, j :: 0 <= i < j < |batch| ==> batch[i] != batch[j]
    requires forall p :: p in batch ==> p in claimed.payments
    requires Reconciled(db, db', batch[k], decide(batch[k]), time(batch[k]))
    requires forall q :: q in claimed.payments && q != batch[k] ==> Untouched(db, db', q)
    ensures Handled(claimed, db', batch, k + 1, decide, time)
  {
    forall i | 0 <= i < k + 1 ensures Reconciled(claimed, db', batch[i], decide(batch[i]), time(batch[i])) {
      if i < k {
        ReconciledStays(claimed, db, db', batch[i], decide(batch[i]), time(batch[i]));
      } else {
        ReconciledLater(claimed, db, db', batch[k], decide(batch[k]), time(batch[k]));
      }
    }
    forall p | p in claimed.payments && p !in batch[..k + 1] ensures Untouched(claimed, db', p) {
      assert batch[..k + 1] == batch[..k] + [batch[k]];
      UntouchedChains(claimed, db, db', p);
    }
  }

  // ---- Registering ----

  /** What the provider says when a payment is opened with it. */
  datatype Opening = ProviderError | Opened(payment: Payment)

  /** registerPaid after its Create: the payment is recorded, or the place is released again. */
  function PaymentOpened(db: Db, r: Id, opening: Opening, p: Id, token: Id): Db {
    match opening
    case ProviderError => S.Cancel(db, r)
    case Opened(payment) =>
      if payment.status.Succeeded? then S.ConfirmWithPayment(db, r, p, payment, token)
      else if S.CreatePaymentError(db, payment).Some? then S.Cancel(db, r)
      else if payment.status.Failed? then S.Cancel(S.CreatePayment(db, p, payment), r)
      else S.CreatePayment(db, p, payment)
  }

  /** The provider accepts, and the payment could be recorded. */
  predicate Accepts(db: Db, r: Id, opening: Opening) {
    && opening.Opened? && !opening.payment.status.Failed?
    && if opening.payment.status.Succeeded? then S.ConfirmWithPaymentError(db, r, opening.payment).None?
       else S.CreatePaymentError(db, opening.payment).None?
  }

  /** A payment row as the provider's answer makes it for registration r. */
  predicate Fresh(db: Db, r: Id, opening: Opening, p: Id) {
    p !in db.payments && (opening.Opened? ==>
      opening.payment.registration == r && opening.payment.worker.None? && opening.payment.leaseUntil.None?)
  }

  lemma PaidAgrees(db: Db, r: Id, opening: Opening, p: Id, token: Id)
    requires T.Agrees(db) && T.AwaitsPayment(db, r) && Fresh(db, r, opening, p)
    ensures T.Agrees(PaymentOpened(db, r, opening, p, token))
  {
    if opening.ProviderError? {
      T.CancelAgreesAlone(db, r);
    } else if opening.payment.status.Succeeded? {
      T.ConfirmWithPaymentAgrees(db, r, p, opening.payment, token);
    } else {
      T.CancelAgreesAlone(db, r);
      T.CreatePaymentAgrees(db, p, opening.payment);
      T.CancelAgreesAlone(S.CreatePayment(db, p, opening.payment), r);
    }
  }

  /** No entry but r changes, and no ticket but its own. */
  ghost predicate OthersSame(db: Db, after: Db, r: Id) {
    && (forall q :: q != r ==> (q in after.registrations <==> q in db.registrations))
    && (forall q :: q != r && q in db.registrations ==> after.registrations[q] == db.registrations[q])
    && (forall q :: q != r ==> (q in after.tickets <==> q in db.tickets))
  }

  /** Nothing but the entry r, its ticket and the payments changes. */
  ghost predicate OnlyEntry(db: Db, after: Db, r: Id) {
    OthersSame(db, after, r) && after.outcomes == db.outcomes && after.counters == db.counters
  }

  lemma CancelLeaves(db: Db, r: Id)
    ensures OnlyEntry(db, S.Cancel(db, r), r)
    ensures S.Cancel(db, r).tickets == db.tickets && S.Cancel(db, r).payments == db.payments
    ensures r in db.registrations ==> S.Cancel(db, r).StatusIs(r, Cancelled)
  {
  }

  lemma CreatePaymentLeaves(db: Db, p: Id, payment: Payment)
    ensures S.CreatePayment(db, p, payment) == db.(payments := S.CreatePayment(db, p, payment).payments)
    ensures S.CreatePaymentError(db, payment).None? ==> S.CreatePayment(db, p, payment).payments == db.payments[p := payment]
  {
  }

  lemma ConfirmWithPaymentLeaves(db: Db, r: Id, p: Id, payment: Payment, token: Id)
    requires db.StatusIs(r, Pending) && r !in db.tickets
    ensures var after := S.ConfirmWithPayment(db, r, p, payment, token);
      && OnlyEntry(db, after, r)
      && if S.ConfirmWithPaymentError(db, r, payment).Some? then after == db
         else after.payments == db.payments[p := payment] && after.StatusIs(r, Confirmed) && r in after.tickets
  {
  }

  /** What becomes of the place. */
  function PlaceAfter(db: Db, r: Id, opening: Opening): Status {
    if Accepts(db, r, opening) then if opening.payment.status.Succeeded? then Confirmed else Pending
    else if opening.Opened? && opening.payment.status.Succeeded? then Pending
    else Cancelled
  }

  /**
   * The place is kept with its payment when the provider accepts, and released when it does not - unless the
   * provider has taken the money at once and it could not be recorded: then it stays PENDING with no payment.
   */
  lemma PaidPlace(db: Db, r: Id, opening: Opening, p: Id, token: Id)
    requires db.StatusIs(r, Pending) && r !in db.tickets && Fresh(db, r, opening, p)
    ensures var after := PaymentOpened(db, r, opening, p, token);
      && OnlyEntry(db, after, r)
      && after.StatusIs(r, PlaceAfter(db, r, opening))
      && (Accepts(db, r, opening) ==> after.payments == db.payments[p := opening.payment])
      && (r in after.tickets <==> PlaceAfter(db, r, opening).Confirmed?)
  {
    if opening.ProviderError? {
      CancelLeaves(db, r);
    } else if opening.payment.status.Succeeded? {
      ConfirmWithPaymentLeaves(db, r, p, opening.payment, token);
    } else {
      CreatePaymentLeaves(db, p, opening.payment);
      CancelLeaves(db, r);
      CancelLeaves(S.CreatePayment(db, p, opening.payment), r);
    }
  }

  lemma PaidAnnounces(db: Db, r: Id, opening: Opening, p: Id, token: Id, notices: seq<Id>)
    requires db.StatusIs(r, Pending) && T.AwaitsPayment(db, r) && Fresh(db, r, opening, p) && Announced(db, notices)
    ensures Announced(PaymentOpened(db, r, opening, p, token),
              notices + if Accepts(db, r, opening) && opening.payment.status.Succeeded? then [r] else [])
  {
    var after := PaymentOpened(db, r, opening, p, token);
    PaidPlace(db, r, opening, p, token);
    if Accepts(db, r, opening) && opening.payment.status.Succeeded? {
      AnnounceTicket(db, after, notices, r);
    } else {
      assert notices + [] == notices;
      assert Announced(after, notices);
    }
  }

  lemma CreatedAnnounces(db: Db, params: CreateParams, year: nat, id: Id, now: Instant, notices: seq<Id>)
    requires T.Agrees(db) && id !in db.registrations && Announced(db, notices)
    ensures Announced(T.Created(db, params, year, id, now), notices + if params.confirm then [id] else [])
  {
    var after := T.Created(db, params, year, id, now);
    if params.confirm {
      AnnounceTicket(db, after, notices, id);
    } else {
      assert notices + [] == notices;
      assert Announced(after, notices);
    }
  }

  lemma CreatedAwaits(db: Db, params: CreateParams, year: nat, id: Id, now: Instant)
    requires T.Agrees(db) && id !in db.registrations && !params.confirm
    ensures T.AwaitsPayment(T.Created(db, params, year, id, now), id)
    ensures T.Created(db, params, year, id, now).StatusIs(id, Pending)
  {
  }

  /**
   * allowed is the rate limiter's answer, and unlocked whether the category's lock can be had; an error of either, as when
   * Redis is down, counts as yes.
   */
  datatype Request = Request(user: Id, event: Id, category: Id, open: bool, free: bool, hook: Option<(Key, Id)>, allowed: bool, unlocked: bool)

  datatype Refusal = KeyReused | RateLimited | LockNotAcquired | InvalidCategory | Closed | AlreadyRegistered | Repository(error: S.RepoError) | PaymentFailed

  datatype Response = Replayed(outcome: Outcome) | Rejected(why: Refusal) | Registered(id: Id)

  /** What a new entry leaves in the tables: a place of its own, ticketed when it is confirmed. */
  ghost predicate HoldsPlace(after: Db, request: Request, id: Id) {
    && id in after.registrations && after.registrations[id].SameRunner(request.user, request.event)
    && after.registrations[id].category == request.category && after.registrations[id].status.Active()
    && (id in after.tickets <==> after.registrations[id].status.Confirmed?)
    && (after.StatusIs(id, Pending) ==> HasPayment(after, id))
  }

  /** The request's response is now stored, and names the new entry. */
  ghost predicate ResponseStored(after: Db, request: Request, id: Id) {
    request.hook.Some? ==>
      var (key, hash) := request.hook.value;
      S.Lookup(after, key, hash).Replay? && S.Lookup(after, key, hash).outcome.registration == id
  }

  lemma CreatedLeaves(db: Db, params: CreateParams, year: nat, id: Id, now: Instant)
    requires id !in db.registrations && id !in db.tickets
    ensures var after := T.Created(db, params, year, id, now);
      && OthersSame(db, after, id) && after.payments == db.payments
      && after.StatusIs(id, if params.confirm then Confirmed else Pending)
      && after.registrations[id].SameRunner(params.user, params.event) && after.registrations[id].category == params.category
      && (id in after.tickets <==> params.confirm)
      && (params.hook.None? ==> after.outcomes == db.outcomes)
      && (params.hook.Some? && params.hook.value.0 !in db.outcomes ==>
            var (key, hash) := params.hook.value;
            S.Lookup(after, key, hash).Replay? && S.Lookup(after, key, hash).outcome.registration == id)
  {
  }

  lemma SweepAnnounces(db: Db, now: Instant, notices: seq<Id>)
    requires Announced(db, notices)
    ensures Announced(T.ExpirePendingPayments(db, now), notices)
  {
  }

  function Params(request: Request, token: Id): CreateParams {
    CreateParams(request.user, request.event, request.category, request.free, token, if request.free then request.hook else None)
  }

  /** An outcome stored after the fact, by the paid path. */
  function StoredPaid(db: Db, request: Request, id: Id, now: Instant): Db {
    if request.hook.Some? then
      S.StoreOutcome(db, request.hook.value.0, Outcome(request.hook.value.1, id, false, now + OUTCOME_TTL))
    else db
  }

  lemma StoredPaidAgrees(db: Db, request: Request, id: Id, now: Instant)
    requires T.Agrees(db) && id in db.registrations && db.registrations[id].user == request.user
    requires request.hook.Some? ==> request.hook.value.0.user == request.user
    ensures T.Agrees(StoredPaid(db, request, id, now))
  {
    if request.hook.Some? {
      T.OtherAgrees(db, now, StorePaidOutcome(request.hook.value.0, Outcome(request.hook.value.1, id, false, now + OUTCOME_TTL)));
    }
  }

  /** Other entries are as they were; a new entry holds its place and its response is stored; a refusal stores none. */
  ghost predicate EntryMade(db: Db, after: Db, request: Request, id: Id, response: Response) {
    && OthersSame(db, after, id)
    && match response
       case Replayed(_) => false
       case Rejected(_) => after.outcomes == db.outcomes
       case Registered(r) => r == id && HoldsPlace(after, request, id) && ResponseStored(after, request, id)
  }

  /** The answer once the request's checks have passed: the transaction's refusal, or the provider's. */
  function EntryResponse(db: Db, request: Request, year: nat, id: Id, opening: Opening, token: Id, now: Instant): Response {
    match T.CreateError(db, Params(request, token))
    case Some(error) => Rejected(Repository(error))
    case None =>
      if request.free || Accepts(T.Created(db, Params(request, token), year, id, now), id, opening) then Registered(id)
      else Rejected(PaymentFailed)
  }

  /** The tables after the transactions of the free or the paid path. */
  function Entered(db: Db, request: Request, year: nat, id: Id, opening: Opening, p: Id, token: Id, now: Instant): Db {
    if T.CreateError(db, Params(request, token)).Some? then db
    else
      var created := T.Created(db, Params(request, token), year, id, now);
      if request.free then created
      else if Accepts(created, id, opening) then StoredPaid(PaymentOpened(created, id, opening, p, token), request, id, now)
      else PaymentOpened(created, id, opening, p, token)
  }

  /** What a refusal leaves: nothing - or, when it comes after the place was taken, the entry as the provider's answer leaves it. */
  ghost predicate RefusalLeaves(db: Db, after: Db, request: Request, year: nat, id: Id, opening: Opening, token: Id, now: Instant,
                                response: Response) {
    && (response.Rejected? && response.why.Repository? ==> after == db)
    && (response == Rejected(PaymentFailed) ==>
          after.StatusIs(id, PlaceAfter(T.Created(db, Params(request, token), year, id, now), id, opening)))
  }

  /** The checks between the sweep and the transaction. */
  function RefusalBefore(db: Db, request: Request): Option<Refusal> {
    if !request.allowed then Some(RateLimited)
    else if request.category !in db.categories || db.categories[request.category].event != request.event then Some(InvalidCategory)
    else if !request.open then Some(Closed)
    else if db.Taken(request.user, request.event) then Some(AlreadyRegistered)
    else if !request.unlocked then Some(LockNotAcquired)
    else None
  }

  /** The lookup of a request's key; without a key nothing is looked up. */
  function Found(db: Db, request: Request): S.Replay {
    if request.hook.Some? then S.Lookup(db, request.hook.value.0, request.hook.value.1) else S.NoRecord
  }

  lemma SweepKeepsKeys(db: Db, now: Instant, id: Id, opening: Opening, p: Id)
    ensures var swept := T.ExpirePendingPayments(db, now);
      && swept.outcomes == db.outcomes && (id in swept.registrations <==> id in db.registrations)
      && (Fresh(db, id, opening, p) ==> Fresh(swept, id, opening, p))
  {
  }

  lemma FreePlace(db: Db, request: Request, year: nat, id: Id, token: Id, now: Instant)
    requires T.Agrees(db) && id !in db.registrations && request.free
    requires request.hook.Some? ==> request.hook.value.0 !in db.outcomes
    ensures var after := T.Created(db, Params(request, token), year, id, now);
      OthersSame(db, after, id) && HoldsPlace(after, request, id) && ResponseStored(after, request, id)
  {
    CreatedLeaves(db, Params(request, token), year, id, now);
  }

  lemma PaidEntryPlace(db: Db, request: Request, year: nat, id: Id, opening: Opening, p: Id, token: Id, now: Instant)
    requires T.Agrees(db) && id !in db.registrations && !request.free && Fresh(db, id, opening, p)
    ensures var created := T.Created(db, Params(request, token), year, id, now);
            var after := PaymentOpened(created, id, opening, p, token);
      && OthersSame(db, after, id) && after.outcomes == db.outcomes
      && after.StatusIs(id, PlaceAfter(created, id, opening))
      && (Accepts(created, id, opening) ==> HoldsPlace(after, request, id))
  {
    var created := T.Created(db, Params(request, token), year, id, now);
    var after := PaymentOpened(created, id, opening, p, token);
    CreatedLeaves(db, Params(request, token), year, id, now);
    PaidPlace(created, id, opening, p, token);
    if Accepts(created, id, opening) {
      assert after.payments[p].registration == id;
    }
  }

  lemma StoredPaidKeeps(db: Db, before: Db, request: Request, id: Id, now: Instant)
    requires OthersSame(before, db, id) && HoldsPlace(db, request, id)
    requires request.hook.Some? ==> request.hook.value.0 !in db.outcomes
    ensures var after := StoredPaid(db, request, id, now);
      OthersSame(before, after, id) && HoldsPlace(after, request, id) && ResponseStored(after, request, id)
  {
    if HasPayment(db, id) {
      assert HasPayment(StoredPaid(db, request, id, now), id);
    }
  }

  lemma FreeEntered(db: Db, request: Request, year: nat, id: Id, opening: Opening, p: Id, token: Id, now: Instant)
    requires T.Agrees(db) && id !in db.registrations && request.free
    requires request.hook.Some? ==> request.hook.value.0 !in db.outcomes
    ensures var (after, response) := (Entered(db, request, year, id, opening, p, token, now), EntryResponse(db, request, year, id, opening, token, now));
      EntryMade(db, after, request, id, response) && RefusalLeaves(db, after, request, year, id, opening, token, now, response)
  {
    FreePlace(db, request, year, id, token, now);
  }

  lemma PaidEntered(db: Db, request: Request, year: nat, id: Id, opening: Opening, p: Id, token: Id, now: Instant)
    requires T.Agrees(db) && id !in db.registrations && !request.free && Fresh(db, id, opening, p)
    requires request.hook.Some? ==> request.hook.value.0 !in db.outcomes
    ensures var (after, response) := (Entered(db, request, year, id, opening, p, token, now), EntryResponse(db, request, year, id, opening, token, now));
      EntryMade(db, after, request, id, response) && RefusalLeaves(db, after, request, year, id, opening, token, now, response)
  {
    var created := T.Created(db, Params(request, token), year, id, now);
    PaidEntryPlace(db, request, year, id, opening, p, token, now);
    if Accepts(created, id, opening) {
      StoredPaidKeeps(PaymentOpened(created, id, opening, p, token), db, request, id, now);
    }
  }

  // ---- Verifying one payment ----

  datatype Verdict = NoPayment | AlreadyConfirmed | Unavailable | HasFailed | Waiting | HasExpired | NotReached | Mismatch | Settles

  predicate PastExpiry(stored: Payment, now: Instant) {
    stored.expiresAt.Some? && now > stored.expiresAt.value
  }

  function Verify(status: Status, stored: Payment, provider: Provider, answer: Answer, now: Instant): Verdict {
    if status.Confirmed? then AlreadyConfirmed
    else if !status.Pending? then Unavailable
    else if stored.provider.Manual? then
      match stored.status
      case Awaiting => if PastExpiry(stored, now) then HasExpired else Waiting
      case Processing => Waiting
      case Failed => HasFailed
      case Succeeded => Unavailable
    else if stored.provider != provider || stored.reference.None? then
      if PastExpiry(stored, now) then HasExpired else Unavailable
    else
      match answer
      case Unreachable => NotReached
      case StillPending => if PastExpiry(stored, now) then HasExpired else Waiting
      case Otherwise => Unavailable
      case Settled(amountCents, currency) =>
        if amountCents != stored.amountCents || currency != stored.currency then Mismatch else Settles
  }

  /**
   * The runner's own check and the background reconciler agree: on a pending place whose provider can be
   * asked they settle on the same answers and give up on the same answers.
   */
  lemma VerifyMatchesReconciler(stored: Payment, provider: Provider, answer: Answer, now: Instant)
    requires !stored.provider.Manual?
    ensures Verify(Pending, stored, provider, answer, now).Settles? <==> Decide(stored, provider, answer, now).AcceptPayment?
    ensures Decide(stored, provider, answer, now).GiveUp? <==>
      Verify(Pending, stored, provider, answer, now).HasExpired? && stored.provider == provider && stored.reference.Some?
  {
  }

  datatype Submission = Submitted | BadReference | NotPayable | TooLate | RefusedBy(error: S.RepoError)

  /** Whether a runner may still enter the reference of a bank transfer. */
  function SubmissionRefused(status: Status, stored: Option<Payment>, validLength: bool, now: Instant): Option<Submission> {
    if !validLength then Some(BadReference)
    else if !status.Pending? then Some(NotPayable)
    else if stored.None? then Some(RefusedBy(S.NotFound))
    else if !stored.value.provider.Manual? || !stored.value.status.Awaiting? then Some(NotPayable)
    else if PastExpiry(stored.value, now) then Some(TooLate)
    else None
  }

  lemma SubmitKeepsTickets(db: Db, r: Id, reference: Id, now: Instant)
    ensures S.SubmitManualPayment(db, r, reference, now).tickets == db.tickets
  {
  }

  /** An expired verdict runs the whole sweep: it also releases places whose own provider was not asked. */
  function Verified(db: Db, r: Id, p: Id, verdict: Verdict, now: Instant, token: Id): Db {
    match verdict
    case HasExpired => T.ExpirePendingPayments(db, now)
    case Settles => S.ConfirmStoredPayment(db, r, p, token)
    case _ => db
  }

  lemma ConfirmAnnounces(db: Db, r: Id, p: Id, token: Id, notices: seq<Id>)
    requires T.Agrees(db) && Announced(db, notices)
    ensures Announced(S.ConfirmStoredPayment(db, r, p, token), notices + if db.StatusIs(r, Pending) then [r] else [])
    ensures Announced(S.ApproveManualPayment(db, r, p, token),
              notices + if S.ApproveManualError(db, r, p).None? then [r] else [])
  {
    assert notices + [] == notices;
    if db.StatusIs(r, Pending) {
      AnnounceTicket(db, S.ConfirmStoredPayment(db, r, p, token), notices, r);
    }
    if S.ApproveManualError(db, r, p).None? {
      AnnounceTicket(db, S.ApproveManualPayment(db, r, p, token), notices, r);
    }
  }

  lemma SameTicketsAnnounce(db: Db, after: Db, notices: seq<Id>)
    requires Announced(db, notices) && after.tickets == db.tickets
    ensures Announced(after, notices)
  {
  }

  lemma ReleaseTickets(db: Db, r: Id)
    ensures S.Cancel(db, r).tickets == db.tickets && S.FailManualPayment(db, r).tickets == db.tickets
  {
  }

  /** The payment of a registration, if it has one. */
  function PaymentOf(db: Db, r: Id): (found: Option<Id>)
    requires OnePaymentEach(db)
    ensures found.Some? <==> HasPayment(db, r)
    ensures found.Some? ==> found.value in db.payments && db.payments[found.value].registration == r
  {
    if exists p :: p in db.payments && db.payments[p].registration == r then
      Some(ThePayment(db, r))
    else None
  }

  function ThePayment(db: Db, r: Id): (p: Id)
    requires OnePaymentEach(db) && HasPayment(db, r)
    ensures p in db.payments && db.payments[p].registration == r
  {
    var p :| p in db.payments && db.payments[p].registration == r;
    p
  }

  // ---- Reconciling a batch ----

  /** The decision for each payment as it was claimed. */
  ghost function Decisions(claimed: Db, provider: Provider, ask: Id -> Answer, failing: Id -> Failing, time: Id -> Instant): Id -> Decision {
    p => if p in claimed.payments then Faced(Decide(claimed.payments[p], provider, ask(p), time(p)), failing(p)) else GiveUp
  }

  /** The batch a claim has returned: distinct payments, held by the worker, none of them manual. */
  ghost predicate Batch(claimed: Db, batch: seq<Id>, worker: Id) {
    && (forall i, j :: 0 <= i < j < |batch| ==> batch[i] != batch[j])
    && forall p :: p in batch ==>
         p in claimed.payments && claimed.payments[p].HeldBy(worker) && !claimed.payments[p].provider.Manual?
  }

  lemma ClaimGivesBatch(db: Db, worker: Id, now: Instant, limit: nat, batch: seq<Id>)
    requires R.FirstDue(db, now, limit, batch) && OnePaymentEach(db)
    ensures Batch(S.ClaimPendingPayments(db, worker, now, R.Elements(batch)), batch, worker)
  {
  }

  lemma NothingHandled(claimed: Db, batch: seq<Id>, decide: Id -> Decision, time: Id -> Instant)
    requires OnePaymentEach(claimed)
    ensures Handled(claimed, claimed, batch, 0, decide, time)
  {
  }

  lemma NextStillClaimed(claimed: Db, db: Db, batch: seq<Id>, k: nat, decide: Id -> Decision, time: Id -> Instant, worker: Id)
    requires Batch(claimed, batch, worker) && k < |batch| && Handled(claimed, db, batch, k, decide, time)
    ensures batch[k] in db.payments && db.payments[batch[k]] == claimed.payments[batch[k]]
  {
    assert batch[k] !in batch[..k];
    assert Untouched(claimed, db, batch[k]);
  }

  lemma HandlesNext(claimed: Db, db: Db, batch: seq<Id>, k: nat, decide: Id -> Decision, time: Id -> Instant, worker: Id, token: Id)
    requires Batch(claimed, batch, worker) && k < |batch| && Handled(claimed, db, batch, k, decide, time)
    requires OnePaymentEach(db) && batch[k] in db.payments && db.payments[batch[k]].HeldBy(worker)
    ensures Handled(claimed, Acted(db, decide(batch[k]), batch[k], worker, time(batch[k]), token), batch, k + 1, decide, time)
  {
    var p := batch[k];
    var db' := Acted(db, decide(p), p, worker, time(p), token);
    ActedReconciles(db, decide(p), p, worker, time(p), token);
    forall q | q in claimed.payments && q != p ensures Untouched(db, db', q) {
      HandledHas(claimed, db, batch, k, decide, time, q);
      ActedLeaves(db, decide(p), p, worker, time(p), token, q);
    }
    HandledNext(claimed, db, db', batch, k, decide, time);
  }

  /** An entry without a payment is as it was. */
  ghost predicate UnpaidSame(before: Db, after: Db) {
    forall r :: r in before.registrations && !HasPayment(before, r) ==>
      && !HasPayment(after, r) && r in after.registrations && after.registrations[r] == before.registrations[r]
      && (r in after.tickets <==> r in before.tickets)
  }

  /** A pass touches the entry of its payment only, and adds no payment. */
  lemma ActedTouches(db: Db, decision: Decision, p: Id, worker: Id, now: Instant, token: Id, r: Id)
    requires p in db.payments && r in db.registrations && r != db.payments[p].registration
    ensures var after := Acted(db, decision, p, worker, now, token);
      && r in after.registrations && after.registrations[r] == db.registrations[r] && (r in after.tickets <==> r in db.tickets)
      && (HasPayment(after, r) ==> HasPayment(db, r))
  {
    match decision {
      case RetryAfter(delay) => RetryTouches(db, p, worker, now + delay, r);
      case GiveUp => GiveUpTouches(db, p, worker, r);
      case AcceptPayment => AcceptTouches(db, p, token, r);
      case LeaveLease =>
    }
  }

  lemma RetryTouches(db: Db, p: Id, worker: Id, next: Instant, r: Id)
    ensures var after := S.SchedulePaymentReconciliation(db, p, worker, next);
      after.registrations == db.registrations && after.tickets == db.tickets && (HasPayment(after, r) ==> HasPayment(db, r))
  {
  }

  lemma GiveUpTouches(db: Db, p: Id, worker: Id, r: Id)
    requires p in db.payments && r in db.registrations && r != db.payments[p].registration
    ensures var after := S.ExpireClaimedPayment(db, db.payments[p].registration, p, worker);
      && r in after.registrations && after.registrations[r] == db.registrations[r] && after.tickets == db.tickets
      && (HasPayment(after, r) ==> HasPayment(db, r))
  {
    if db.StatusIs(db.payments[p].registration, Pending) {}
  }

  lemma AcceptTouches(db: Db, p: Id, token: Id, r: Id)
    requires p in db.payments && r in db.registrations && r != db.payments[p].registration
    ensures var after := S.ConfirmStoredPayment(db, db.payments[p].registration, p, token);
      && r in after.registrations && after.registrations[r] == db.registrations[r] && (r in after.tickets <==> r in db.tickets)
      && (HasPayment(after, r) ==> HasPayment(db, r))
  {
    if db.StatusIs(db.payments[p].registration, Pending) {}
  }

  lemma UnpaidStays(claimed: Db, db: Db, decision: Decision, p: Id, worker: Id, now: Instant, token: Id)
    requires UnpaidSame(claimed, db) && p in db.payments
    ensures UnpaidSame(claimed, Acted(db, decision, p, worker, now, token))
  {
    forall r | r in claimed.registrations && !HasPayment(claimed, r)
      ensures var after := Acted(db, decision, p, worker, now, token);
        && !HasPayment(after, r) && r in after.registrations && after.registrations[r] == claimed.registrations[r]
        && (r in after.tickets <==> r in claimed.tickets)
    {
      assert !HasPayment(db, r);
      ActedTouches(db, decision, p, worker, now, token, r);
    }
  }

  lemma HandledHas(claimed: Db, db: Db, batch: seq<Id>, k: nat, decide: Id -> Decision, time: Id -> Instant, q: Id)
    requires Handled(claimed, db, batch, k, decide, time) && k < |batch| && q in claimed.payments
    ensures q in db.payments
  {
    if q in batch[..k] {
      var i :| 0 <= i < k && batch[i] == q;
      assert Reconciled(claimed, db, batch[i], decide(batch[i]), time(batch[i]));
    } else {
      assert Untouched(claimed, db, q);
    }
  }

  class Service {
    const repository: R.Repository
    const provider: Provider
    var notices: seq<Id>

    ghost predicate Valid()
      reads this, repository
    {
      T.Agrees(repository.Tables()) && Announced(repository.Tables(), notices)
    }

    constructor (repository: R.Repository, provider: Provider)
      requires T.Agrees(repository.Tables()) && repository.tickets == map[]
      ensures Valid() && this.repository == repository && notices == []
    {
      this.repository, this.provider, notices := repository, provider, [];
    }

    /** The free path: registration, ticket and stored response in one transaction. */
    method RegisterFree(params: CreateParams, year: nat, id: Id, now: Instant) returns (result: Result<Registration, S.RepoError>)
      requires Valid() && params.WellFormed() && params.confirm && id !in repository.registrations
      modifies this`notices, repository
      ensures Valid()
      ensures match result
        case Err(error) =>
          T.CreateError(old(repository.Tables()), params) == Some(error) && repository.Tables() == old(repository.Tables()) && notices == old(notices)
        case Ok(_) =>
          && T.CreateError(old(repository.Tables()), params).None?
          && repository.Tables() == T.Created(old(repository.Tables()), params, year, id, now) && notices == old(notices) + [id]
    {
      ghost var before := repository.Tables();
      result := repository.Create(params, year, id, now);
      if result.Ok? {
        T.CreateAgrees(before, params, year, id, now);
        CreatedAnnounces(before, params, year, id, now, notices);
        notices := notices + [id];
      }
    }

    /** registerPaid after its Create has committed registration r. */
    method Pay(r: Id, opening: Opening, p: Id, token: Id) returns (accepted: bool)
      requires repository.Tables().StatusIs(r, Pending) && r !in repository.tickets && Fresh(repository.Tables(), r, opening, p)
      modifies this`notices, repository
      ensures repository.Tables() == PaymentOpened(old(repository.Tables()), r, opening, p, token)
      ensures accepted == Accepts(old(repository.Tables()), r, opening)
      ensures notices == old(notices) + if accepted && opening.payment.status.Succeeded? then [r] else []
    {
      if opening.ProviderError? {
        var released := repository.Cancel(r);
        return false;
      }
      var payment := opening.payment;
      if payment.status.Succeeded? {
        var error := repository.ConfirmWithPayment(r, p, payment, token);
        accepted := error.None?;
        if accepted {
          notices := notices + [r];
        }
      } else {
        var error := repository.CreatePayment(p, payment);
        accepted := error.None? && !payment.status.Failed?;
        if !accepted {
          var released := repository.Cancel(r);
        }
      }
    }

    /** The paid path: the place is taken before the provider is asked, outside any transaction. */
    method RegisterPaid(params: CreateParams, year: nat, id: Id, opening: Opening, p: Id, token: Id, now: Instant)
      returns (result: Result<bool, S.RepoError>)
      requires Valid() && !params.confirm && params.hook.None? && id !in repository.registrations
      requires Fresh(repository.Tables(), id, opening, p)
      modifies this`notices, repository
      ensures Valid()
      ensures match result
        case Err(error) =>
          T.CreateError(old(repository.Tables()), params) == Some(error) && repository.Tables() == old(repository.Tables()) && notices == old(notices)
        case Ok(accepted) =>
          var created := T.Created(old(repository.Tables()), params, year, id, now);
          && T.CreateError(old(repository.Tables()), params).None?
          && accepted == Accepts(created, id, opening) && repository.Tables() == PaymentOpened(created, id, opening, p, token)
          && notices == old(notices) + if accepted && opening.payment.status.Succeeded? then [id] else []
    {
      ghost var before := repository.Tables();
      var created := repository.Create(params, year, id, now);
      if created.Err? {
        return Err(created.error);
      }
      ghost var after := repository.Tables();
      T.CreateAgrees(before, params, year, id, now);
      CreatedAnnounces(before, params, year, id, now, notices);
      CreatedAwaits(before, params, year, id, now);
      PaidAgrees(after, id, opening, p, token);
      PaidAnnounces(after, id, opening, p, token, notices);
      var accepted := Pay(id, opening, p, token);
      result := Ok(accepted);
    }

    method ExpirePendingPayments(now: Instant)
      requires Valid()
      modifies repository
      ensures Valid() && repository.Tables() == T.ExpirePendingPayments(old(repository.Tables()), now)
    {
      T.SweepAgreesAlone(repository.Tables(), now);
      SweepAnnounces(repository.Tables(), now, notices);
      var freed := repository.ExpirePendingPayments(now);
    }

    /** After the lookup and the sweep: a place is refused, or taken and paid for. */
    method Enter(request: Request, year: nat, id: Id, opening: Opening, p: Id, token: Id, now: Instant) returns (response: Response)
      requires Valid() && id !in repository.registrations && Fresh(repository.Tables(), id, opening, p)
      requires request.hook.Some? ==> request.hook.value.0.user == request.user && request.hook.value.0 !in repository.outcomes
      modifies this`notices, repository
      ensures Valid() && EntryMade(old(repository.Tables()), repository.Tables(), request, id, response)
      ensures response == EntryResponse(old(repository.Tables()), request, year, id, opening, token, now)
      ensures RefusalLeaves(old(repository.Tables()), repository.Tables(), request, year, id, opening, token, now, response)
      ensures response.Rejected? ==> notices == old(notices)
    {
      if request.free {
        FreeEntered(repository.Tables(), request, year, id, opening, p, token, now);
        response := EnterFree(request, year, id, opening, p, token, now);
      } else {
        PaidEntered(repository.Tables(), request, year, id, opening, p, token, now);
        response := EnterPaid(request, year, id, opening, p, token, now);
      }
    }

    method EnterFree(request: Request, year: nat, id: Id, opening: Opening, p: Id, token: Id, now: Instant) returns (response: Response)
      requires Valid() && request.free && id !in repository.registrations
      requires request.hook.Some? ==> request.hook.value.0.user == request.user
      modifies this`notices, repository
      ensures Valid() && repository.Tables() == Entered(old(repository.Tables()), request, year, id, opening, p, token, now)
      ensures response == EntryResponse(old(repository.Tables()), request, year, id, opening, token, now)
      ensures response.Rejected? ==> notices == old(notices)
    {
      var result := RegisterFree(Params(request, token), year, id, now);
      response := match result case Err(error) => Rejected(Repository(error)) case Ok(_) => Registered(id);
    }

    method EnterPaid(request: Request, year: nat, id: Id, opening: Opening, p: Id, token: Id, now: Instant) returns (response: Response)
      requires Valid() && !request.free && id !in repository.registrations && Fresh(repository.Tables(), id, opening, p)
      requires request.hook.Some? ==> request.hook.value.0.user == request.user
      modifies this`notices, repository
      ensures Valid() && repository.Tables() == Entered(old(repository.Tables()), request, year, id, opening, p, token, now)
      ensures response == EntryResponse(old(repository.Tables()), request, year, id, opening, token, now)
      ensures response.Rejected? ==> notices == old(notices)
    {
      PaidEntryPlace(repository.Tables(), request, year, id, opening, p, token, now);
      var result := RegisterPaid(Params(request, token), year, id, opening, p, token, now);
      if result.Err? {
        return Rejected(Repository(result.error));
      }
      if !result.value {
        return Rejected(PaymentFailed);
      }
      StorePaid(request, id, now);
      response := Registered(id);
    }

    method StorePaid(request: Request, id: Id, now: Instant)
      requires Valid() && id in repository.registrations && repository.registrations[id].user == request.user
      requires request.hook.Some? ==> request.hook.value.0.user == request.user
      modifies repository
      ensures Valid() && repository.Tables() == StoredPaid(old(repository.Tables()), request, id, now)
    {
      StoredPaidAgrees(repository.Tables(), request, id, now);
      if request.hook.Some? {
        repository.StoreOutcome(request.hook.value.0, Outcome(request.hook.value.1, id, false, now + OUTCOME_TTL));
      }
    }

    /**
     * A stored response is replayed and a reused key refused, without touching anything; any other request
     * is answered on the tables as the sweep leaves them.
     */
    method Register(request: Request, year: nat, id: Id, opening: Opening, p: Id, token: Id, now: Instant) returns (response: Response)
      requires Valid() && id !in repository.registrations && Fresh(repository.Tables(), id, opening, p)
      requires request.hook.Some? ==> request.hook.value.0.user == request.user
      modifies this`notices, repository
      ensures Valid()
      ensures match Found(old(repository.Tables()), request)
        case Replay(outcome) =>
          response == Replayed(outcome) && repository.Tables() == old(repository.Tables()) && notices == old(notices)
        case Conflict =>
          response == Rejected(KeyReused) && repository.Tables() == old(repository.Tables()) && notices == old(notices)
        case NoRecord =>
          var swept := T.ExpirePendingPayments(old(repository.Tables()), now);
          && EntryMade(swept, repository.Tables(), request, id, response)
          && (match RefusalBefore(swept, request)
              case Some(why) => response == Rejected(why) && repository.Tables() == swept
              case None =>
                && response == EntryResponse(swept, request, year, id, opening, token, now)
                && RefusalLeaves(swept, repository.Tables(), request, year, id, opening, token, now, response))
          && (response.Rejected? ==> notices == old(notices))
    {
      if request.hook.Some? {
        var (key, hash) := request.hook.value;
        var found := repository.Lookup(key, hash);
        match found {
          case Replay(outcome) => return Replayed(outcome);
          case Conflict => return Rejected(KeyReused);
          case NoRecord =>
        }
      }
      SweepKeepsKeys(repository.Tables(), now, id, opening, p);
      ExpirePendingPayments(now);
      if !request.allowed {
        return Rejected(RateLimited);
      }
      if request.category !in repository.categories || repository.categories[request.category].event != request.event {
        return Rejected(InvalidCategory);
      }
      if !request.open {
        return Rejected(Closed);
      }
      if repository.Tables().Taken(request.user, request.event) {
        return Rejected(AlreadyRegistered);
      }
      if !request.unlocked {
        return Rejected(LockNotAcquired);
      }
      response := Enter(request, year, id, opening, p, token, now);
    }

    /** Runs the transaction a decision leads to, and announces what it has newly confirmed. */
    method Act(decision: Decision, stored: Payment, p: Id, worker: Id, now: Instant, token: Id)
      requires p in repository.payments && repository.payments[p] == stored
      modifies this`notices, repository
      ensures repository.Tables() == Acted(old(repository.Tables()), decision, p, worker, now, token)
      ensures notices == old(notices) +
        if NewlyConfirms(old(repository.Tables()), decision, p) then [stored.registration] else []
    {
      match decision {
        case RetryAfter(delay) =>
          repository.SchedulePaymentReconciliation(p, worker, now + delay);
        case GiveUp =>
          var result := repository.ExpireClaimedPayment(stored.registration, p, worker);
        case AcceptPayment =>
          var result := repository.ConfirmStoredPayment(stored.registration, p, token);
          if result == Ok(true) {
            notices := notices + [stored.registration];
          }
        case LeaveLease =>
      }
    }

    /** One claimed payment: its provider is asked, and the answer decides; failing is what becomes of the updates it leads to. */
    method ReconcilePayment(stored: Payment, p: Id, worker: Id, answer: Answer, failing: Failing, now: Instant, token: Id)
      requires Valid() && p in repository.payments && repository.payments[p] == stored
      requires stored.HeldBy(worker) && !stored.provider.Manual?
      modifies this`notices, repository
      ensures Valid()
      ensures repository.Tables() == Acted(old(repository.Tables()), Faced(Decide(stored, provider, answer, now), failing), p, worker, now, token)
    {
      var decision := Faced(Decide(stored, provider, answer, now), failing);
      ActedAgrees(repository.Tables(), decision, p, worker, now, token);
      ActedAnnounces(repository.Tables(), decision, p, worker, now, token, notices);
      Act(decision, stored, p, worker, now, token);
    }

    /** One pass: each claimed payment gets what its own answer decides, whatever the others get. */
    method ReconcilePendingPayments(worker: Id, now: Instant, limit: int,
          ask: Id -> Answer, failing: Id -> Failing, time: Id -> Instant, token: Id -> Id)
      returns (batch: seq<Id>)
      requires Valid()
      modifies this`notices, repository
      ensures Valid() && R.FirstDue(old(repository.Tables()), now, R.EffectiveLimit(limit), batch)
      ensures var claimed := S.ClaimPendingPayments(old(repository.Tables()), worker, now, R.Elements(batch));
        && Handled(claimed, repository.Tables(), batch, |batch|, Decisions(claimed, provider, ask, failing, time), time)
        && UnpaidSame(claimed, repository.Tables())
    {
      batch := ClaimBatch(worker, now, limit);
      ghost var claimed := repository.Tables();
      ghost var decide := Decisions(claimed, provider, ask, failing, time);
      AgreesOnePayment(claimed);
      NothingHandled(claimed, batch, decide, time);
      for k := 0 to |batch|
        invariant Valid() && Handled(claimed, repository.Tables(), batch, k, decide, time) && UnpaidSame(claimed, repository.Tables())
      {
        NextStillClaimed(claimed, repository.Tables(), batch, k, decide, time, worker);
        AgreesOnePayment(repository.Tables());
        HandlesNext(claimed, repository.Tables(), batch, k, decide, time, worker, token(batch[k]));
        var p := batch[k];
        UnpaidStays(claimed, repository.Tables(), decide(p), p, worker, time(p), token(p));
        ReconcilePayment(repository.payments[p], p, worker, ask(p), failing(p), time(p), token(p));
      }
    }

    method ClaimBatch(worker: Id, now: Instant, limit: int) returns (batch: seq<Id>)
      requires Valid()
      modifies repository
      ensures Valid() && R.FirstDue(old(repository.Tables()), now, R.EffectiveLimit(limit), batch)
      ensures repository.Tables() == S.ClaimPendingPayments(old(repository.Tables()), worker, now, R.Elements(batch))
      ensures Batch(repository.Tables(), batch, worker)
    {
      ghost var before := repository.Tables();
      batch := repository.ClaimPendingPayments(worker, now, limit);
      R.FirstDueClaimable(before, now, limit, batch);
      T.ClaimAgreesAlone(before, worker, now, R.Elements(batch));
      AgreesOnePayment(before);
      ClaimGivesBatch(before, worker, now, R.EffectiveLimit(limit), batch);
    }

    /** ConfirmStoredPayment for a payment the caller has read, and the notice it leads to. */
    method Settle(r: Id, p: Id, token: Id)
      requires Valid() && EntryEnabled(T.Alone(repository.Tables(), 0), r, SettleStored(p, token))
      modifies this`notices, repository
      ensures Valid() && repository.Tables() == S.ConfirmStoredPayment(old(repository.Tables()), r, p, token)
      ensures notices == old(notices) + if old(repository.Tables()).StatusIs(r, Pending) then [r] else []
    {
      T.EntryAgrees(repository.Tables(), 0, r, SettleStored(p, token));
      ConfirmAnnounces(repository.Tables(), r, p, token, notices);
      var result := repository.ConfirmStoredPayment(r, p, token);
      if result == Ok(true) {
        notices := notices + [r];
      }
      assert notices == old(notices) + [] || result == Ok(true);
    }

    method VerifyPayment(r: Id, answer: Answer, now: Instant, token: Id) returns (verdict: Verdict)
      requires Valid() && r in repository.registrations && OnePaymentEach(repository.Tables())
      modifies this`notices, repository
      ensures Valid()
      ensures match PaymentOf(old(repository.Tables()), r)
        case None => verdict == NoPayment && repository.Tables() == old(repository.Tables())
        case Some(p) =>
          && verdict == Verify(old(repository.registrations)[r].status, old(repository.payments)[p], provider, answer, now)
          && repository.Tables() == Verified(old(repository.Tables()), r, p, verdict, now, token)
      ensures notices == old(notices) + if verdict.Settles? then [r] else []
    {
      var found := PaymentOf(repository.Tables(), r);
      if found.None? {
        return NoPayment;
      }
      var p := found.value;
      verdict := Verify(repository.registrations[r].status, repository.payments[p], provider, answer, now);
      match verdict {
        case HasExpired => ExpirePendingPayments(now);
        case Settles => Settle(r, p, token);
        case _ =>
      }
    }

    method ReviewManualPayment(r: Id, approved: bool, token: Id) returns (error: Option<S.RepoError>)
      requires Valid() && OnePaymentEach(repository.Tables())
      modifies this`notices, repository
      ensures Valid()
      ensures match PaymentOf(old(repository.Tables()), r)
        case None => error == Some(S.NotFound) && repository.Tables() == old(repository.Tables())
        case Some(p) =>
          if approved then
            error == S.ApproveManualError(old(repository.Tables()), r, p)
            && repository.Tables() == S.ApproveManualPayment(old(repository.Tables()), r, p, token)
          else
            error == S.FailManualError(old(repository.Tables()), r)
            && repository.Tables() == S.FailManualPayment(old(repository.Tables()), r)
      ensures notices == old(notices) + if approved && error.None? then [r] else []
    {
      var found := PaymentOf(repository.Tables(), r);
      if found.None? {
        return Some(S.NotFound);
      }
      if approved {
        error := Approve(r, found.value, token);
      } else {
        error := Reject(r);
      }
    }

    method Approve(r: Id, p: Id, token: Id) returns (error: Option<S.RepoError>)
      requires Valid()
      modifies this`notices, repository
      ensures Valid() && repository.Tables() == S.ApproveManualPayment(old(repository.Tables()), r, p, token)
      ensures error == S.ApproveManualError(old(repository.Tables()), r, p)
      ensures notices == old(notices) + if error.None? then [r] else []
    {
      T.EntryAgrees(repository.Tables(), 0, r, ApproveManual(p, token));
      ConfirmAnnounces(repository.Tables(), r, p, token, notices);
      var result := repository.ApproveManualPayment(r, p, token);
      if result.Ok? {
        notices := notices + [r];
      }
      error := match result case Ok(_) => None case Err(e) => Some(e);
    }

    method Reject(r: Id) returns (error: Option<S.RepoError>)
      requires Valid()
      modifies repository
      ensures Valid() && repository.Tables() == S.FailManualPayment(old(repository.Tables()), r)
      ensures error == S.FailManualError(old(repository.Tables()), r)
    {
      T.EntryAgrees(repository.Tables(), 0, r, RejectManual);
      ReleaseTickets(repository.Tables(), r);
      SameTicketsAnnounce(repository.Tables(), S.FailManualPayment(repository.Tables(), r), notices);
      var result := repository.FailManualPayment(r);
      error := match result case Ok(_) => None case Err(e) => Some(e);
    }

    /** Refused for an entry that holds no place, or whose runner has checked in. */
    method Cancel(r: Id) returns (cancelled: bool)
      requires Valid()
      modifies repository
      ensures Valid()
      ensures cancelled <==>
        r in old(repository.registrations) && old(repository.registrations)[r].status.Active() && r !in old(repository.checkIns)
      ensures repository.Tables() == if cancelled then S.Cancel(old(repository.Tables()), r) else old(repository.Tables())
    {
      if r !in repository.registrations || !repository.registrations[r].status.Active() || r in repository.checkIns {
        return false;
      }
      T.CancelAgreesAlone(repository.Tables(), r);
      ReleaseTickets(repository.Tables(), r);
      SameTicketsAnnounce(repository.Tables(), S.Cancel(repository.Tables(), r), notices);
      var error := repository.Cancel(r);
      cancelled := true;
    }

    /** Only a confirmed entry, of the event the gate is set to if there is one, and only once. */
    method CheckIn(r: Id, event: Option<Id>, staff: Id) returns (checkedIn: bool)
      requires Valid()
      modifies repository
      ensures Valid()
      ensures checkedIn <==>
        && old(repository.Tables()).StatusIs(r, Confirmed) && r !in old(repository.checkIns)
        && (event.Some? ==> old(repository.registrations)[r].event == event.value)
      ensures repository.Tables() == old(repository.Tables()).(checkIns :=
        if checkedIn then old(repository.checkIns)[r := staff] else old(repository.checkIns))
    {
      if r !in repository.registrations || !repository.registrations[r].status.Confirmed? {
        return false;
      }
      if event.Some? && repository.registrations[r].event != event.value {
        return false;
      }
      if r !in repository.checkIns {
        T.CheckInAgrees(repository.Tables(), r, staff);
      }
      checkedIn := repository.RecordCheckIn(r, staff);
    }

    /** A reference is taken only for a pending transfer that has not expired; one that has runs the sweep. */
    method SubmitManualPayment(r: Id, reference: Id, validLength: bool, now: Instant) returns (answer: Submission)
      requires Valid() && r in repository.registrations && OnePaymentEach(repository.Tables())
      modifies repository
      ensures Valid()
      ensures var (db, p) := (old(repository.Tables()), PaymentOf(old(repository.Tables()), r));
        match SubmissionRefused(db.registrations[r].status, if p.Some? then Some(db.payments[p.value]) else None, validLength, now)
        case Some(refusal) =>
          answer == refusal && repository.Tables() == if refusal.TooLate? then T.ExpirePendingPayments(db, now) else db
        case None =>
          && repository.Tables() == S.SubmitManualPayment(db, r, reference, now)
          && answer == match S.SubmitManualError(db, r, reference, now) case Some(error) => RefusedBy(error) case None => Submitted
    {
      var found := PaymentOf(repository.Tables(), r);
      var stored := if found.Some? then Some(repository.payments[found.value]) else None;
      var refused := SubmissionRefused(repository.registrations[r].status, stored, validLength, now);
      match refused {
        case Some(refusal) =>
          if refusal.TooLate? {
            ExpirePendingPayments(now);
          }
          answer := refusal;
        case None =>
          answer := Submit(r, reference, now);
      }
    }

    method Submit(r: Id, reference: Id, now: Instant) returns (answer: Submission)
      requires Valid()
      modifies repository
      ensures Valid() && repository.Tables() == S.SubmitManualPayment(old(repository.Tables()), r, reference, now)
      ensures answer == match S.SubmitManualError(old(repository.Tables()), r, reference, now)
        case Some(error) => RefusedBy(error)
        case None => Submitted
    {
      T.EntryAgrees(repository.Tables(), now, r, SubmitReference(reference));
      SubmitKeepsTickets(repository.Tables(), r, reference, now);
      SameTicketsAnnounce(repository.Tables(), S.SubmitManualPayment(repository.Tables(), r, reference, now), notices);
      var error := repository.SubmitManualPayment(r, reference, now);
      answer := match error case Some(e) => RefusedBy(e) case None => Submitted;
    }
  }
}
