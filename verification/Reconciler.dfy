/** The reconciler's decision for one claimed payment, and why its passes come to an end. */
module Reconciler {
  import opened Wrappers
  import opened Backoffs
  import opened Tables
  import opened Statements
  import opened Protocol
  import opened PaymentInvariant
  import opened ProtocolInvariant
  import opened StepInvariant
  import opened Guarantees
  import opened Leases

  /** What the provider answers when asked about a payment. */
  datatype Answer =
    | Unreachable
    | StillPending
    | Settled(amountCents: int, currency: Currency)
    | Otherwise

  /** LeaveLease writes nothing: the next claim has to wait for the lease to run out. No answer decides it. */
  datatype Decision = RetryAfter(delay: int) | GiveUp | AcceptPayment | LeaveLease

  /** Which of the updates of one pass fail: none, the one that the answer decides, or the rescheduling after it too. */
  datatype Failing = NoneFails | FirstFails | BothFail

  /** 15 s doubled per attempt, at most six times. */
  function Backoff(attempts: nat): int {
    Power2(if attempts < 6 then attempts else 6) * 15
  }

  function Decide(stored: Payment, provider: Provider, answer: Answer, now: Instant): (decision: Decision)
    ensures !decision.LeaveLease?
  {
    if stored.provider != provider || stored.reference.None? then RetryAfter(15 * MINUTE)
    else match answer
      case Unreachable => RetryAfter(Backoff(stored.attempts))
      case StillPending =>
        if stored.expiresAt.Some? && now > stored.expiresAt.value then GiveUp else RetryAfter(15)
      case Otherwise => RetryAfter(5 * MINUTE)
      case Settled(amountCents, currency) =>
        if amountCents != stored.amountCents || currency != stored.currency then RetryAfter(15 * MINUTE) else AcceptPayment
  }

  lemma {:induction false} BackoffBounds(attempts: nat)
    ensures 15 <= Backoff(attempts) <= 960
  {
    var n := if attempts < 6 then attempts else 6;
    assert 1 <= Power2(n) <= 64 by {
      assert Power2(0) == 1 && Power2(1) == 2 && Power2(2) == 4 && Power2(3) == 8;
      assert Power2(4) == 2 * Power2(3) && Power2(5) == 2 * Power2(4) && Power2(6) == 2 * Power2(5);
      assert n == 0 || n == 1 || n == 2 || n == 3 || n == 4 || n == 5 || n == 6;
    }
  }

  /** A pass that neither confirms nor gives up comes back after 15 s to 16 min. */
  lemma DelayBounds(stored: Payment, provider: Provider, answer: Answer, now: Instant)
    ensures Decide(stored, provider, answer, now).RetryAfter? ==> 15 <= Decide(stored, provider, answer, now).delay <= 16 * MINUTE
  {
    BackoffBounds(stored.attempts);
  }

  /** The payment's own provider is asked, and answers that nobody has paid although the payment has expired. */
  predicate ForfeitedBy(stored: Payment, provider: Provider, answer: Answer, now: Instant) {
    && stored.provider == provider && stored.reference.Some? && answer.StillPending?
    && stored.expiresAt.Some? && now > stored.expiresAt.value
  }

  /** The payment's own provider is asked, and answers that exactly the amount due has been paid. */
  predicate PaidBy(stored: Payment, provider: Provider, answer: Answer) {
    stored.provider == provider && stored.reference.Some? && answer == Settled(stored.amountCents, stored.currency)
  }

  /** When its transaction fails the payment is rescheduled in a minute; when that fails, or a rescheduling does, the error is dropped. */
  function Faced(decision: Decision, failing: Failing): Decision {
    match failing
    case NoneFails => decision
    case FirstFails => if decision.RetryAfter? then LeaveLease else RetryAfter(MINUTE)
    case BothFail => LeaveLease
  }

  /** The repository call a decision leads to. */
  function Act(decision: Decision, r: Id, p: Id, worker: Id, now: Instant, token: Id): Action
    requires !decision.LeaveLease?
  {
    match decision
    case RetryAfter(delay) => Work(Reschedule(p, worker, now + delay))
    case GiveUp => Entry(r, EntryStep.ExpireClaimed(p, worker))
    case AcceptPayment => Entry(r, SettleStored(p, token))
  }

  /** One pass over a payment: claimed by step claim, and finished by step finish at time now. */
  datatype Pass = Pass(claim: nat, finish: nat, worker: Id, now: Instant)

  /** One more state than actions. */
  predicate Shaped(run: Run) {
    |run.states| == |run.actions| + 1
  }

  ghost predicate Undisturbed(run: Run, i: nat, j: nat, p: Id)
    requires Shaped(run) && j <= |run.actions|
  {
    forall m :: i <= m < j ==> !Claims(run.actions[m], p) && !Reschedules(run.states[m], run.actions[m], p)
  }

  /** The pass finds the provider still pending, and its claim is not superseded before it finishes. */
  ghost predicate PendingPass(run: Run, pass: Pass, p: Id)
    requires Shaped(run)
  {
    && pass.claim < pass.finish < |run.actions|
    && Claims(run.actions[pass.claim], p) && run.actions[pass.claim].work.worker == pass.worker
    && run.actions[pass.claim].work.now <= pass.now
    && Undisturbed(run, pass.claim + 1, pass.finish, p)
    && p in run.states[pass.claim + 1].db.payments
    && var stored := run.states[pass.claim + 1].db.payments[p];
       stored.reference.Some? &&
       run.actions[pass.finish] == Act(Decide(stored, stored.provider, StillPending, pass.now), stored.registration, p, pass.worker, pass.now, 0)
  }

  /** Successive passes, with no other claim of the payment in between. */
  ghost predicate PendingPasses(run: Run, passes: seq<Pass>, p: Id)
    requires Shaped(run)
  {
    && (forall k :: 0 <= k < |passes| ==> PendingPass(run, passes[k], p))
    && (forall k :: 0 <= k < |passes| - 1 ==>
          passes[k].finish < passes[k + 1].claim && Undisturbed(run, passes[k].finish + 1, passes[k + 1].claim, p))
  }

  lemma {:induction false} UndisturbedLease(run: Run, i: nat, j: nat, p: Id)
    requires run.Valid() && i <= j < |run.states| && Undisturbed(run, i, j, p) && p in run.states[i].db.payments
    ensures p in run.states[j].db.payments
    ensures run.states[j].db.payments[p].status.Awaiting? ==>
      run.states[i].db.payments[p].status.Awaiting? && SameLease(run.states[i].db.payments[p], run.states[j].db.payments[p])
    decreases j
  {
    if i < j {
      UndisturbedLease(run, i, j - 1, p);
      LeaseStep(run.states[j - 1], run.actions[j - 1], p);
    }
  }

  /** Giving up fails the payment and, if the entry is still PENDING, releases its place. */
  lemma GivingUpReleases(s: Sys, p: Id, worker: Id)
    requires OnePaymentEach(s.db) && p in s.db.payments && s.db.payments[p].HeldBy(worker)
    ensures var (r, db') := (s.db.payments[p].registration, ExpireClaimedPayment(s.db, s.db.payments[p].registration, p, worker));
      && p in db'.payments && db'.payments[p].status.Failed?
      && (s.db.StatusIs(r, Pending) ==> db'.StatusIs(r, Expired))
  {
    if s.db.StatusIs(s.db.payments[p].registration, Pending) {}
  }

  /** Within a pass the payment, if it is still PENDING at the end, was PENDING and due when it was claimed. */
  lemma PassHolds(run: Run, pass: Pass, p: Id)
    requires run.Valid() && PendingPass(run, pass, p)
    ensures p in run.states[pass.claim].db.payments && p in run.states[pass.finish].db.payments
    ensures run.states[pass.finish].db.payments[p].status.Awaiting? ==>
      && run.states[pass.claim].db.payments[p].status.Awaiting?
      && run.states[pass.claim].db.payments[p].reconcileAfter <= pass.now
      && run.states[pass.finish].db.payments[p].HeldBy(pass.worker)
  {
    assert Enabled(run.states[pass.claim], run.actions[pass.claim]);
    LeaseStep(run.states[pass.claim], run.actions[pass.claim], p);
    UndisturbedLease(run, pass.claim + 1, pass.finish, p);
  }

  /** The last action of a pass, before the expiry and after it. */
  lemma PassAction(run: Run, pass: Pass, p: Id, expiry: Instant)
    requires Shaped(run) && PendingPass(run, pass, p)
    requires run.states[pass.claim + 1].db.payments[p].expiresAt == Some(expiry)
    ensures run.actions[pass.finish] ==
      if pass.now > expiry then Entry(run.states[pass.claim + 1].db.payments[p].registration, EntryStep.ExpireClaimed(p, pass.worker))
      else Work(Reschedule(p, pass.worker, pass.now + 15))
  {
  }

  /**
   * A pass leaves the payment PENDING only before its expiry, and then asks again 15 s later; after the
   * expiry it fails the payment and releases the place.
   */
  lemma PassOutcome(run: Run, pass: Pass, p: Id, expiry: Instant)
    requires run.Valid() && Inv(run.states[0]) && PendingPass(run, pass, p)
    requires p in run.states[pass.finish].db.payments && run.states[pass.finish].db.payments[p].expiresAt == Some(expiry)
    ensures PassEnds(run.states[pass.finish].db, run.states[pass.finish + 1].db, pass.now, p, expiry)
  {
    var s := run.states[pass.finish];
    PassHolds(run, pass, p);
    SettledForGood(run, pass.claim + 1, pass.finish, p);
    PassAction(run, pass, p, expiry);
    LeaseStep(s, run.actions[pass.finish], p);
    if s.db.payments[p].status.Awaiting? && pass.now > expiry {
      RunKeepsInv(run, pass.finish);
      GivingUpReleases(s, p, pass.worker);
    }
  }

  ghost predicate PassEnds(db: Db, db': Db, now: Instant, p: Id, expiry: Instant)
    requires p in db.payments
  {
    && p in db'.payments
    && (db'.payments[p].status.Awaiting? ==>
          now <= expiry && db.payments[p].status.Awaiting? && db'.payments[p].reconcileAfter == now + 15)
    && (db.payments[p].status.Awaiting? && now > expiry ==>
          db'.payments[p].status.Failed? && !db'.StatusIs(db.payments[p].registration, Pending))
  }

  /** The pass after one at time before is at least 15 s later, if the payment is still PENDING at its end. */
  lemma PassLater(run: Run, i: nat, before: Instant, pass: Pass, p: Id)
    requires run.Valid() && PendingPass(run, pass, p) && i <= pass.claim && Undisturbed(run, i, pass.claim, p)
    requires p in run.states[i].db.payments
    requires run.states[i].db.payments[p].status.Awaiting? ==> run.states[i].db.payments[p].reconcileAfter == before + 15
    ensures p in run.states[pass.finish].db.payments
    ensures run.states[pass.finish].db.payments[p].status.Awaiting? ==>
      run.states[i].db.payments[p].status.Awaiting? && pass.now >= before + 15
  {
    PassHolds(run, pass, p);
    UndisturbedLease(run, i, pass.claim, p);
  }

  ghost predicate FirstExpiry(run: Run, passes: seq<Pass>, p: Id, expiry: Instant)
    requires Shaped(run) && PendingPasses(run, passes, p) && passes != []
  {
    p in run.states[passes[0].claim].db.payments && run.states[passes[0].claim].db.payments[p].expiresAt == Some(expiry)
  }

  /** What is known after a pass that began the series at first and was number n of it. */
  ghost predicate AfterPass(run: Run, pass: Pass, p: Id, first: Instant, n: nat, expiry: Instant)
    requires Shaped(run) && pass.finish < |run.actions|
  {
    && p in run.states[pass.finish + 1].db.payments
    && (run.states[pass.finish + 1].db.payments[p].status.Awaiting? ==>
          && first + 15 * (n - 1) <= pass.now <= expiry
          && run.states[pass.finish + 1].db.payments[p].reconcileAfter == pass.now + 15)
  }

  lemma ShorterPasses(run: Run, passes: seq<Pass>, p: Id)
    requires Shaped(run) && PendingPasses(run, passes, p) && |passes| > 1
    ensures PendingPasses(run, passes[..|passes| - 1], p)
    ensures passes[|passes| - 2].finish < passes[|passes| - 1].claim
    ensures Undisturbed(run, passes[|passes| - 2].finish + 1, passes[|passes| - 1].claim, p)
  {
    var shorter := passes[..|passes| - 1];
    forall k | 0 <= k < |shorter| - 1
      ensures shorter[k].finish < shorter[k + 1].claim && Undisturbed(run, shorter[k].finish + 1, shorter[k + 1].claim, p)
    {
      assert shorter[k] == passes[k] && shorter[k + 1] == passes[k + 1];
    }
    var k := |passes| - 2;
    assert passes[k].finish < passes[k + 1].claim;
  }

  lemma {:induction false} PassesInOrder(run: Run, passes: seq<Pass>, p: Id)
    requires Shaped(run) && PendingPasses(run, passes, p) && passes != []
    ensures passes[0].claim <= passes[|passes| - 1].claim
    decreases |passes|
  {
    if |passes| > 1 {
      ShorterPasses(run, passes, p);
      PassesInOrder(run, passes[..|passes| - 1], p);
      assert PendingPass(run, passes[|passes| - 2], p);
    }
  }

  /** A payment keeps its expiry from the first claim to the end of the last pass. */
  lemma ExpiryKept(run: Run, passes: seq<Pass>, p: Id, expiry: Instant)
    requires run.Valid() && Inv(run.states[0]) && PendingPasses(run, passes, p) && passes != []
    requires FirstExpiry(run, passes, p, expiry)
    ensures var finish := passes[|passes| - 1].finish;
      finish < |run.actions| && p in run.states[finish].db.payments && run.states[finish].db.payments[p].expiresAt == Some(expiry)
  {
    PassesInOrder(run, passes, p);
    assert PendingPass(run, passes[|passes| - 1], p);
    SettledForGood(run, passes[0].claim, passes[|passes| - 1].finish, p);
  }

  /** While the payment stays PENDING, each pass is at least 15 s after the one before. */
  lemma {:induction false} PassesApart(run: Run, passes: seq<Pass>, p: Id, expiry: Instant)
    requires run.Valid() && Inv(run.states[0]) && PendingPasses(run, passes, p) && passes != []
    requires FirstExpiry(run, passes, p, expiry)
    ensures passes[|passes| - 1].finish < |run.actions| && p in run.states[passes[|passes| - 1].finish].db.payments
    ensures run.states[passes[|passes| - 1].finish].db.payments[p].status.Awaiting? ==>
      passes[0].now + 15 * (|passes| - 1) <= passes[|passes| - 1].now
    ensures AfterPass(run, passes[|passes| - 1], p, passes[0].now, |passes|, expiry)
    decreases |passes|
  {
    var last := passes[|passes| - 1];
    assert PendingPass(run, last, p);
    ExpiryKept(run, passes, p, expiry);
    PassOutcome(run, last, p, expiry);
    if |passes| > 1 {
      var before := passes[|passes| - 2];
      ShorterPasses(run, passes, p);
      PassesApart(run, passes[..|passes| - 1], p, expiry);
      assert AfterPass(run, before, p, passes[0].now, |passes| - 1, expiry);
      PassLater(run, before.finish + 1, before.now, last, p);
    }
  }

  ghost predicate Ended(db: Db, db': Db, p: Id) {
    && p in db.payments && p in db'.payments && !db'.payments[p].status.Awaiting?
    && (db.payments[p].status.Awaiting? ==>
          db'.payments[p].status.Failed? && !db'.StatusIs(db.payments[p].registration, Pending))
  }

  /**
   * A payment with an expiry whose provider keeps answering PENDING is no longer PENDING after
   * (expiry - first pass) / 15 s + 2 passes; if it was PENDING until then, the last pass failed it and
   * released the place.
   */
  lemma PassesEnd(run: Run, passes: seq<Pass>, p: Id, expiry: Instant)
    requires run.Valid() && Inv(run.states[0]) && PendingPasses(run, passes, p) && |passes| >= 2
    requires FirstExpiry(run, passes, p, expiry)
    requires 15 * (|passes| - 2) >= expiry - passes[0].now
    ensures var finish := passes[|passes| - 1].finish;
      finish < |run.actions| && Ended(run.states[finish].db, run.states[finish + 1].db, p)
  {
    PassesApart(run, passes, p, expiry);
    ExpiryKept(run, passes, p, expiry);
    PassOutcome(run, passes[|passes| - 1], p, expiry);
  }
}
