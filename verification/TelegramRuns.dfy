/**
 * Every interleaving of Telegram workers with the callers that add deliveries and the administrators that retry failed
 * ones. The message and the status write after it are two steps, and the second may fail or be lost to a restart.
 */
module TelegramRuns {
  import opened Wrappers
  import opened Backoffs
  import opened TelegramOutbox

  /** A delivery that has been tried, with the outcome that is still to be written. */
  datatype Hand = Hand(id: nat, outcome: Outcome)

  /** The deliveries a worker has claimed and not yet tried, the one it is at, and when it claimed them. */
  datatype Desk = Desk(batch: seq<nat>, hand: Option<Hand>, since: Instant) {
    predicate Idle() {
      batch == [] && hand.None?
    }

    predicate Holds(id: nat) {
      id in batch || (hand.Some? && hand.value.id == id)
    }
  }

  /** How often each delivery was tried and delivered, and how often the status write did not happen, after any outcome and after a delivery. */
  datatype Tally = Tally(tried: multiset<nat>, delivered: multiset<nat>, lost: multiset<nat>, lostDeliveries: multiset<nat>) {
    function Tried(id: nat, outcome: Outcome): Tally {
      this.(tried := tried[id := tried[id] + 1], delivered := delivered[id := delivered[id] + Once(outcome.Delivered?)])
    }

    function Lost(id: nat, outcome: Outcome): Tally {
      this.(lost := lost[id := lost[id] + 1], lostDeliveries := lostDeliveries[id := lostDeliveries[id] + Once(outcome.Delivered?)])
    }
  }

  /** What has been written: SENT, SENT or SKIPPED, the failures that a retry has erased, and the retries. */
  datatype Written = Written(sent: multiset<nat>, done: multiset<nat>, erased: multiset<nat>, retries: multiset<nat>)

  datatype State = State(deliveries: seq<Delivery>, desks: seq<Desk>, now: Instant, tally: Tally, written: Written)

  datatype Step =
    | Add
    | Claim(w: nat, ids: seq<nat>)
    | Send(w: nat, outcome: Outcome)
    | Write(w: nat)
    | WriteFails(w: nat)
    | Restart(w: nat)
    | Retry(id: nat)
    | Tick(to: Instant)

  predicate HasOutcome(s: State, w: nat) {
    w < |s.desks| && s.desks[w].hand.Some? && s.desks[w].hand.value.id < |s.deliveries|
  }

  /** A worker claims again only when its batch is done. */
  ghost predicate Enabled(s: State, step: Step) {
    match step
    case Add => true
    case Claim(w, ids) => w < |s.desks| && s.desks[w].Idle() && OldestClaimable(s.deliveries, s.now, BATCH, ids)
    case Send(w, _) => w < |s.desks| && s.desks[w].hand.None? && s.desks[w].batch != []
    case Write(w) => HasOutcome(s, w)
    case WriteFails(w) => HasOutcome(s, w)
    case Restart(w) => w < |s.desks|
    case Retry(id) => id < |s.deliveries| && s.deliveries[id].status.Failed?
    case Tick(to) => s.now <= to
  }

  function WithDesk(s: State, w: nat, desk: Desk): State
    requires w < |s.desks|
  {
    s.(desks := s.desks[w := desk])
  }

  function ClaimedAll(deliveries: seq<Delivery>, ids: seq<nat>, now: Instant): (claimed: seq<Delivery>)
    ensures |claimed| == |deliveries|
    ensures forall k :: 0 <= k < |deliveries| ==> claimed[k] == if k in ids then Claimed(deliveries[k], now) else deliveries[k]
  {
    seq(|deliveries|, k requires 0 <= k < |deliveries| => if k in ids then Claimed(deliveries[k], now) else deliveries[k])
  }

  function AfterSend(s: State, w: nat, outcome: Outcome): State
    requires w < |s.desks| && s.desks[w].batch != []
  {
    var id := s.desks[w].batch[0];
    WithDesk(s, w, s.desks[w].(batch := s.desks[w].batch[1..], hand := Some(Hand(id, outcome)))).(tally := s.tally.Tried(id, outcome))
  }

  /** The statements name only the row. */
  function AfterWrite(s: State, w: nat, maxAttempts: int): State
    requires HasOutcome(s, w)
  {
    var Hand(id, outcome) := s.desks[w].hand.value;
    WithDesk(s, w, s.desks[w].(hand := None)).(
      deliveries := s.deliveries[id := Processed(s.deliveries[id], outcome, s.now, maxAttempts)],
      written := s.written.(sent := s.written.sent[id := s.written.sent[id] + Once(outcome.Delivered?)],
                            done := s.written.done[id := s.written.done[id] + Once(!outcome.Error?)]))
  }

  function AfterLost(s: State, w: nat, desk: Desk): State
    requires HasOutcome(s, w)
  {
    var Hand(id, outcome) := s.desks[w].hand.value;
    WithDesk(s, w, desk).(tally := s.tally.Lost(id, outcome))
  }

  function Emptied(desk: Desk): Desk {
    desk.(batch := [], hand := None)
  }

  function AfterRetry(s: State, id: nat): State
    requires id < |s.deliveries|
  {
    s.(deliveries := s.deliveries[id := Retried(s.now)],
       written := s.written.(erased := s.written.erased[id := s.written.erased[id] + s.deliveries[id].attempts],
                             retries := s.written.retries[id := s.written.retries[id] + 1]))
  }

  function Next(s: State, step: Step, maxAttempts: int): State
    requires Enabled(s, step)
  {
    match step
    case Add => s.(deliveries := s.deliveries + [Retried(s.now)])
    case Claim(w, ids) => WithDesk(s, w, Desk(ids, None, s.now)).(deliveries := ClaimedAll(s.deliveries, ids, s.now))
    case Send(w, outcome) => AfterSend(s, w, outcome)
    case Write(w) => AfterWrite(s, w, maxAttempts)
    case WriteFails(w) => AfterLost(s, w, s.desks[w].(hand := None))
    case Restart(w) => if HasOutcome(s, w) then AfterLost(s, w, Emptied(s.desks[w])) else WithDesk(s, w, Emptied(s.desks[w]))
    case Retry(id) => AfterRetry(s, id)
    case Tick(to) => s.(now := to)
  }

  const NOTHING := Tally(multiset{}, multiset{}, multiset{}, multiset{})
  const UNWRITTEN := Written(multiset{}, multiset{}, multiset{}, multiset{})

  predicate Initial(s: State) {
    && s.deliveries == [] && s.tally == NOTHING && s.written == UNWRITTEN
    && forall w :: 0 <= w < |s.desks| ==> s.desks[w].Idle()
  }

  datatype Run = Run(maxAttempts: int, states: seq<State>, steps: seq<Step>) {
    ghost predicate Valid() {
      && maxAttempts >= 1 && |states| == |steps| + 1 && Initial(states[0])
      && forall k :: 0 <= k < |steps| ==> Enabled(states[k], steps[k]) && states[k + 1] == Next(states[k], steps[k], maxAttempts)
    }
  }

  // ---- Conservation, for any number of workers ----

  /** The workers that are at a delivery, and those that are about to write it SENT. */
  function Held(desks: seq<Desk>, id: nat, onlyDelivered: bool): nat {
    if desks == [] then 0
    else Held(desks[..|desks| - 1], id, onlyDelivered) + Once(IsAt(desks[|desks| - 1], id, onlyDelivered))
  }

  predicate IsAt(desk: Desk, id: nat, onlyDelivered: bool) {
    desk.hand.Some? && desk.hand.value.id == id && (onlyDelivered ==> desk.hand.value.outcome.Delivered?)
  }

  lemma {:induction false} HeldUpdate(desks: seq<Desk>, w: nat, desk: Desk, id: nat, onlyDelivered: bool)
    requires w < |desks|
    ensures Held(desks[w := desk], id, onlyDelivered)
      == Held(desks, id, onlyDelivered) - Once(IsAt(desks[w], id, onlyDelivered)) + Once(IsAt(desk, id, onlyDelivered))
    decreases |desks|
  {
    var last := |desks| - 1;
    if w < last {
      HeldUpdate(desks[..last], w, desk, id, onlyDelivered);
      assert desks[w := desk][..last] == desks[..last][w := desk];
    } else {
      assert desks[w := desk][..last] == desks[..last];
    }
  }

  function Attempts(s: State, id: nat): nat {
    if id < |s.deliveries| then s.deliveries[id].attempts else 0
  }

  ghost predicate Conserved(s: State, id: nat) {
    && s.tally.tried[id]
         == Attempts(s, id) + s.written.erased[id] + s.written.done[id] + s.tally.lost[id] + Held(s.desks, id, false)
    && s.tally.delivered[id] == s.written.sent[id] + s.tally.lostDeliveries[id] + Held(s.desks, id, true)
    && s.tally.lostDeliveries[id] <= s.tally.lost[id] && s.written.sent[id] <= s.written.done[id]
  }

  ghost predicate DesksKnown(s: State) {
    forall w :: 0 <= w < |s.desks| ==>
      && (s.desks[w].hand.Some? ==> s.desks[w].hand.value.id < |s.deliveries|)
      && forall i :: 0 <= i < |s.desks[w].batch| ==> s.desks[w].batch[i] < |s.deliveries|
  }

  lemma DeskHeld(s: State, w: nat, desk: Desk, id: nat)
    requires w < |s.desks|
    ensures Held(s.desks[w := desk], id, false) == Held(s.desks, id, false) - Once(IsAt(s.desks[w], id, false)) + Once(IsAt(desk, id, false))
    ensures Held(s.desks[w := desk], id, true) == Held(s.desks, id, true) - Once(IsAt(s.desks[w], id, true)) + Once(IsAt(desk, id, true))
  {
    HeldUpdate(s.desks, w, desk, id, false);
    HeldUpdate(s.desks, w, desk, id, true);
  }

  lemma SendConserves(s: State, w: nat, outcome: Outcome, id: nat)
    requires Enabled(s, Send(w, outcome)) && Conserved(s, id)
    ensures Conserved(AfterSend(s, w, outcome), id)
  {
    DeskHeld(s, w, AfterSend(s, w, outcome).desks[w], id);
  }

  lemma WriteConserves(s: State, w: nat, maxAttempts: int, id: nat)
    requires HasOutcome(s, w) && Conserved(s, id)
    ensures Conserved(AfterWrite(s, w, maxAttempts), id)
  {
    DeskHeld(s, w, s.desks[w].(hand := None), id);
  }

  lemma LostConserves(s: State, w: nat, desk: Desk, id: nat)
    requires HasOutcome(s, w) && desk.hand.None? && Conserved(s, id)
    ensures Conserved(AfterLost(s, w, desk), id)
  {
    DeskHeld(s, w, desk, id);
  }

  lemma EmptyHandConserves(s: State, w: nat, desk: Desk, id: nat)
    requires w < |s.desks| && s.desks[w].hand.None? && desk.hand.None? && Conserved(s, id)
    ensures Conserved(WithDesk(s, w, desk), id)
  {
    DeskHeld(s, w, desk, id);
  }

  lemma StepConserves(s: State, step: Step, maxAttempts: int, id: nat)
    requires Enabled(s, step) && DesksKnown(s) && Conserved(s, id)
    ensures Conserved(Next(s, step, maxAttempts), id)
  {
    match step {
      case Claim(w, ids) => EmptyHandConserves(s, w, Desk(ids, None, s.now), id);
      case Send(w, outcome) => SendConserves(s, w, outcome, id);
      case Write(w) => WriteConserves(s, w, maxAttempts, id);
      case WriteFails(w) => LostConserves(s, w, s.desks[w].(hand := None), id);
      case Restart(w) =>
        if HasOutcome(s, w) { LostConserves(s, w, Emptied(s.desks[w]), id); } else { EmptyHandConserves(s, w, Emptied(s.desks[w]), id); }
      case _ =>
    }
  }

  lemma StepKeepsDesks(s: State, step: Step, maxAttempts: int)
    requires Enabled(s, step) && DesksKnown(s)
    ensures DesksKnown(Next(s, step, maxAttempts)) && |Next(s, step, maxAttempts).desks| == |s.desks|
  {
  }

  lemma {:induction false} NothingHeld(desks: seq<Desk>, id: nat, onlyDelivered: bool)
    requires forall w :: 0 <= w < |desks| ==> desks[w].hand.None?
    ensures Held(desks, id, onlyDelivered) == 0
  {
    if desks != [] {
      NothingHeld(desks[..|desks| - 1], id, onlyDelivered);
    }
  }

  lemma {:induction false} RunConserves(run: Run, k: nat, id: nat)
    requires run.Valid() && k < |run.states|
    ensures DesksKnown(run.states[k]) && Conserved(run.states[k], id) && |run.states[k].desks| == |run.states[0].desks|
  {
    if k == 0 {
      NothingHeld(run.states[0].desks, id, false);
      NothingHeld(run.states[0].desks, id, true);
    } else {
      RunConserves(run, k - 1, id);
      StepConserves(run.states[k - 1], run.steps[k - 1], run.maxAttempts, id);
      StepKeepsDesks(run.states[k - 1], run.steps[k - 1], run.maxAttempts);
    }
  }

  // ---- One worker ----

  predicate Done(d: Delivery) {
    d.status.Sent? || d.status.Skipped?
  }

  predicate IsDone(s: State, id: nat) {
    id < |s.deliveries| && Done(s.deliveries[id])
  }

  /** A row's counters: it was finished once if at all, and has used up its attempts when it has FAILED. */
  ghost predicate RowFits(d: Delivery, written: Written, id: nat, maxAttempts: int) {
    && written.done[id] == Once(Done(d))
    && (if d.status.Failed? then d.attempts == maxAttempts else d.attempts < maxAttempts)
    && written.erased[id] == written.retries[id] * maxAttempts
  }

  /** What a single worker has claimed or is at is PROCESSING, and nothing is claimed twice. */
  ghost predicate DeskFits(desk: Desk, deliveries: seq<Delivery>) {
    && (forall i :: 0 <= i < |desk.batch| ==> desk.batch[i] < |deliveries| && deliveries[desk.batch[i]].status.Processing?)
    && (forall i, j :: 0 <= i < j < |desk.batch| ==> desk.batch[i] != desk.batch[j])
    && (desk.hand.Some? ==>
          desk.hand.value.id < |deliveries| && deliveries[desk.hand.value.id].status.Processing? && desk.hand.value.id !in desk.batch)
  }

  ghost predicate Lone(s: State, maxAttempts: int) {
    && |s.desks| == 1 && DeskFits(s.desks[0], s.deliveries)
    && (forall id :: 0 <= id < |s.deliveries| ==> RowFits(s.deliveries[id], s.written, id, maxAttempts))
    && forall id :: id >= |s.deliveries| ==> s.written.done[id] == 0 && s.written.erased[id] == 0 && s.written.retries[id] == 0
  }

  lemma RetryKeepsLone(s: State, id: nat, maxAttempts: int)
    requires maxAttempts >= 1 && Enabled(s, Retry(id)) && Lone(s, maxAttempts)
    ensures Lone(AfterRetry(s, id), maxAttempts)
  {
    var s' := AfterRetry(s, id);
    forall k | 0 <= k < |s.deliveries| ensures RowFits(s'.deliveries[k], s'.written, k, maxAttempts) {
      assert RowFits(s.deliveries[k], s.written, k, maxAttempts);
    }
  }

  lemma WriteKeepsLone(s: State, w: nat, maxAttempts: int)
    requires maxAttempts >= 1 && HasOutcome(s, w) && Lone(s, maxAttempts)
    ensures Lone(AfterWrite(s, w, maxAttempts), maxAttempts)
  {
    var s' := AfterWrite(s, w, maxAttempts);
    forall k | 0 <= k < |s.deliveries| ensures RowFits(s'.deliveries[k], s'.written, k, maxAttempts) {
      assert RowFits(s.deliveries[k], s.written, k, maxAttempts);
    }
  }

  lemma ClaimKeepsLone(s: State, w: nat, ids: seq<nat>, maxAttempts: int)
    requires Enabled(s, Claim(w, ids)) && Lone(s, maxAttempts)
    ensures Lone(Next(s, Claim(w, ids), maxAttempts), maxAttempts)
  {
    var s' := Next(s, Claim(w, ids), maxAttempts);
    forall k | 0 <= k < |s.deliveries| ensures RowFits(s'.deliveries[k], s'.written, k, maxAttempts) {
      assert RowFits(s.deliveries[k], s.written, k, maxAttempts);
    }
  }

  lemma AddKeepsLone(s: State, maxAttempts: int)
    requires maxAttempts >= 1 && Lone(s, maxAttempts)
    ensures Lone(Next(s, Add, maxAttempts), maxAttempts)
  {
  }

  lemma StepKeepsLone(s: State, step: Step, maxAttempts: int)
    requires maxAttempts >= 1 && Enabled(s, step) && Lone(s, maxAttempts)
    ensures Lone(Next(s, step, maxAttempts), maxAttempts)
  {
    match step {
      case Add => AddKeepsLone(s, maxAttempts);
      case Claim(w, ids) => ClaimKeepsLone(s, w, ids, maxAttempts);
      case Write(w) => WriteKeepsLone(s, w, maxAttempts);
      case Retry(id) => RetryKeepsLone(s, id, maxAttempts);
      case Restart(w) => if HasOutcome(s, w) {}
      case _ =>
    }
  }

  lemma {:induction false} RunKeepsLone(run: Run, k: nat)
    requires run.Valid() && k < |run.states| && |run.states[0].desks| == 1
    ensures Lone(run.states[k], run.maxAttempts)
  {
    if k > 0 {
      RunKeepsLone(run, k - 1);
      StepKeepsLone(run.states[k - 1], run.steps[k - 1], run.maxAttempts);
    }
  }

  lemma LoneHeld(s: State, id: nat)
    requires |s.desks| == 1
    ensures Held(s.desks, id, false) == Once(IsAt(s.desks[0], id, false))
    ensures Held(s.desks, id, true) == Once(IsAt(s.desks[0], id, true))
  {
    assert s.desks[..|s.desks| - 1] == [];
    assert forall b :: Held(s.desks, id, b) == Held([], id, b) + Once(IsAt(s.desks[0], id, b));
  }

  lemma Multiples(n: nat, max: int)
    ensures max + n * max == (n + 1) * max
  {
  }

  /**
   * One worker tries a delivery at most maxAttempts times for each time it was added or retried, and once more for each
   * status write that was lost; and delivers it once, and once more for each write that was lost after a delivery.
   */
  lemma DeliveredOnceButForLostWrites(run: Run, k: nat, id: nat)
    requires run.Valid() && k < |run.states| && |run.states[0].desks| == 1
    ensures run.states[k].tally.tried[id] <= (run.states[k].written.retries[id] + 1) * run.maxAttempts + run.states[k].tally.lost[id]
    ensures run.states[k].tally.delivered[id] <= 1 + run.states[k].tally.lostDeliveries[id]
  {
    RunConserves(run, k, id);
    RunKeepsLone(run, k);
    LoneHeld(run.states[k], id);
    Multiples(run.states[k].written.retries[id], run.maxAttempts);
    if id < |run.states[k].deliveries| {
      assert RowFits(run.states[k].deliveries[id], run.states[k].written, id, run.maxAttempts);
    }
  }

  /** The status write after a delivery of id does not happen. */
  predicate LosesDelivery(s: State, step: Step, id: nat) {
    (step.WriteFails? || step.Restart?) && HasOutcome(s, step.w) && s.desks[step.w].hand.value == Hand(id, Delivered)
  }

  predicate Delivers(s: State, step: Step, id: nat) {
    step.Send? && step.outcome.Delivered? && step.w < |s.desks| && s.desks[step.w].batch != [] && s.desks[step.w].batch[0] == id
  }

  lemma TallyStep(s: State, step: Step, maxAttempts: int, id: nat)
    requires Enabled(s, step)
    ensures Next(s, step, maxAttempts).tally.delivered[id] == s.tally.delivered[id] + Once(Delivers(s, step, id))
    ensures Next(s, step, maxAttempts).tally.lostDeliveries[id] == s.tally.lostDeliveries[id] + Once(LosesDelivery(s, step, id))
  {
    match step {
      case Restart(w) => if HasOutcome(s, w) {}
      case _ =>
    }
  }

  ghost predicate DeliveryLost(run: Run, k: nat, id: nat)
    requires run.Valid() && k < |run.states|
  {
    exists i: nat :: i < k && LosesDelivery(run.states[i], run.steps[i], id)
  }

  ghost predicate DeliversAfterLoss(run: Run, j: nat, k: nat, id: nat)
    requires run.Valid() && k < |run.states|
  {
    j < k && Delivers(run.states[j], run.steps[j], id) && DeliveryLost(run, j, id)
  }

  /** A status write was lost after a delivery of id, and a later try delivered it too. */
  ghost predicate DeliveredAfterLoss(run: Run, k: nat, id: nat)
    requires run.Valid() && k < |run.states|
  {
    exists j: nat :: DeliversAfterLoss(run, j, k, id)
  }

  lemma {:induction false} LostIffStep(run: Run, k: nat, id: nat)
    requires run.Valid() && k < |run.states|
    ensures run.states[k].tally.lostDeliveries[id] > 0 <==> DeliveryLost(run, k, id)
  {
    if k > 0 {
      LostIffStep(run, k - 1, id);
      TallyStep(run.states[k - 1], run.steps[k - 1], run.maxAttempts, id);
      assert DeliveryLost(run, k, id) <==> DeliveryLost(run, k - 1, id) || LosesDelivery(run.states[k - 1], run.steps[k - 1], id);
    }
  }

  /** With one worker, what is tried had been delivered only if a write was lost. */
  lemma DeliveredBefore(run: Run, k: nat, id: nat)
    requires run.Valid() && k < |run.steps| && |run.states[0].desks| == 1 && Delivers(run.states[k], run.steps[k], id)
    ensures run.states[k].tally.delivered[id] > 0 <==> DeliveryLost(run, k, id)
  {
    RunConserves(run, k, id);
    RunKeepsLone(run, k);
    LoneHeld(run.states[k], id);
    LostIffStep(run, k, id);
    assert RowFits(run.states[k].deliveries[id], run.states[k].written, id, run.maxAttempts);
  }

  lemma DeliveredAfterLossNext(run: Run, k: nat, id: nat)
    requires run.Valid() && k < |run.steps|
    ensures DeliveredAfterLoss(run, k + 1, id) <==>
      DeliveredAfterLoss(run, k, id) || (Delivers(run.states[k], run.steps[k], id) && DeliveryLost(run, k, id))
  {
    if DeliveredAfterLoss(run, k, id) {
      var j: nat :| DeliversAfterLoss(run, j, k, id);
      assert DeliversAfterLoss(run, j, k + 1, id);
    }
    if Delivers(run.states[k], run.steps[k], id) && DeliveryLost(run, k, id) {
      assert DeliversAfterLoss(run, k, k + 1, id);
    }
    if DeliveredAfterLoss(run, k + 1, id) {
      var j: nat :| DeliversAfterLoss(run, j, k + 1, id);
      if j < k {
        assert DeliversAfterLoss(run, j, k, id);
      }
    }
  }

  /** One worker delivers twice exactly when a status write was lost after a delivery, and a later one came. */
  lemma {:induction false} DeliveredTwiceIff(run: Run, k: nat, id: nat)
    requires run.Valid() && k < |run.states| && |run.states[0].desks| == 1
    ensures run.states[k].tally.delivered[id] >= 2 <==> DeliveredAfterLoss(run, k, id)
  {
    if k > 0 {
      DeliveredTwiceIff(run, k - 1, id);
      DeliveredAfterLossNext(run, k - 1, id);
      TallyStep(run.states[k - 1], run.steps[k - 1], run.maxAttempts, id);
      if Delivers(run.states[k - 1], run.steps[k - 1], id) {
        DeliveredBefore(run, k - 1, id);
      }
    }
  }

  // ---- What the lock gives any number of workers ----

  /** The step claims the delivery, or writes its end. */
  predicate Claims(step: Step, id: nat) {
    step.Claim? && id in step.ids
  }

  predicate Writes(s: State, step: Step, id: nat) {
    step.Write? && step.w < |s.desks| && s.desks[step.w].hand.Some? && s.desks[step.w].hand.value.id == id
  }

  /** The delivery is locked, and has been since an instant or later. */
  predicate LockedSince(s: State, id: nat, since: Instant) {
    && id < |s.deliveries| && s.deliveries[id].status.Processing?
    && s.deliveries[id].lockedAt.Some? && since <= s.deliveries[id].lockedAt.value && since <= s.now
  }

  lemma LockStep(s: State, step: Step, maxAttempts: int, id: nat, since: Instant)
    requires Enabled(s, step) && LockedSince(s, id, since) && !Writes(s, step, id)
    ensures LockedSince(Next(s, step, maxAttempts), id, since)
    ensures Claims(step, id) ==> s.now > since + STALE_LOCK
  {
    match step {
      case Restart(w) => if HasOutcome(s, w) {}
      case _ =>
    }
  }

  lemma {:induction false} LockHeld(run: Run, i: nat, k: nat, id: nat)
    requires run.Valid() && i < k < |run.states| && Claims(run.steps[i], id)
    requires forall m :: i < m < k ==> !Writes(run.states[m], run.steps[m], id)
    ensures LockedSince(run.states[k], id, run.states[i].now)
    decreases k
  {
    if k == i + 1 {
      assert Enabled(run.states[i], run.steps[i]);
    } else {
      LockHeld(run, i, k - 1, id);
      LockStep(run.states[k - 1], run.steps[k - 1], run.maxAttempts, id, run.states[i].now);
    }
  }

  /** Two claims of one delivery, by any workers, are more than the lock's two minutes apart unless its end was written in between. */
  lemma ClaimsApart(run: Run, i: nat, j: nat, id: nat)
    requires run.Valid() && i < j < |run.steps| && Claims(run.steps[i], id) && Claims(run.steps[j], id)
    requires forall m :: i < m < j ==> !Writes(run.states[m], run.steps[m], id)
    ensures run.states[j].now > run.states[i].now + STALE_LOCK
  {
    LockHeld(run, i, j, id);
    LockStep(run.states[j], run.steps[j], run.maxAttempts, id, run.states[i].now);
  }

  /** The worker's lock has not gone stale. */
  predicate Live(s: State, w: nat) {
    w < |s.desks| && s.now <= s.desks[w].since + STALE_LOCK
  }

  /** Every try, with the status write after it, happens within two minutes of its claim. */
  ghost predicate Prompt(s: State) {
    forall w :: 0 <= w < |s.desks| && s.desks[w].hand.Some? ==> Live(s, w)
  }

  ghost predicate DeskOnce(desk: Desk) {
    && (forall i, j :: 0 <= i < j < |desk.batch| ==> desk.batch[i] != desk.batch[j])
    && (desk.hand.Some? ==> desk.hand.value.id !in desk.batch)
  }

  /** The worker holds the delivery, and its lock has not gone stale. */
  predicate LiveHolds(s: State, w: nat, id: nat) {
    Live(s, w) && s.desks[w].Holds(id)
  }

  predicate LockedBy(s: State, w: nat, id: nat) {
    && w < |s.desks| && id < |s.deliveries| && s.deliveries[id].status.Processing?
    && s.deliveries[id].lockedAt == Some(s.desks[w].since)
  }

  /** What a live worker holds is locked by its own claim, and held by no other live worker. */
  ghost predicate LocksOwn(s: State) {
    && (forall w :: 0 <= w < |s.desks| ==> DeskOnce(s.desks[w]))
    && (forall w: nat, id: nat :: LiveHolds(s, w, id) ==> LockedBy(s, w, id))
    && forall w: nat, v: nat, id: nat :: LiveHolds(s, w, id) && LiveHolds(s, v, id) ==> w == v
  }

  ghost predicate RowsFit(s: State, maxAttempts: int) {
    && (forall id :: 0 <= id < |s.deliveries| ==> RowFits(s.deliveries[id], s.written, id, maxAttempts))
    && forall id :: id >= |s.deliveries| ==> s.written.done[id] == 0 && s.written.erased[id] == 0 && s.written.retries[id] == 0
  }

  ghost predicate Leased(s: State, maxAttempts: int) {
    LocksOwn(s) && RowsFit(s, maxAttempts)
  }

  /** No worker takes anything up, and what the live ones still hold is as it was. */
  ghost predicate Releases(s: State, s': State) {
    && (forall w :: 0 <= w < |s'.desks| ==> DeskOnce(s'.desks[w]))
    && forall w: nat, id: nat :: LiveHolds(s', w, id) ==>
         && LiveHolds(s, w, id) && s'.desks[w].since == s.desks[w].since
         && id < |s.deliveries| && id < |s'.deliveries| && s'.deliveries[id] == s.deliveries[id]
  }

  lemma ReleasesKeepLocks(s: State, s': State)
    requires LocksOwn(s) && Releases(s, s')
    ensures LocksOwn(s')
  {
    forall w: nat, id: nat | LiveHolds(s', w, id) ensures LockedBy(s', w, id) {
      assert LockedBy(s, w, id);
    }
    forall w: nat, v: nat, id: nat | LiveHolds(s', w, id) && LiveHolds(s', v, id) ensures w == v {
      assert LiveHolds(s, w, id) && LiveHolds(s, v, id);
    }
  }

  lemma ClaimTakesFree(s: State, w: nat, ids: seq<nat>, v: nat, id: nat)
    requires Enabled(s, Claim(w, ids)) && LocksOwn(s) && LiveHolds(s, v, id)
    ensures id !in ids && v != w
  {
    assert LockedBy(s, v, id);
  }

  lemma ClaimKeepsLocks(s: State, w: nat, ids: seq<nat>, maxAttempts: int)
    requires Enabled(s, Claim(w, ids)) && LocksOwn(s)
    ensures LocksOwn(Next(s, Claim(w, ids), maxAttempts))
  {
    var s' := Next(s, Claim(w, ids), maxAttempts);
    forall v: nat, id: nat | LiveHolds(s', v, id)
      ensures LockedBy(s', v, id) && if v == w then id in ids else LiveHolds(s, v, id) && id !in ids
    {
      if v != w {
        assert LiveHolds(s, v, id) && LockedBy(s, v, id);
        ClaimTakesFree(s, w, ids, v, id);
      }
    }
  }

  lemma ClaimKeepsRows(s: State, w: nat, ids: seq<nat>, maxAttempts: int)
    requires Enabled(s, Claim(w, ids)) && RowsFit(s, maxAttempts)
    ensures RowsFit(Next(s, Claim(w, ids), maxAttempts), maxAttempts)
  {
    var s' := Next(s, Claim(w, ids), maxAttempts);
    forall id | 0 <= id < |s.deliveries| ensures RowFits(s'.deliveries[id], s'.written, id, maxAttempts) {
      assert RowFits(s.deliveries[id], s.written, id, maxAttempts);
    }
  }

  lemma SendReleases(s: State, w: nat, outcome: Outcome)
    requires Enabled(s, Send(w, outcome)) && LocksOwn(s)
    ensures Releases(s, AfterSend(s, w, outcome))
  {
    var s' := AfterSend(s, w, outcome);
    assert DeskOnce(s.desks[w]);
    forall v: nat, id: nat | LiveHolds(s', v, id) ensures LiveHolds(s, v, id) && id < |s.deliveries| {
      assert LiveHolds(s, v, id) && LockedBy(s, v, id);
    }
  }

  lemma WriteReleases(s: State, w: nat, maxAttempts: int)
    requires HasOutcome(s, w) && Live(s, w) && LocksOwn(s)
    ensures Releases(s, AfterWrite(s, w, maxAttempts))
  {
    var s' := AfterWrite(s, w, maxAttempts);
    var written := s.desks[w].hand.value.id;
    assert DeskOnce(s.desks[w]) && LiveHolds(s, w, written);
    forall v: nat, id: nat | LiveHolds(s', v, id) ensures LiveHolds(s, v, id) && id < |s.deliveries| && id != written {
      assert LiveHolds(s, v, id) && LockedBy(s, v, id);
    }
  }

  lemma WriteKeepsRows(s: State, w: nat, maxAttempts: int)
    requires maxAttempts >= 1 && HasOutcome(s, w) && Live(s, w) && Leased(s, maxAttempts)
    ensures RowsFit(AfterWrite(s, w, maxAttempts), maxAttempts)
  {
    var s' := AfterWrite(s, w, maxAttempts);
    assert LiveHolds(s, w, s.desks[w].hand.value.id) && LockedBy(s, w, s.desks[w].hand.value.id);
    forall id | 0 <= id < |s.deliveries| ensures RowFits(s'.deliveries[id], s'.written, id, maxAttempts) {
      assert RowFits(s.deliveries[id], s.written, id, maxAttempts);
    }
  }

  /** A worker puts down what it is at, or everything. */
  lemma EmptyReleases(s: State, w: nat, desk: Desk, tally: Tally)
    requires w < |s.desks| && LocksOwn(s)
    requires desk.hand.None? && desk.since == s.desks[w].since && (desk.batch == [] || desk.batch == s.desks[w].batch)
    ensures Releases(s, WithDesk(s, w, desk).(tally := tally))
  {
    var s' := WithDesk(s, w, desk).(tally := tally);
    assert DeskOnce(s.desks[w]);
    forall v: nat, id: nat | LiveHolds(s', v, id) ensures LiveHolds(s, v, id) && id < |s.deliveries| {
      assert LiveHolds(s, v, id) && LockedBy(s, v, id);
    }
  }

  lemma RetryReleases(s: State, id: nat)
    requires Enabled(s, Retry(id)) && LocksOwn(s)
    ensures Releases(s, AfterRetry(s, id))
  {
    var s' := AfterRetry(s, id);
    forall v: nat, q: nat | LiveHolds(s', v, q) ensures LiveHolds(s, v, q) && q < |s.deliveries| && q != id {
      assert LiveHolds(s, v, q) && LockedBy(s, v, q);
    }
  }

  lemma RetryKeepsRows(s: State, id: nat, maxAttempts: int)
    requires maxAttempts >= 1 && Enabled(s, Retry(id)) && RowsFit(s, maxAttempts)
    ensures RowsFit(AfterRetry(s, id), maxAttempts)
  {
    var s' := AfterRetry(s, id);
    forall k | 0 <= k < |s.deliveries| ensures RowFits(s'.deliveries[k], s'.written, k, maxAttempts) {
      assert RowFits(s.deliveries[k], s.written, k, maxAttempts);
    }
  }

  lemma TimeReleases(s: State, s': State)
    requires LocksOwn(s) && s'.desks == s.desks && s.now <= s'.now && s.deliveries <= s'.deliveries
    ensures Releases(s, s')
  {
    forall v: nat, id: nat | LiveHolds(s', v, id) ensures LiveHolds(s, v, id) && id < |s.deliveries| {
      assert LiveHolds(s, v, id) && LockedBy(s, v, id);
    }
  }

  lemma StepKeepsLocks(s: State, step: Step, maxAttempts: int)
    requires Enabled(s, step) && LocksOwn(s) && (step.Write? ==> Live(s, step.w))
    ensures LocksOwn(Next(s, step, maxAttempts))
  {
    var s' := Next(s, step, maxAttempts);
    match step {
      case Add => TimeReleases(s, s');
      case Claim(w, ids) => ClaimKeepsLocks(s, w, ids, maxAttempts);
      case Send(w, outcome) => SendReleases(s, w, outcome);
      case Write(w) => WriteReleases(s, w, maxAttempts);
      case WriteFails(w) => EmptyReleases(s, w, s.desks[w].(hand := None), s'.tally);
      case Restart(w) => EmptyReleases(s, w, Emptied(s.desks[w]), s'.tally);
      case Retry(id) => RetryReleases(s, id);
      case Tick(to) => TimeReleases(s, s');
    }
    if !step.Claim? {
      ReleasesKeepLocks(s, s');
    }
  }

  lemma AddKeepsRows(s: State, maxAttempts: int)
    requires maxAttempts >= 1 && RowsFit(s, maxAttempts)
    ensures RowsFit(Next(s, Add, maxAttempts), maxAttempts)
  {
  }

  lemma StepKeepsRows(s: State, step: Step, maxAttempts: int)
    requires maxAttempts >= 1 && Enabled(s, step) && Leased(s, maxAttempts) && (step.Write? ==> Live(s, step.w))
    ensures RowsFit(Next(s, step, maxAttempts), maxAttempts)
  {
    match step {
      case Add => AddKeepsRows(s, maxAttempts);
      case Claim(w, ids) => ClaimKeepsRows(s, w, ids, maxAttempts);
      case Write(w) => WriteKeepsRows(s, w, maxAttempts);
      case Retry(id) => RetryKeepsRows(s, id, maxAttempts);
      case Restart(w) => if HasOutcome(s, w) {}
      case _ =>
    }
  }

  lemma {:induction false} RunLeased(run: Run, k: nat)
    requires run.Valid() && k < |run.states| && forall m :: 0 <= m < k ==> Prompt(run.states[m])
    ensures Leased(run.states[k], run.maxAttempts)
  {
    if k > 0 {
      RunLeased(run, k - 1);
      assert Prompt(run.states[k - 1]);
      StepKeepsLocks(run.states[k - 1], run.steps[k - 1], run.maxAttempts);
      StepKeepsRows(run.states[k - 1], run.steps[k - 1], run.maxAttempts);
    }
  }

  lemma {:induction false} HeldAtMostOnce(desks: seq<Desk>, id: nat, onlyDelivered: bool)
    requires forall v, w :: 0 <= v < w < |desks| ==> !(IsAt(desks[v], id, false) && IsAt(desks[w], id, false))
    ensures Held(desks, id, onlyDelivered) <= 1
    ensures (forall w :: 0 <= w < |desks| ==> !IsAt(desks[w], id, false)) ==> Held(desks, id, onlyDelivered) == 0
  {
    if desks != [] {
      var init := desks[..|desks| - 1];
      HeldAtMostOnce(init, id, onlyDelivered);
      forall w | 0 <= w < |init| ensures init[w] == desks[w] {}
    }
  }

  lemma PromptAt(s: State, w: nat, id: nat)
    requires LocksOwn(s) && Prompt(s) && w < |s.desks| && IsAt(s.desks[w], id, false)
    ensures LiveHolds(s, w, id) && LockedBy(s, w, id)
  {
    assert LiveHolds(s, w, id);
  }

  /** Under prompt writes a worker is alone with a delivery, and the delivery is PROCESSING. */
  lemma PromptHeld(s: State, id: nat, onlyDelivered: bool)
    requires LocksOwn(s) && Prompt(s)
    ensures Held(s.desks, id, onlyDelivered) <= 1
    ensures !(id < |s.deliveries| && s.deliveries[id].status.Processing?) ==> Held(s.desks, id, onlyDelivered) == 0
  {
    forall w: nat | w < |s.desks| && IsAt(s.desks[w], id, false) ensures LiveHolds(s, w, id) && LockedBy(s, w, id) {
      PromptAt(s, w, id);
    }
    HeldAtMostOnce(s.desks, id, onlyDelivered);
  }

  lemma DoneOnce(s: State, id: nat, maxAttempts: int)
    requires RowsFit(s, maxAttempts)
    ensures s.written.done[id] == Once(IsDone(s, id))
    ensures id < |s.deliveries| ==>
      if s.deliveries[id].status.Failed? then Attempts(s, id) == maxAttempts else Attempts(s, id) < maxAttempts
    ensures s.written.erased[id] == s.written.retries[id] * maxAttempts
  {
    if id < |s.deliveries| {
      assert RowFits(s.deliveries[id], s.written, id, maxAttempts);
    }
  }

  /**
   * When every message and its status write come within two minutes of their claim, any number of workers try a delivery at
   * most maxAttempts times for each time it was added or retried, and deliver it once - and once more for each write that
   * was lost, or lost after a delivery - as one worker does.
   */
  lemma PromptWorkersDeliverOnce(run: Run, k: nat, id: nat)
    requires run.Valid() && k < |run.states| && forall m :: 0 <= m <= k ==> Prompt(run.states[m])
    ensures run.states[k].tally.tried[id] <= (run.states[k].written.retries[id] + 1) * run.maxAttempts + run.states[k].tally.lost[id]
    ensures run.states[k].tally.delivered[id] <= 1 + run.states[k].tally.lostDeliveries[id]
  {
    RunConserves(run, k, id);
    RunLeased(run, k);
    assert Prompt(run.states[k]);
    PromptHeld(run.states[k], id, true);
    PromptHeld(run.states[k], id, false);
    Multiples(run.states[k].written.retries[id], run.maxAttempts);
    DoneOnce(run.states[k], id, run.maxAttempts);
  }

  /** ... and leave what is done alone. */
  lemma PromptDoneStep(s: State, step: Step, maxAttempts: int, id: nat)
    requires Enabled(s, step) && LocksOwn(s) && Prompt(s) && IsDone(s, id)
    ensures id < |Next(s, step, maxAttempts).deliveries| && Next(s, step, maxAttempts).deliveries[id] == s.deliveries[id]
  {
    match step {
      case Write(w) => if s.desks[w].hand.value.id == id { PromptAt(s, w, id); }
      case Restart(w) => if HasOutcome(s, w) {}
      case _ =>
    }
  }

  lemma {:induction false} PromptDoneForGood(run: Run, i: nat, j: nat, id: nat)
    requires run.Valid() && i <= j < |run.states| && IsDone(run.states[i], id) && forall m :: 0 <= m < j ==> Prompt(run.states[m])
    ensures id < |run.states[j].deliveries| && run.states[j].deliveries[id] == run.states[i].deliveries[id]
    decreases j
  {
    if i < j {
      PromptDoneForGood(run, i, j - 1, id);
      RunLeased(run, j - 1);
      assert Prompt(run.states[j - 1]);
      PromptDoneStep(run.states[j - 1], run.steps[j - 1], run.maxAttempts, id);
    }
  }

  // ---- More workers ----

  /** A finished delivery is undone exactly by the failure write of a worker that had claimed it before. */
  lemma DoneUndoneIff(s: State, step: Step, maxAttempts: int, id: nat)
    requires Enabled(s, step) && IsDone(s, id)
    ensures !IsDone(Next(s, step, maxAttempts), id) <==> step.Write? && s.desks[step.w].hand == Some(Hand(id, Error))
  {
    match step {
      case Restart(w) => if HasOutcome(s, w) {}
      case _ =>
    }
  }

  lemma DoneStep(s: State, step: Step, maxAttempts: int, id: nat)
    requires Enabled(s, step) && Lone(s, maxAttempts) && IsDone(s, id)
    ensures id < |Next(s, step, maxAttempts).deliveries| && Next(s, step, maxAttempts).deliveries[id] == s.deliveries[id]
  {
    match step {
      case Restart(w) => if HasOutcome(s, w) {}
      case _ =>
    }
  }

  /** With one worker, a delivery that was sent or skipped is never touched again. */
  lemma {:induction false} DoneForGood(run: Run, i: nat, j: nat, id: nat)
    requires run.Valid() && i <= j < |run.states| && |run.states[0].desks| == 1 && IsDone(run.states[i], id)
    ensures id < |run.states[j].deliveries| && run.states[j].deliveries[id] == run.states[i].deliveries[id]
    decreases j
  {
    if i < j {
      DoneForGood(run, i, j - 1, id);
      RunKeepsLone(run, j - 1);
      DoneStep(run.states[j - 1], run.steps[j - 1], run.maxAttempts, id);
    }
  }

  function Last(run: Run): State
    requires run.states != []
  {
    run.states[|run.states| - 1]
  }

  lemma Extend(run: Run, step: Step) returns (longer: Run)
    requires run.Valid() && Enabled(Last(run), step)
    ensures longer.Valid() && longer.maxAttempts == run.maxAttempts && Last(longer) == Next(Last(run), step, run.maxAttempts)
    ensures longer.states[0] == run.states[0]
  {
    longer := Run(run.maxAttempts, run.states + [Next(Last(run), step, run.maxAttempts)], run.steps + [step]);
    forall k | 0 <= k < |longer.steps|
      ensures Enabled(longer.states[k], longer.steps[k])
      ensures longer.states[k + 1] == Next(longer.states[k], longer.steps[k], run.maxAttempts)
    {
      if k < |run.steps| {
        assert longer.states[k] == run.states[k] && longer.states[k + 1] == run.states[k + 1] && longer.steps[k] == run.steps[k];
      }
    }
  }

  function Two(delivery: Delivery, first: Desk, second: Desk, now: Instant): State {
    State([delivery], [first, second], now, NOTHING, UNWRITTEN)
  }

  const LATE := STALE_LOCK + 1

  /** The first has claimed the only delivery. */
  lemma OneClaimed(maxAttempts: int) returns (run: Run)
    requires maxAttempts >= 1
    ensures run.Valid() && run.maxAttempts == maxAttempts && |run.states[0].desks| == 2
    ensures Last(run) == Two(Claimed(Retried(0), 0), Desk([0], None, 0), Desk([], None, 0), 0)
  {
    var idle := Desk([], None, 0);
    run := Run(maxAttempts, [State([], [idle, idle], 0, NOTHING, UNWRITTEN)], []);
    run := Extend(run, Add);
    assert Last(run) == Two(Retried(0), idle, idle, 0);
    run := Extend(run, Claim(0, [0]));
    assert Last(run).deliveries == [Claimed(Retried(0), 0)];
  }

  /** The lock of the first went stale, and the second has claimed the delivery too. */
  lemma BothClaimed(maxAttempts: int) returns (run: Run)
    requires maxAttempts >= 1
    ensures run.Valid() && run.maxAttempts == maxAttempts && |run.states[0].desks| == 2
    ensures Last(run) == Two(Claimed(Retried(0), LATE), Desk([0], None, 0), Desk([0], None, LATE), LATE)
  {
    run := OneClaimed(maxAttempts);
    run := Extend(run, Tick(LATE));
    run := Extend(run, Claim(1, [0]));
    assert Last(run).deliveries == [Claimed(Retried(0), LATE)];
  }

  /** The second sends and writes SENT; the late failure of the first undoes it. */
  lemma Undone(maxAttempts: int) returns (run: Run)
    requires maxAttempts >= 2
    ensures run.Valid() && run.maxAttempts == maxAttempts && |run.states[0].desks| == 2
    ensures Last(run).deliveries == [Delivery(Waiting, 1, LATE + MinutesBackoff(0), None)]
    ensures |Last(run).desks| == 2 && Last(run).desks[0].Idle() && Last(run).now == LATE
    ensures Last(run).tally.delivered[0] == 1 && Last(run).tally.lost == multiset{}
  {
    run := BothClaimed(maxAttempts);
    run := Extend(run, Send(1, Delivered));
    run := Extend(run, Write(1));
    run := Extend(run, Send(0, Error));
    run := Extend(run, Write(0));
    assert [0][1..] == [];
  }

  /** Two workers can deliver twice although every status write succeeds. */
  lemma TwoWorkersDeliverTwice(maxAttempts: int) returns (run: Run)
    requires maxAttempts >= 2
    ensures run.Valid() && run.maxAttempts == maxAttempts && |run.states[0].desks| == 2
    ensures Last(run).tally.delivered[0] == 2 && Last(run).tally.lost == multiset{}
  {
    run := Undone(maxAttempts);
    MinutesBackoffBounds(0);
    run := Extend(run, Tick(LATE + MinutesBackoff(0)));
    run := Extend(run, Claim(0, [0]));
    run := Extend(run, Send(0, Delivered));
  }
}
