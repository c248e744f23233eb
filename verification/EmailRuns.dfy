/**
 * Every interleaving of e-mail workers with the callers that enqueue: the hand-over to the mail provider and the
 * status write after it are two steps, and the second may fail or be lost to a restart. What is mailed, and how often.
 */
module EmailRuns {
  import opened Wrappers
  import opened EmailOutbox

  /** The notification a worker has read as pending, with the provider's answer once it is there. */
  datatype Hand = Hand(id: nat, answer: Option<bool>)

  /** The ids a worker has still to process, popped or listed, and the one it is at. */
  datatype Desk = Desk(batch: seq<nat>, hand: Option<Hand>)

  /** marked counts the writes of SENT. */
  datatype State = State(notifications: seq<Notification>, queue: seq<nat>, desks: seq<Desk>, tally: Tally, marked: multiset<nat>)

  datatype Step =
    | Enqueue(key: Id, now: Instant, reachable: bool)
    | Pop(w: nat)
    | List(w: nat, cutoff: Instant, ids: seq<nat>)
    | Read(w: nat)
    | ReadFails(w: nat)
    | Send(w: nat, accepted: bool)
    | Write(w: nat)
    | WriteFails(w: nat)
    | Restart(w: nat)

  predicate Idle(s: State, w: nat) {
    w < |s.desks| && s.desks[w] == Desk([], None)
  }

  predicate HasNext(s: State, w: nat) {
    w < |s.desks| && s.desks[w].hand.None? && s.desks[w].batch != []
  }

  /** The worker has the provider's answer for id. */
  predicate HasAnswer(s: State, w: nat) {
    w < |s.desks| && s.desks[w].hand.Some? && s.desks[w].hand.value.answer.Some? && s.desks[w].hand.value.id < |s.notifications|
  }

  ghost predicate Enabled(s: State, step: Step) {
    match step
    case Enqueue(_, _, _) => true
    case Pop(w) => Idle(s, w) && s.queue != []
    case List(w, cutoff, ids) => Idle(s, w) && OldestPending(s.notifications, cutoff, SWEEP_LIMIT, ids)
    case Read(w) => HasNext(s, w)
    case ReadFails(w) => HasNext(s, w)
    case Send(w, _) => w < |s.desks| && s.desks[w].hand.Some? && s.desks[w].hand.value.answer.None?
    case Write(w) => HasAnswer(s, w)
    case WriteFails(w) => HasAnswer(s, w)
    case Restart(w) => w < |s.desks|
  }

  function WithDesk(s: State, w: nat, desk: Desk): State
    requires w < |s.desks|
  {
    s.(desks := s.desks[w := desk])
  }

  function AfterEnqueue(s: State, key: Id, now: Instant, reachable: bool): State {
    if HasKey(s.notifications, key) then s
    else s.(notifications := s.notifications + [Notification(key, Pending, 0, now)],
            queue := if reachable then s.queue + [|s.notifications|] else s.queue)
  }

  function AfterRead(s: State, w: nat): State
    requires HasNext(s, w)
  {
    var id, batch := s.desks[w].batch[0], s.desks[w].batch[1..];
    WithDesk(s, w, Desk(batch, if IsPending(s.notifications, id) then Some(Hand(id, None)) else None))
  }

  function AfterSend(s: State, w: nat, accepted: bool): State
    requires w < |s.desks| && s.desks[w].hand.Some?
  {
    var id := s.desks[w].hand.value.id;
    WithDesk(s, w, s.desks[w].(hand := Some(Hand(id, Some(accepted))))).(tally := s.tally.Tried(id, accepted))
  }

  /** The statements name only the row. */
  function AfterWrite(s: State, w: nat, maxAttempts: int): State
    requires HasAnswer(s, w)
  {
    var Hand(id, answer) := s.desks[w].hand.value;
    WithDesk(s, w, s.desks[w].(hand := None)).(
      notifications := s.notifications[id := Answered(s.notifications[id], answer.value, maxAttempts)],
      marked := s.marked[id := s.marked[id] + Once(answer.value)])
  }

  function AfterLost(s: State, w: nat, desk: Desk): State
    requires HasAnswer(s, w)
  {
    var Hand(id, answer) := s.desks[w].hand.value;
    WithDesk(s, w, desk).(tally := s.tally.Lost(id, answer.value))
  }

  function Next(s: State, step: Step, maxAttempts: int): State
    requires Enabled(s, step)
  {
    match step
    case Enqueue(key, now, reachable) => AfterEnqueue(s, key, now, reachable)
    case Pop(w) => WithDesk(s, w, Desk([s.queue[0]], None)).(queue := s.queue[1..])
    case List(w, _, ids) => WithDesk(s, w, Desk(ids, None))
    case Read(w) => AfterRead(s, w)
    case ReadFails(w) => WithDesk(s, w, s.desks[w].(batch := s.desks[w].batch[1..]))
    case Send(w, accepted) => AfterSend(s, w, accepted)
    case Write(w) => AfterWrite(s, w, maxAttempts)
    case WriteFails(w) => AfterLost(s, w, s.desks[w].(hand := None))
    case Restart(w) => if HasAnswer(s, w) then AfterLost(s, w, Desk([], None)) else WithDesk(s, w, Desk([], None))
  }

  predicate Initial(s: State) {
    && s.notifications == [] && s.queue == [] && s.tally == NOTHING && s.marked == multiset{}
    && forall w :: 0 <= w < |s.desks| ==> s.desks[w] == Desk([], None)
  }

  datatype Run = Run(maxAttempts: int, states: seq<State>, steps: seq<Step>) {
    ghost predicate Valid() {
      && maxAttempts >= 1 && |states| == |steps| + 1 && Initial(states[0])
      && forall k :: 0 <= k < |steps| ==> Enabled(states[k], steps[k]) && states[k + 1] == Next(states[k], steps[k], maxAttempts)
    }
  }

  lemma {:induction false} RunKeysUnique(run: Run, k: nat)
    requires run.Valid() && k < |run.states|
    ensures KeysUnique(run.states[k].notifications)
  {
    if k > 0 {
      RunKeysUnique(run, k - 1);
      StepKeepsKeys(run.states[k - 1], run.steps[k - 1], run.maxAttempts);
    }
  }

  /** However often an entity is enqueued, it has one row. */
  lemma StepKeepsKeys(s: State, step: Step, maxAttempts: int)
    requires Enabled(s, step) && KeysUnique(s.notifications)
    ensures KeysUnique(Next(s, step, maxAttempts).notifications)
  {
    match step {
      case Restart(w) => if HasAnswer(s, w) {}
      case _ =>
    }
  }

  /** Worker.Process is the three steps of one worker with nothing in between. */
  lemma ProcessIsSteps(s: State, w: nat, accepted: bool, written: bool, maxAttempts: int)
    requires HasNext(s, w) && IsPending(s.notifications, s.desks[w].batch[0])
    ensures var read := Next(s, Read(w), maxAttempts);
      && Enabled(read, Send(w, accepted))
      && var sent := Next(read, Send(w, accepted), maxAttempts);
         var last := if written then Write(w) else WriteFails(w);
         && Enabled(sent, last)
         && var after, id := Next(sent, last, maxAttempts), s.desks[w].batch[0];
            && after.desks == s.desks[w := Desk(s.desks[w].batch[1..], None)]
            && after.notifications == (if written then s.notifications[id := Answered(s.notifications[id], accepted, maxAttempts)] else s.notifications)
            && after.tally == if written then s.tally.Tried(id, accepted) else s.tally.Tried(id, accepted).Lost(id, accepted)
  {
  }

  // ---- Conservation, for any number of workers ----

  /** How many workers hold exactly this. */
  function Held(desks: seq<Desk>, hand: Hand): nat {
    if desks == [] then 0
    else Held(desks[..|desks| - 1], hand) + Once(desks[|desks| - 1].hand == Some(hand))
  }

  lemma {:induction false} HeldUpdate(desks: seq<Desk>, w: nat, desk: Desk, hand: Hand)
    requires w < |desks|
    ensures Held(desks[w := desk], hand) == Held(desks, hand) - Once(desks[w].hand == Some(hand)) + Once(desk.hand == Some(hand))
    decreases |desks|
  {
    var last := |desks| - 1;
    if w < last {
      HeldUpdate(desks[..last], w, desk, hand);
      assert desks[w := desk][..last] == desks[..last][w := desk];
    } else {
      assert desks[w := desk][..last] == desks[..last];
    }
  }

  /** The answers for id that workers hold, and those of them that are acceptances. */
  function Accepted(desks: seq<Desk>, id: nat): nat {
    Held(desks, Hand(id, Some(true)))
  }

  function Refused(desks: seq<Desk>, id: nat): nat {
    Held(desks, Hand(id, Some(false)))
  }

  function Attempts(s: State, id: nat): nat {
    if id < |s.notifications| then s.notifications[id].attempts else 0
  }

  ghost predicate Conserved(s: State, id: nat) {
    && s.tally.tried[id] == Attempts(s, id) + s.marked[id] + s.tally.lost[id] + Accepted(s.desks, id) + Refused(s.desks, id)
    && s.tally.mailed[id] == s.marked[id] + s.tally.lostMails[id] + Accepted(s.desks, id)
    && s.tally.lostMails[id] <= s.tally.lost[id]
  }

  ghost predicate HandsKnown(s: State) {
    forall w :: 0 <= w < |s.desks| && s.desks[w].hand.Some? ==> s.desks[w].hand.value.id < |s.notifications|
  }

  lemma DeskHeld(s: State, w: nat, desk: Desk, id: nat)
    requires w < |s.desks|
    ensures Accepted(s.desks[w := desk], id)
      == Accepted(s.desks, id) - Once(s.desks[w].hand == Some(Hand(id, Some(true)))) + Once(desk.hand == Some(Hand(id, Some(true))))
    ensures Refused(s.desks[w := desk], id)
      == Refused(s.desks, id) - Once(s.desks[w].hand == Some(Hand(id, Some(false)))) + Once(desk.hand == Some(Hand(id, Some(false))))
  {
    HeldUpdate(s.desks, w, desk, Hand(id, Some(true)));
    HeldUpdate(s.desks, w, desk, Hand(id, Some(false)));
  }

  lemma SendConserves(s: State, w: nat, accepted: bool, id: nat)
    requires Enabled(s, Send(w, accepted)) && Conserved(s, id)
    ensures Conserved(AfterSend(s, w, accepted), id)
  {
    DeskHeld(s, w, AfterSend(s, w, accepted).desks[w], id);
  }

  lemma WriteConserves(s: State, w: nat, maxAttempts: int, id: nat)
    requires HasAnswer(s, w) && Conserved(s, id)
    ensures Conserved(AfterWrite(s, w, maxAttempts), id)
  {
    DeskHeld(s, w, s.desks[w].(hand := None), id);
  }

  lemma LostConserves(s: State, w: nat, desk: Desk, id: nat)
    requires HasAnswer(s, w) && desk.hand.None? && Conserved(s, id)
    ensures Conserved(AfterLost(s, w, desk), id)
  {
    DeskHeld(s, w, desk, id);
  }

  /** Nothing is in a hand before an answer. */
  lemma DeskConserves(s: State, w: nat, desk: Desk, id: nat)
    requires w < |s.desks| && !HasAnswer(s, w) && HandsKnown(s) && Conserved(s, id)
    requires desk.hand.Some? ==> desk.hand.value.answer.None?
    ensures Conserved(WithDesk(s, w, desk), id)
  {
    DeskHeld(s, w, desk, id);
  }

  lemma StepConserves(s: State, step: Step, maxAttempts: int, id: nat)
    requires Enabled(s, step) && HandsKnown(s) && Conserved(s, id)
    ensures Conserved(Next(s, step, maxAttempts), id)
  {
    match step {
      case Enqueue(_, _, _) =>
      case Pop(w) => DeskConserves(s, w, Next(s, step, maxAttempts).desks[w], id);
      case List(w, _, ids) => DeskConserves(s, w, Desk(ids, None), id);
      case Read(w) => DeskConserves(s, w, AfterRead(s, w).desks[w], id);
      case ReadFails(w) => DeskConserves(s, w, Next(s, step, maxAttempts).desks[w], id);
      case Send(w, accepted) => SendConserves(s, w, accepted, id);
      case Write(w) => WriteConserves(s, w, maxAttempts, id);
      case WriteFails(w) => LostConserves(s, w, s.desks[w].(hand := None), id);
      case Restart(w) =>
        if HasAnswer(s, w) { LostConserves(s, w, Desk([], None), id); } else { DeskConserves(s, w, Desk([], None), id); }
    }
  }

  lemma StepKeepsHands(s: State, step: Step, maxAttempts: int)
    requires Enabled(s, step) && HandsKnown(s)
    ensures HandsKnown(Next(s, step, maxAttempts)) && |Next(s, step, maxAttempts).desks| == |s.desks|
  {
  }

  lemma {:induction false} NothingHeld(desks: seq<Desk>, hand: Hand)
    requires forall w :: 0 <= w < |desks| ==> desks[w].hand.None?
    ensures Held(desks, hand) == 0
  {
    if desks != [] {
      NothingHeld(desks[..|desks| - 1], hand);
    }
  }

  lemma {:induction false} RunConserves(run: Run, k: nat, id: nat)
    requires run.Valid() && k < |run.states|
    ensures HandsKnown(run.states[k]) && Conserved(run.states[k], id) && |run.states[k].desks| == |run.states[0].desks|
  {
    if k == 0 {
      NothingHeld(run.states[0].desks, Hand(id, Some(true)));
      NothingHeld(run.states[0].desks, Hand(id, Some(false)));
    } else {
      RunConserves(run, k - 1, id);
      StepConserves(run.states[k - 1], run.steps[k - 1], run.maxAttempts, id);
      StepKeepsHands(run.states[k - 1], run.steps[k - 1], run.maxAttempts);
    }
  }

  // ---- One worker ----

  /** What a single worker holds is pending, SENT was written once, and an unfinished notification has an attempt left. */
  ghost predicate Lone(s: State, maxAttempts: int) {
    && |s.desks| == 1
    && (s.desks[0].hand.Some? ==> IsPending(s.notifications, s.desks[0].hand.value.id))
    && (forall id :: 0 <= id < |s.notifications| ==>
          && s.marked[id] == Once(s.notifications[id].status.Sent?)
          && s.notifications[id].attempts <= maxAttempts
          && (!s.notifications[id].status.Failed? ==> s.notifications[id].attempts < maxAttempts))
    && forall id :: id >= |s.notifications| ==> s.marked[id] == 0
  }

  lemma StepKeepsLone(s: State, step: Step, maxAttempts: int)
    requires maxAttempts >= 1 && Enabled(s, step) && Lone(s, maxAttempts)
    ensures Lone(Next(s, step, maxAttempts), maxAttempts)
  {
    match step {
      case Restart(w) => if HasAnswer(s, w) {}
      case _ =>
    }
  }

  lemma {:induction false} RunKeepsLone(run: Run, k: nat)
    requires run.Valid() && k < |run.states| && |run.states[0].desks| == 1
    ensures Lone(run.states[k], run.maxAttempts)
  {
    if k > 0 {
      RunKeepsLone(run, k - 1);
      StepKeepsLone(run.states[k - 1], run.steps[k - 1], run.maxAttempts);
    }
  }

  predicate IsSent(s: State, id: nat) {
    id < |s.notifications| && s.notifications[id].status.Sent?
  }

  /**
   * One worker hands a notification to the mail provider at most maxAttempts times and once for each status write that
   * was lost, and has it mailed once and once more for each write that was lost after an acceptance.
   */
  lemma MailedOnceButForLostWrites(run: Run, k: nat, id: nat)
    requires run.Valid() && k < |run.states| && |run.states[0].desks| == 1
    ensures run.states[k].tally.tried[id] <= run.maxAttempts + run.states[k].tally.lost[id]
    ensures run.states[k].tally.mailed[id] <= 1 + run.states[k].tally.lostMails[id]
    ensures |run.states[k].desks| == 1
    ensures run.states[k].desks[0].hand.None? ==>
      run.states[k].tally.mailed[id] == Once(IsSent(run.states[k], id)) + run.states[k].tally.lostMails[id]
  {
    RunConserves(run, k, id);
    RunKeepsLone(run, k);
    LoneHeld(run.states[k], id);
  }

  lemma LoneHeld(s: State, id: nat)
    requires |s.desks| == 1
    ensures Accepted(s.desks, id) == Once(s.desks[0].hand == Some(Hand(id, Some(true))))
    ensures Refused(s.desks, id) == Once(s.desks[0].hand == Some(Hand(id, Some(false))))
  {
    assert s.desks[..|s.desks| - 1] == [];
    assert forall hand :: Held(s.desks, hand) == Held([], hand) + Once(s.desks[0].hand == Some(hand));
  }

  /** The status write after an acceptance of id does not happen. */
  predicate LosesMail(s: State, step: Step, id: nat) {
    (step.WriteFails? || step.Restart?) && HasAnswer(s, step.w) && s.desks[step.w].hand.value == Hand(id, Some(true))
  }

  predicate Mails(s: State, step: Step, id: nat) {
    step.Send? && step.accepted && step.w < |s.desks| && s.desks[step.w].hand == Some(Hand(id, None))
  }

  lemma TallyStep(s: State, step: Step, maxAttempts: int, id: nat)
    requires Enabled(s, step)
    ensures Next(s, step, maxAttempts).tally.mailed[id] == s.tally.mailed[id] + Once(Mails(s, step, id))
    ensures Next(s, step, maxAttempts).tally.lostMails[id] == s.tally.lostMails[id] + Once(LosesMail(s, step, id))
  {
    match step {
      case Restart(w) => if HasAnswer(s, w) {}
      case _ =>
    }
  }

  ghost predicate MailLost(run: Run, k: nat, id: nat)
    requires run.Valid() && k < |run.states|
  {
    exists i: nat :: i < k && LosesMail(run.states[i], run.steps[i], id)
  }

  ghost predicate MailsAfterLoss(run: Run, j: nat, k: nat, id: nat)
    requires run.Valid() && k < |run.states|
  {
    j < k && Mails(run.states[j], run.steps[j], id) && MailLost(run, j, id)
  }

  /** A status write was lost after an acceptance of id, and a later hand-over of it was accepted too. */
  ghost predicate MailedAfterLoss(run: Run, k: nat, id: nat)
    requires run.Valid() && k < |run.states|
  {
    exists j: nat :: MailsAfterLoss(run, j, k, id)
  }

  lemma {:induction false} LostIffStep(run: Run, k: nat, id: nat)
    requires run.Valid() && k < |run.states|
    ensures run.states[k].tally.lostMails[id] > 0 <==> MailLost(run, k, id)
  {
    if k > 0 {
      LostIffStep(run, k - 1, id);
      TallyStep(run.states[k - 1], run.steps[k - 1], run.maxAttempts, id);
      assert MailLost(run, k, id) <==> MailLost(run, k - 1, id) || LosesMail(run.states[k - 1], run.steps[k - 1], id);
    }
  }

  /** With one worker, what is handed over had been mailed only if a write was lost. */
  lemma MailedBefore(run: Run, k: nat, id: nat)
    requires run.Valid() && k < |run.steps| && |run.states[0].desks| == 1 && Mails(run.states[k], run.steps[k], id)
    ensures run.states[k].tally.mailed[id] > 0 <==> MailLost(run, k, id)
  {
    RunConserves(run, k, id);
    RunKeepsLone(run, k);
    LoneHeld(run.states[k], id);
    LostIffStep(run, k, id);
  }

  lemma MailedAfterLossNext(run: Run, k: nat, id: nat)
    requires run.Valid() && k < |run.steps|
    ensures MailedAfterLoss(run, k + 1, id) <==>
      MailedAfterLoss(run, k, id) || (Mails(run.states[k], run.steps[k], id) && MailLost(run, k, id))
  {
    if MailedAfterLoss(run, k, id) {
      var j: nat :| MailsAfterLoss(run, j, k, id);
      assert MailsAfterLoss(run, j, k + 1, id);
    }
    if Mails(run.states[k], run.steps[k], id) && MailLost(run, k, id) {
      assert MailsAfterLoss(run, k, k + 1, id);
    }
    if MailedAfterLoss(run, k + 1, id) {
      var j: nat :| MailsAfterLoss(run, j, k + 1, id);
      if j < k {
        assert MailsAfterLoss(run, j, k, id);
      }
    }
  }

  /** One worker has a notification mailed twice exactly when a status write was lost after an acceptance, and a later one came. */
  lemma {:induction false} MailedTwiceIff(run: Run, k: nat, id: nat)
    requires run.Valid() && k < |run.states| && |run.states[0].desks| == 1
    ensures run.states[k].tally.mailed[id] >= 2 <==> MailedAfterLoss(run, k, id)
  {
    if k > 0 {
      MailedTwiceIff(run, k - 1, id);
      MailedAfterLossNext(run, k - 1, id);
      TallyStep(run.states[k - 1], run.steps[k - 1], run.maxAttempts, id);
      if Mails(run.states[k - 1], run.steps[k - 1], id) {
        MailedBefore(run, k - 1, id);
      }
    }
  }

  // ---- More workers ----

  /** SENT is undone exactly by the failure write of a worker that had read the row before. */
  lemma SentUndoneIff(s: State, step: Step, maxAttempts: int, id: nat)
    requires Enabled(s, step) && IsSent(s, id)
    ensures !IsSent(Next(s, step, maxAttempts), id) <==> step.Write? && s.desks[step.w].hand == Some(Hand(id, Some(false)))
  {
    match step {
      case Restart(w) => if HasAnswer(s, w) {}
      case _ =>
    }
  }

  /** With one worker it never is. */
  lemma {:induction false} SentForGood(run: Run, i: nat, j: nat, id: nat)
    requires run.Valid() && i <= j < |run.states| && |run.states[0].desks| == 1 && IsSent(run.states[i], id)
    ensures IsSent(run.states[j], id)
    decreases j
  {
    if i < j {
      SentForGood(run, i, j - 1, id);
      RunKeepsLone(run, j - 1);
      SentUndoneIff(run.states[j - 1], run.steps[j - 1], run.maxAttempts, id);
    }
  }

  function Last(run: Run): State
    requires run.states != []
  {
    run.states[|run.states| - 1]
  }

  lemma Extend(run: Run, step: Step) returns (longer: Run)
    requires run.Valid() && Enabled(Last(run), step)
    ensures longer.Valid() && longer.maxAttempts == run.maxAttempts && Last(longer) == Next(Last(run), step, run.maxAttempts)
    ensures longer.states[0] == run.states[0]
  {
    longer := Run(run.maxAttempts, run.states + [Next(Last(run), step, run.maxAttempts)], run.steps + [step]);
    forall k | 0 <= k < |longer.steps|
      ensures Enabled(longer.states[k], longer.steps[k])
      ensures longer.states[k + 1] == Next(longer.states[k], longer.steps[k], run.maxAttempts)
    {
      if k < |run.steps| {
        assert longer.states[k] == run.states[k] && longer.states[k + 1] == run.states[k + 1] && longer.steps[k] == run.steps[k];
      }
    }
  }

  /** One pending notification, and two workers. */
  function Two(key: Id, first: Desk, second: Desk): State {
    State([Notification(key, Pending, 0, 0)], [], [first, second], NOTHING, multiset{})
  }

  /** The queue has given the id to the first. */
  lemma Popped(key: Id, maxAttempts: int) returns (run: Run)
    requires maxAttempts >= 1
    ensures run.Valid() && run.maxAttempts == maxAttempts && |run.states[0].desks| == 2
    ensures Last(run) == Two(key, Desk([0], None), Desk([], None))
  {
    run := Run(maxAttempts, [State([], [], [Desk([], None), Desk([], None)], NOTHING, multiset{})], []);
    run := Extend(run, Enqueue(key, 0, true));
    assert Last(run).notifications == [Notification(key, Pending, 0, 0)] && Last(run).queue == [0];
    run := Extend(run, Pop(0));
    assert Last(run).queue == [];
  }

  /** A sweep gives it to the second, and both read it as pending. */
  lemma BothRead(key: Id, maxAttempts: int) returns (run: Run)
    requires maxAttempts >= 1
    ensures run.Valid() && run.maxAttempts == maxAttempts && |run.states[0].desks| == 2
    ensures Last(run) == Two(key, Desk([], Some(Hand(0, None))), Desk([], Some(Hand(0, None))))
  {
    run := Popped(key, maxAttempts);
    run := Extend(run, List(1, 1, [0]));
    assert Last(run) == Two(key, Desk([0], None), Desk([0], None));
    run := Extend(run, Read(0));
    run := Extend(run, Read(1));
    assert [0][1..] == [];
  }

  /** The failure of the second undoes the SENT of the first. */
  lemma Undone(key: Id, maxAttempts: int) returns (run: Run)
    requires maxAttempts >= 2
    ensures run.Valid() && run.maxAttempts == maxAttempts && |run.states[0].desks| == 2
    ensures Last(run).notifications == [Notification(key, Pending, 1, 0)] && Last(run).desks == [Desk([], None), Desk([], None)]
    ensures Last(run).tally.mailed[0] == 1 && Last(run).tally.lost == multiset{}
  {
    run := BothRead(key, maxAttempts);
    run := Extend(run, Send(0, true));
    run := Extend(run, Write(0));
    run := Extend(run, Send(1, false));
    run := Extend(run, Write(1));
  }

  /** Two workers can mail a notification twice although every status write succeeds. */
  lemma TwoWorkersMailTwice(key: Id, maxAttempts: int) returns (run: Run)
    requires maxAttempts >= 2
    ensures run.Valid() && run.maxAttempts == maxAttempts && |run.states[0].desks| == 2
    ensures Last(run).tally.mailed[0] == 2 && Last(run).tally.lost == multiset{}
  {
    run := Undone(key, maxAttempts);
    run := Extend(run, List(0, 1, [0]));
    run := Extend(run, Read(0));
    run := Extend(run, Send(0, true));
  }
}
