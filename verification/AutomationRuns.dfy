/**
 * Every interleaving of announcement schedulers with administrators, registrations and the callers that enqueue other
 * messages, statement by statement: when an automation is final, and what its recipients have then been sent.
 */
module AutomationRuns {
  import opened Wrappers
  import opened Backoffs
  import opened Announcements
  import opened Automations

  /** An automation as the claim has returned it. */
  datatype Item = Item(id: nat, event: Id, text: Id)

  /** The fan-out under way has enqueued the first next of its targets; a broken one has still to count its failure. */
  datatype Hand = Free | Sending(item: Item, targets: seq<Recipient>, next: nat) | Broken(item: Item)

  /** A scheduler: what it has claimed and not begun, and the automation it is at. */
  datatype Desk = Desk(batch: seq<Item>, hand: Hand)

  datatype State = State(automations: seq<Automation>, entries: seq<Entry>, outbox: Outbox, desks: seq<Desk>, now: Instant)

  datatype Step =
    | Create(event: Id, text: Id, sendAt: Option<Instant>, scheduled: bool)
    | Update(id: nat, text: Id, sendAt: Option<Instant>, scheduled: bool)
    | Cancel(id: nat)
    | Enrol(entries: seq<Entry>)
    | Elsewhere(key: Key, notice: Notice)
    | Claim(w: nat, ids: seq<nat>)
    | List(w: nat)
    | ListFails(w: nat)
    | Deliver(w: nat)
    | DeliverFails(w: nat)
    | Write(w: nat)
    | WriteFails(w: nat)
    | Restart(w: nat)
    | Tick(to: Instant)

  predicate HasNext(s: State, w: nat) {
    w < |s.desks| && s.desks[w].hand.Free? && s.desks[w].batch != []
  }

  /** The fan-out has a target left. */
  predicate MidFanOut(s: State, w: nat) {
    w < |s.desks| && s.desks[w].hand.Sending? && s.desks[w].hand.next < |s.desks[w].hand.targets|
  }

  /** The attempt is over, and its end has still to be written. */
  predicate AtEnd(s: State, w: nat) {
    && w < |s.desks| && !s.desks[w].hand.Free? && s.desks[w].hand.item.id < |s.automations|
    && (s.desks[w].hand.Sending? ==> s.desks[w].hand.next >= |s.desks[w].hand.targets|)
  }

  /** A scheduler polls again only when its poll is done. Only schedulers write announcements. */
  ghost predicate Enabled(s: State, step: Step) {
    match step
    case Create(_, _, _, _) => true
    case Update(id, _, _, _) => id < |s.automations| && s.automations[id].Mutable()
    case Cancel(id) => id < |s.automations| && s.automations[id].Mutable()
    case Enrol(entries) => DistinctEntries(entries)
    case Elsewhere(key, _) => !key.kind.Announcement?
    case Claim(w, ids) => w < |s.desks| && s.desks[w] == Desk([], Free) && FirstToSend(s.automations, s.now, POLL_LIMIT, ids)
    case List(w) => HasNext(s, w)
    case ListFails(w) => HasNext(s, w)
    case Deliver(w) => MidFanOut(s, w)
    case DeliverFails(w) => MidFanOut(s, w)
    case Write(w) => AtEnd(s, w)
    case WriteFails(w) => AtEnd(s, w)
    case Restart(w) => w < |s.desks|
    case Tick(to) => s.now <= to
  }

  function WithDesk(s: State, w: nat, desk: Desk): State
    requires w < |s.desks|
  {
    s.(desks := s.desks[w := desk])
  }

  function Items(automations: seq<Automation>, ids: seq<nat>): (items: seq<Item>)
    requires forall i :: 0 <= i < |ids| ==> ids[i] < |automations|
    ensures |items| == |ids|
    ensures forall i :: 0 <= i < |ids| ==> items[i] == Item(ids[i], automations[ids[i]].event, automations[ids[i]].message)
  {
    seq(|ids|, i requires 0 <= i < |ids| => Item(ids[i], automations[ids[i]].event, automations[ids[i]].message))
  }

  function AfterClaim(s: State, w: nat, ids: seq<nat>): State
    requires w < |s.desks| && forall i :: 0 <= i < |ids| ==> ids[i] < |s.automations|
  {
    WithDesk(s, w, Desk(Items(s.automations, ids), Free)).(automations := ClaimedAll(s.automations, ids, s.now))
  }

  function AfterList(s: State, w: nat): State
    requires HasNext(s, w)
  {
    var item := s.desks[w].batch[0];
    WithDesk(s, w, Desk(s.desks[w].batch[1..], Sending(item, Targets(Roster(s.entries, item.event)), 0)))
  }

  function TextOf(item: Item): Message {
    Message(Announcement, item.id, item.text)
  }

  function AfterDeliver(s: State, w: nat): State
    requires MidFanOut(s, w)
  {
    var hand := s.desks[w].hand;
    var target := hand.targets[hand.next];
    WithDesk(s, w, s.desks[w].(hand := hand.(next := hand.next + 1))).(
      outbox := Enqueue(s.outbox, KeyFor(TextOf(hand.item), target), Notice(target.user, hand.item.text)))
  }

  /** The statements name only the row. */
  function AfterWrite(s: State, w: nat, maxAttempts: int): State
    requires AtEnd(s, w)
  {
    var hand := s.desks[w].hand;
    var a := s.automations[hand.item.id];
    WithDesk(s, w, s.desks[w].(hand := Free)).(automations := s.automations[hand.item.id :=
      if hand.Sending? then MarkedSent(a, |hand.targets|) else FailedOnce(a, s.now, maxAttempts)])
  }

  function Next(s: State, step: Step, maxAttempts: int): State
    requires Enabled(s, step)
  {
    match step
    case Create(event, text, sendAt, scheduled) =>
      s.(automations := s.automations + [Automation(event, text, sendAt, if scheduled then Scheduled else Draft, 0, 0, s.now, None)])
    case Update(id, text, sendAt, scheduled) =>
      s.(automations := s.automations[id := Updated(s.automations[id], text, sendAt, scheduled, s.now)])
    case Cancel(id) => s.(automations := s.automations[id := s.automations[id].(status := Cancelled)])
    case Enrol(entries) => s.(entries := entries)
    case Elsewhere(key, notice) => s.(outbox := Enqueue(s.outbox, key, notice))
    case Claim(w, ids) => AfterClaim(s, w, ids)
    case List(w) => AfterList(s, w)
    case ListFails(w) => WithDesk(s, w, Desk(s.desks[w].batch[1..], Broken(s.desks[w].batch[0])))
    case Deliver(w) => AfterDeliver(s, w)
    case DeliverFails(w) => WithDesk(s, w, s.desks[w].(hand := Broken(s.desks[w].hand.item)))
    case Write(w) => AfterWrite(s, w, maxAttempts)
    case WriteFails(w) => WithDesk(s, w, s.desks[w].(hand := Free))
    case Restart(w) => WithDesk(s, w, Desk([], Free))
    case Tick(to) => s.(now := to)
  }

  predicate Initial(s: State) {
    && s.automations == [] && s.entries == [] && s.outbox == Outbox(map[], map[])
    && forall w :: 0 <= w < |s.desks| ==> s.desks[w] == Desk([], Free)
  }

  datatype Run = Run(maxAttempts: int, states: seq<State>, steps: seq<Step>) {
    ghost predicate Valid() {
      && maxAttempts >= 1 && |states| == |steps| + 1 && Initial(states[0])
      && forall k :: 0 <= k < |steps| ==> Enabled(states[k], steps[k]) && states[k + 1] == Next(states[k], steps[k], maxAttempts)
    }
  }

  // ---- When an automation is final ----

  predicate Is(s: State, id: nat, status: Status) {
    id < |s.automations| && s.automations[id].status == status
  }

  /** The step writes the end of an attempt at id that scheduler w still holds. */
  predicate Ends(s: State, step: Step, id: nat) {
    step.Write? && step.w < |s.desks| && !s.desks[step.w].hand.Free? && s.desks[step.w].hand.item.id == id
  }

  /** SENT is left exactly by the failure of a scheduler that still holds the automation, and the row is changed by its end only. */
  lemma SentUndoneIff(s: State, step: Step, maxAttempts: int, id: nat)
    requires Enabled(s, step) && Is(s, id, Sent)
    ensures !Is(Next(s, step, maxAttempts), id, Sent) <==> Ends(s, step, id) && s.desks[step.w].hand.Broken?
    ensures !Ends(s, step, id) ==> id < |Next(s, step, maxAttempts).automations| && Next(s, step, maxAttempts).automations[id] == s.automations[id]
  {
  }

  /** CANCELLED is left exactly by the end, whatever it is, of an attempt that a scheduler still holds. */
  lemma CancelUndoneIff(s: State, step: Step, maxAttempts: int, id: nat)
    requires Enabled(s, step) && Is(s, id, Cancelled)
    ensures !Is(Next(s, step, maxAttempts), id, Cancelled) <==> Ends(s, step, id)
    ensures !Ends(s, step, id) ==> id < |Next(s, step, maxAttempts).automations| && Next(s, step, maxAttempts).automations[id] == s.automations[id]
  {
  }

  /** What a single scheduler has claimed is PROCESSING, and nothing is claimed twice. */
  ghost predicate DeskFits(desk: Desk, automations: seq<Automation>) {
    && (forall i :: 0 <= i < |desk.batch| ==> desk.batch[i].id < |automations| && automations[desk.batch[i].id].status.Processing?)
    && (forall i, j :: 0 <= i < j < |desk.batch| ==> desk.batch[i].id != desk.batch[j].id)
    && (!desk.hand.Free? ==>
          && desk.hand.item.id < |automations| && automations[desk.hand.item.id].status.Processing?
          && forall i :: 0 <= i < |desk.batch| ==> desk.batch[i].id != desk.hand.item.id)
  }

  ghost predicate Lone(s: State) {
    |s.desks| == 1 && DeskFits(s.desks[0], s.automations)
  }

  /** The desk is as before, and so is what it holds. */
  lemma OthersKeepLone(s: State, automations: seq<Automation>)
    requires Lone(s) && |automations| >= |s.automations|
    requires forall id :: 0 <= id < |s.automations| && s.automations[id].status.Processing? ==> automations[id].status.Processing?
    ensures DeskFits(s.desks[0], automations)
  {
  }

  lemma ClaimKeepsLone(s: State, w: nat, ids: seq<nat>)
    requires Enabled(s, Claim(w, ids)) && Lone(s)
    ensures Lone(AfterClaim(s, w, ids))
  {
  }

  lemma WriteKeepsLone(s: State, w: nat, maxAttempts: int)
    requires Enabled(s, Write(w)) && Lone(s)
    ensures Lone(AfterWrite(s, w, maxAttempts))
  {
  }

  lemma StepKeepsLone(s: State, step: Step, maxAttempts: int)
    requires Enabled(s, step) && Lone(s)
    ensures Lone(Next(s, step, maxAttempts))
  {
    match step {
      case Create(_, _, _, _) => OthersKeepLone(s, Next(s, step, maxAttempts).automations);
      case Update(_, _, _, _) => OthersKeepLone(s, Next(s, step, maxAttempts).automations);
      case Cancel(_) => OthersKeepLone(s, Next(s, step, maxAttempts).automations);
      case Claim(w, ids) => ClaimKeepsLone(s, w, ids);
      case Write(w) => WriteKeepsLone(s, w, maxAttempts);
      case _ =>
    }
  }

  lemma {:induction false} RunKeepsLone(run: Run, k: nat)
    requires run.Valid() && k < |run.states| && |run.states[0].desks| == 1
    ensures Lone(run.states[k])
  {
    if k > 0 {
      RunKeepsLone(run, k - 1);
      StepKeepsLone(run.states[k - 1], run.steps[k - 1], run.maxAttempts);
    }
  }

  predicate IsFinal(s: State, id: nat) {
    Is(s, id, Sent) || Is(s, id, Cancelled)
  }

  lemma FinalStep(s: State, step: Step, maxAttempts: int, id: nat)
    requires Lone(s) && Enabled(s, step) && IsFinal(s, id)
    ensures IsFinal(Next(s, step, maxAttempts), id) && Next(s, step, maxAttempts).automations[id] == s.automations[id]
  {
    if Is(s, id, Sent) {
      SentUndoneIff(s, step, maxAttempts, id);
    } else {
      CancelUndoneIff(s, step, maxAttempts, id);
    }
  }

  /** With one scheduler, an automation that was sent or cancelled is never changed, let alone sent again. */
  lemma {:induction false} FinalForGood(run: Run, i: nat, j: nat, id: nat)
    requires run.Valid() && i <= j < |run.states| && |run.states[0].desks| == 1 && IsFinal(run.states[i], id)
    ensures IsFinal(run.states[j], id) && run.states[j].automations[id] == run.states[i].automations[id]
    decreases j
  {
    if i < j {
      FinalForGood(run, i, j - 1, id);
      RunKeepsLone(run, j - 1);
      FinalStep(run.states[j - 1], run.steps[j - 1], run.maxAttempts, id);
    }
  }

  predicate IsIdle(s: State, id: nat) {
    Is(s, id, Draft) || Is(s, id, Failed)
  }

  predicate Updates(step: Step, id: nat) {
    step.Update? && step.id == id
  }

  lemma IdleStep(s: State, step: Step, maxAttempts: int, id: nat)
    requires Lone(s) && Enabled(s, step) && IsIdle(s, id) && !Updates(step, id)
    ensures var after := Next(s, step, maxAttempts);
      id < |after.automations| && (after.automations[id] == s.automations[id] || after.automations[id].status.Cancelled?)
  {
  }

  lemma IdleOrCancelledStep(s: State, step: Step, maxAttempts: int, id: nat)
    requires Lone(s) && Enabled(s, step) && !Updates(step, id) && (IsIdle(s, id) || Is(s, id, Cancelled))
    ensures var after := Next(s, step, maxAttempts);
      && (IsIdle(after, id) || Is(after, id, Cancelled))
      && (IsIdle(after, id) ==> IsIdle(s, id) && after.automations[id] == s.automations[id])
  {
    if IsIdle(s, id) {
      IdleStep(s, step, maxAttempts, id);
    } else {
      FinalStep(s, step, maxAttempts, id);
    }
  }

  /** With one scheduler, a draft or failed automation is not claimed until an administrator updates it. */
  lemma {:induction false} IdleUntilUpdated(run: Run, i: nat, j: nat, id: nat)
    requires run.Valid() && i <= j < |run.states| && |run.states[0].desks| == 1 && IsIdle(run.states[i], id)
    requires forall k :: i <= k < j ==> !Updates(run.steps[k], id)
    ensures IsIdle(run.states[j], id) || Is(run.states[j], id, Cancelled)
    ensures IsIdle(run.states[j], id) ==> run.states[j].automations[id] == run.states[i].automations[id]
    decreases j
  {
    if i < j {
      IdleUntilUpdated(run, i, j - 1, id);
      RunKeepsLone(run, j - 1);
      IdleOrCancelledStep(run.states[j - 1], run.steps[j - 1], run.maxAttempts, id);
    }
  }

  // ---- Two schedulers ----

  function Last(run: Run): State
    requires run.states != []
  {
    run.states[|run.states| - 1]
  }

  lemma Extend(run: Run, step: Step) returns (longer: Run)
    requires run.Valid() && Enabled(Last(run), step)
    ensures longer.Valid() && longer.maxAttempts == run.maxAttempts && Last(longer) == Next(Last(run), step, run.maxAttempts)
    ensures run.states <= longer.states && run.steps <= longer.steps
  {
    longer := Run(run.maxAttempts, run.states + [Next(Last(run), step, run.maxAttempts)], run.steps + [step]);
    forall k | 0 <= k < |longer.steps|
      ensures Enabled(longer.states[k], longer.steps[k])
      ensures longer.states[k + 1] == Next(longer.states[k], longer.steps[k], run.maxAttempts)
    {
      if k < |run.steps| {
        assert longer.states[k] == run.states[k] && longer.states[k + 1] == run.states[k + 1] && longer.steps[k] == run.steps[k];
      }
    }
  }

  /** The run passes through a state in which the automation has the status. */
  ghost predicate Passes(run: Run, id: nat, status: Status) {
    exists k :: 0 <= k < |run.states| && Is(run.states[k], id, status)
  }

  const LATE := STALE_LOCK + 1

  function Due0(event: Id, text: Id): Automation {
    Automation(event, text, Some(0), Scheduled, 0, 0, 0, None)
  }

  function Two(a: Automation, first: seq<Item>, second: seq<Item>, now: Instant): State {
    State([a], [], Outbox(map[], map[]), [Desk(first, Free), Desk(second, Free)], now)
  }

  lemma OneClaimed(a: Automation, now: Instant)
    ensures Items([a], [0]) == [Item(0, a.event, a.message)] && ClaimedAll([a], [0], now) == [Claimed(a, now)]
  {
  }

  /** The first has claimed the automation, and stalls past its lock. */
  lemma Stalled(event: Id, text: Id, maxAttempts: int) returns (run: Run)
    requires maxAttempts >= 1
    ensures run.Valid() && run.maxAttempts == maxAttempts
    ensures Last(run) == Two(Claimed(Due0(event, text), 0), [Item(0, event, text)], [], LATE)
  {
    run := Run(maxAttempts, [State([], [], Outbox(map[], map[]), [Desk([], Free), Desk([], Free)], 0)], []);
    run := Extend(run, Create(event, text, Some(0), true));
    assert Last(run) == Two(Due0(event, text), [], [], 0);
    OneClaimed(Due0(event, text), 0);
    run := Extend(run, Claim(0, [0]));
    assert Last(run) == Two(Claimed(Due0(event, text), 0), [Item(0, event, text)], [], 0);
    run := Extend(run, Tick(LATE));
  }

  /** The second has claimed it too. */
  lemma BothClaimed(event: Id, text: Id, maxAttempts: int) returns (run: Run)
    requires maxAttempts >= 1
    ensures run.Valid() && run.maxAttempts == maxAttempts
    ensures Last(run) == Two(Claimed(Due0(event, text), LATE), [Item(0, event, text)], [Item(0, event, text)], LATE)
  {
    run := Stalled(event, text, maxAttempts);
    OneClaimed(Claimed(Due0(event, text), 0), LATE);
    run := Extend(run, Claim(1, [0]));
  }

  /** The second sends it, and the late failure of the first schedules the automation again. */
  lemma TwoSchedulersReschedule(event: Id, text: Id, maxAttempts: int) returns (run: Run)
    requires maxAttempts >= 2
    ensures run.Valid() && run.maxAttempts == maxAttempts && Passes(run, 0, Sent) && Is(Last(run), 0, Scheduled)
  {
    run := BothClaimed(event, text, maxAttempts);
    run := Extend(run, List(1));
    run := Extend(run, Write(1));
    var sent := |run.states| - 1;
    assert Is(run.states[sent], 0, Sent);
    run := Extend(run, ListFails(0));
    run := Extend(run, Write(0));
    assert Is(run.states[sent], 0, Sent);
  }

  /** The second fails, an administrator cancels, and the first sends the cancelled automation after all. */
  lemma TwoSchedulersSendCancelled(event: Id, text: Id, maxAttempts: int) returns (run: Run)
    requires maxAttempts >= 1
    ensures run.Valid() && run.maxAttempts == maxAttempts && Passes(run, 0, Cancelled) && Is(Last(run), 0, Sent)
  {
    run := BothClaimed(event, text, maxAttempts);
    run := Extend(run, ListFails(1));
    run := Extend(run, Write(1));
    run := Extend(run, Cancel(0));
    var cancelled := |run.states| - 1;
    assert Is(run.states[cancelled], 0, Cancelled);
    run := Extend(run, List(0));
    run := Extend(run, Write(0));
    assert Is(run.states[cancelled], 0, Cancelled);
  }

  // ---- What the recipients have been sent ----

  /** The step enqueues the row of a recipient of an announcement. */
  predicate Announces(s: State, step: Step, key: Key) {
    step.Deliver? && MidFanOut(s, step.w) && key == KeyFor(TextOf(s.desks[step.w].hand.item), s.desks[step.w].hand.targets[s.desks[step.w].hand.next])
  }

  /** A row, once there, stays as it is; announcements are enqueued by fan-outs only, with the text that was claimed. */
  lemma RowByStep(s: State, step: Step, maxAttempts: int, key: Key)
    requires Enabled(s, step)
    ensures var after := Next(s, step, maxAttempts).outbox;
      && (key in s.outbox.notices ==> key in after.notices && after.notices[key] == s.outbox.notices[key])
      && (key.kind.Announcement? ==> (key in after.notices <==> key in s.outbox.notices || Announces(s, step, key)))
      && (key !in s.outbox.notices && Announces(s, step, key) ==> after.notices[key].message == s.desks[step.w].hand.item.text)
  {
  }

  lemma {:induction false} RowsStay(run: Run, i: nat, j: nat, key: Key)
    requires run.Valid() && i <= j < |run.states| && key in run.states[i].outbox.notices
    ensures key in run.states[j].outbox.notices && run.states[j].outbox.notices[key] == run.states[i].outbox.notices[key]
    decreases j
  {
    if i < j {
      RowsStay(run, i, j - 1, key);
      RowByStep(run.states[j - 1], run.steps[j - 1], run.maxAttempts, key);
    }
  }

  /** A fan-out goes through distinct recipients, each of whom has the row when it has gone past. */
  ghost predicate Reaching(s: State, w: nat)
    requires w < |s.desks|
  {
    s.desks[w].hand.Sending? ==>
      var (item, targets, next) := (s.desks[w].hand.item, s.desks[w].hand.targets, s.desks[w].hand.next);
      && next <= |targets| && Distinct(targets)
      && forall i :: 0 <= i < next ==> KeyFor(TextOf(item), targets[i]) in s.outbox.notices
  }

  ghost predicate Reach(s: State) {
    Paired(s.outbox) && DistinctEntries(s.entries) && forall w :: 0 <= w < |s.desks| ==> Reaching(s, w)
  }

  lemma ListReaches(s: State, w: nat)
    requires Reach(s) && HasNext(s, w)
    ensures Reach(AfterList(s, w))
  {
    var item := s.desks[w].batch[0];
    var roster := Roster(s.entries, item.event);
    RosterDistinct(s.entries, item.event);
    DistinctPrefix(roster, |Targets(roster)|);
    assert roster[..|roster|] == roster;
    forall v | 0 <= v < |s.desks| ensures Reaching(AfterList(s, w), v) {
      assert Reaching(s, v);
    }
  }

  lemma DeliverReaches(s: State, w: nat)
    requires Reach(s) && MidFanOut(s, w)
    ensures Reach(AfterDeliver(s, w))
  {
    assert Reaching(s, w);
    forall v | 0 <= v < |s.desks| ensures Reaching(AfterDeliver(s, w), v) {
      assert Reaching(s, v);
    }
  }

  lemma StepKeepsReach(s: State, step: Step, maxAttempts: int)
    requires Reach(s) && Enabled(s, step)
    ensures Reach(Next(s, step, maxAttempts))
  {
    match step {
      case List(w) => ListReaches(s, w);
      case Deliver(w) => DeliverReaches(s, w);
      case _ =>
        forall v | 0 <= v < |s.desks| ensures Reaching(Next(s, step, maxAttempts), v) {
          assert Reaching(s, v);
        }
    }
  }

  lemma {:induction false} RunReaches(run: Run, k: nat)
    requires run.Valid() && k < |run.states|
    ensures Reach(run.states[k])
  {
    if k > 0 {
      RunReaches(run, k - 1);
      StepKeepsReach(run.states[k - 1], run.steps[k - 1], run.maxAttempts);
    }
  }

  /** Scheduler w listed the roster by step l, and has been in that fan-out since. */
  ghost predicate Listed(run: Run, l: nat, k: nat, w: nat)
    requires run.Valid() && k < |run.states|
  {
    && l < k && run.steps[l] == List(w) && HasNext(run.states[l], w)
    && var item := run.states[l].desks[w].batch[0];
       forall m :: l < m <= k ==>
         && w < |run.states[m].desks| && run.states[m].desks[w].hand.Sending? && run.states[m].desks[w].hand.item == item
         && run.states[m].desks[w].hand.targets == Targets(Roster(run.states[l].entries, item.event))
  }

  lemma FanOutFrame(s: State, step: Step, maxAttempts: int, w: nat)
    requires Enabled(s, step) && w < |Next(s, step, maxAttempts).desks| && Next(s, step, maxAttempts).desks[w].hand.Sending?
    ensures w < |s.desks|
    ensures step != List(w) ==>
      && s.desks[w].hand.Sending? && s.desks[w].hand.item == Next(s, step, maxAttempts).desks[w].hand.item
      && s.desks[w].hand.targets == Next(s, step, maxAttempts).desks[w].hand.targets
  {
  }

  lemma {:induction false} HandListed(run: Run, k: nat, w: nat) returns (l: nat)
    requires run.Valid() && k < |run.states| && w < |run.states[k].desks| && run.states[k].desks[w].hand.Sending?
    ensures Listed(run, l, k, w)
  {
    var (s, step) := (run.states[k - 1], run.steps[k - 1]);
    FanOutFrame(s, step, run.maxAttempts, w);
    if step == List(w) {
      l := k - 1;
    } else {
      l := HandListed(run, k - 1, w);
    }
  }

  /**
   * An automation is marked SENT only when every recipient of the roster that its scheduler has listed - the newest ten
   * thousand confirmed registrations of the event - has a notification and a delivery, for good; and with their number.
   */
  lemma SentReachesRoster(run: Run, k: nat, w: nat, j: nat) returns (l: nat)
    requires run.Valid() && k < |run.steps| && k < j < |run.states| && run.steps[k] == Write(w) && AtEnd(run.states[k], w)
    requires run.states[k].desks[w].hand.Sending?
    ensures Listed(run, l, k, w)
    ensures var item := run.states[l].desks[w].batch[0];
            var targets := Targets(Roster(run.states[l].entries, item.event));
      && Is(run.states[k + 1], item.id, Sent) && run.states[k + 1].automations[item.id].sentCount == |targets|
      && forall i :: 0 <= i < |targets| ==>
           KeyFor(TextOf(item), targets[i]) in run.states[j].outbox.notices && KeyFor(TextOf(item), targets[i]) in run.states[j].outbox.deliveries
  {
    l := HandListed(run, k, w);
    var item := run.states[l].desks[w].batch[0];
    var targets := Targets(Roster(run.states[l].entries, item.event));
    RunReaches(run, k);
    RunReaches(run, j);
    assert Reaching(run.states[k], w);
    forall i | 0 <= i < |targets| ensures KeyFor(TextOf(item), targets[i]) in run.states[j].outbox.notices {
      RowsStay(run, k, j, KeyFor(TextOf(item), targets[i]));
    }
  }

  // ---- With which text ----

  /** With one scheduler, the announcements that have been added since the listing are the fan-out's, with its text. */
  lemma {:induction false} AddedSince(run: Run, l: nat, k: nat, key: Key)
    requires run.Valid() && k < |run.states| && |run.states[0].desks| == 1 && Listed(run, l, k, 0)
    requires key.kind.Announcement? && key in run.states[k].outbox.notices && key !in run.states[l].outbox.notices
    ensures run.states[k].outbox.notices[key].message == run.states[l].desks[0].batch[0].text
    decreases k
  {
    var (s, step) := (run.states[k - 1], run.steps[k - 1]);
    RunKeepsLone(run, k - 1);
    RowByStep(s, step, run.maxAttempts, key);
    if k - 1 > l {
      if key in s.outbox.notices {
        AddedSince(run, l, k - 1, key);
      }
    }
  }

  /**
   * With one scheduler, when an automation is SENT a recipient has its text exactly if no earlier attempt had reached the
   * recipient with another one: a row is written once, and an update between two attempts does not rewrite it.
   */
  lemma SentTextIff(run: Run, k: nat, i: nat) returns (l: nat)
    requires run.Valid() && k < |run.steps| && |run.states[0].desks| == 1 && run.steps[k] == Write(0) && AtEnd(run.states[k], 0)
    requires run.states[k].desks[0].hand.Sending? && i < |run.states[k].desks[0].hand.targets|
    ensures Listed(run, l, k, 0)
    ensures var hand := run.states[k].desks[0].hand;
            var key := KeyFor(TextOf(hand.item), hand.targets[i]);
      && key in run.states[k].outbox.notices
      && (run.states[k].outbox.notices[key].message == hand.item.text <==>
            (key in run.states[l].outbox.notices ==> run.states[l].outbox.notices[key].message == hand.item.text))
  {
    l := HandListed(run, k, 0);
    RunReaches(run, k);
    assert Reaching(run.states[k], 0);
    var hand := run.states[k].desks[0].hand;
    var key := KeyFor(TextOf(hand.item), hand.targets[i]);
    if key in run.states[l].outbox.notices {
      RowsStay(run, l, k, key);
    } else {
      AddedSince(run, l, k, key);
    }
  }

  /** Step c claimed the automation, with that text. */
  predicate ClaimedWith(run: Run, c: nat, id: nat, text: Id)
    requires |run.states| == |run.steps| + 1
  {
    c < |run.steps| && run.steps[c].Claim? && id in run.steps[c].ids && id < |run.states[c].automations| && run.states[c].automations[id].message == text
  }

  ghost predicate WasClaimedWith(run: Run, k: nat, id: nat, text: Id)
    requires |run.states| == |run.steps| + 1
  {
    exists c: nat :: c < k && ClaimedWith(run, c, id, text)
  }

  lemma WasClaimedStays(run: Run, k: nat, id: nat, text: Id)
    requires |run.states| == |run.steps| + 1 && WasClaimedWith(run, k, id, text)
    ensures WasClaimedWith(run, k + 1, id, text)
  {
  }

  /** What the schedulers hold was claimed as they hold it. */
  ghost predicate ItemsTrue(run: Run, k: nat)
    requires |run.states| == |run.steps| + 1 && k < |run.states|
  {
    forall w :: 0 <= w < |run.states[k].desks| ==> DeskTrue(run, k, run.states[k].desks[w])
  }

  ghost predicate DeskTrue(run: Run, k: nat, desk: Desk)
    requires |run.states| == |run.steps| + 1
  {
    && (forall i :: 0 <= i < |desk.batch| ==> WasClaimedWith(run, k, desk.batch[i].id, desk.batch[i].text))
    && (!desk.hand.Free? ==> WasClaimedWith(run, k, desk.hand.item.id, desk.hand.item.text))
  }

  lemma DeskStaysTrue(run: Run, k: nat, desk: Desk)
    requires |run.states| == |run.steps| + 1 && DeskTrue(run, k, desk)
    ensures DeskTrue(run, k + 1, desk)
  {
    forall i | 0 <= i < |desk.batch| ensures WasClaimedWith(run, k + 1, desk.batch[i].id, desk.batch[i].text) {
      WasClaimedStays(run, k, desk.batch[i].id, desk.batch[i].text);
    }
    if !desk.hand.Free? {
      WasClaimedStays(run, k, desk.hand.item.id, desk.hand.item.text);
    }
  }

  lemma ClaimTrue(run: Run, k: nat, w: nat, ids: seq<nat>)
    requires run.Valid() && k < |run.steps| && run.steps[k] == Claim(w, ids) && Enabled(run.states[k], run.steps[k])
    ensures DeskTrue(run, k + 1, Desk(Items(run.states[k].automations, ids), Free))
  {
    var items := Items(run.states[k].automations, ids);
    forall i | 0 <= i < |items| ensures WasClaimedWith(run, k + 1, items[i].id, items[i].text) {
      assert ClaimedWith(run, k, items[i].id, items[i].text);
    }
  }

  /** A desk after a step is the one before, or holds a claim, or has gone on within what it held. */
  lemma DeskStep(s: State, step: Step, maxAttempts: int, w: nat)
    requires Enabled(s, step) && w < |s.desks|
    ensures w < |Next(s, step, maxAttempts).desks|
    ensures var (before, after) := (s.desks[w], Next(s, step, maxAttempts).desks[w]);
      if step.Claim? && step.w == w then after == Desk(Items(s.automations, step.ids), Free)
      else
        && (after.batch == before.batch || after.batch == [] || (before.batch != [] && after.batch == before.batch[1..]))
        && (!after.hand.Free? ==>
              || (!before.hand.Free? && after.hand.item == before.hand.item)
              || (before.batch != [] && after.hand.item == before.batch[0]))
  {
  }

  lemma ItemsNext(run: Run, k: nat)
    requires run.Valid() && k < |run.steps| && ItemsTrue(run, k)
    ensures ItemsTrue(run, k + 1)
  {
    var (s, step) := (run.states[k], run.steps[k]);
    assert Enabled(s, step) && run.states[k + 1] == Next(s, step, run.maxAttempts);
    var desks := run.states[k + 1].desks;
    assert |desks| == |s.desks|;
    forall w | 0 <= w < |desks| ensures DeskTrue(run, k + 1, desks[w]) {
      DeskStep(s, step, run.maxAttempts, w);
      if step.Claim? && step.w == w {
        ClaimTrue(run, k, w, step.ids);
      } else {
        DeskStaysTrue(run, k, s.desks[w]);
      }
    }
  }

  lemma {:induction false} RunItemsTrue(run: Run, k: nat)
    requires run.Valid() && k < |run.states|
    ensures ItemsTrue(run, k)
  {
    if k > 0 {
      RunItemsTrue(run, k - 1);
      ItemsNext(run, k - 1);
    }
  }

  /** Whatever the schedulers, every announcement says what its automation said when one of its attempts claimed it. */
  lemma {:induction false} RowSaysAText(run: Run, k: nat, key: Key)
    requires run.Valid() && k < |run.states| && key.kind.Announcement? && key in run.states[k].outbox.notices
    ensures WasClaimedWith(run, k, key.scope, run.states[k].outbox.notices[key].message)
  {
    var (s, step) := (run.states[k - 1], run.steps[k - 1]);
    RowByStep(s, step, run.maxAttempts, key);
    if key in s.outbox.notices {
      RowSaysAText(run, k - 1, key);
      WasClaimedStays(run, k - 1, key.scope, s.outbox.notices[key].message);
    } else {
      RunItemsTrue(run, k - 1);
      assert DeskTrue(run, k - 1, s.desks[step.w]);
      WasClaimedStays(run, k - 1, key.scope, s.desks[step.w].hand.item.text);
    }
  }

  /** An automation whose text is never changed has sent that text to all, each once. */
  lemma OneVersion(run: Run, k: nat, key: Key, text: Id)
    requires run.Valid() && k < |run.states| && key.kind.Announcement? && key in run.states[k].outbox.notices
    requires forall m :: 0 <= m < k && key.scope < |run.states[m].automations| ==> run.states[m].automations[key.scope].message == text
    ensures run.states[k].outbox.notices[key].message == text
  {
    RowSaysAText(run, k, key);
  }
}
