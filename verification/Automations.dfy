/**
 * Scheduled announcements: which of them the scheduler claims, and the fan-out it runs for each. AutomationRuns has its
 * steps in every interleaving.
 */
module Automations {
  import opened Wrappers
  import opened Announcements
  import opened Backoffs

  datatype Status = Draft | Scheduled | Processing | Sent | Failed | Cancelled

  datatype Automation = Automation(
    event: Id, message: Id, sendAt: Option<Instant>, status: Status, sentCount: nat, attempts: nat,
    nextAttemptAt: Instant, lockedAt: Option<Instant>)
  {
    predicate Due(now: Instant) {
      || (status.Scheduled? && sendAt.Some? && sendAt.value <= now && nextAttemptAt <= now)
      || (status.Processing? && lockedAt.Some? && lockedAt.value < now - STALE_LOCK)
    }

    /** The states in which Update and Cancel apply. */
    predicate Mutable() {
      status.Draft? || status.Scheduled? || status.Failed?
    }
  }

  const STALE_LOCK := 5 * MINUTE
  const POLL_LIMIT := 25

  // ---- The statements, on one row ----

  function Claimed(a: Automation, now: Instant): Automation {
    a.(status := Processing, lockedAt := Some(now))
  }

  function MarkedSent(a: Automation, count: nat): Automation {
    a.(status := Sent, sentCount := count, lockedAt := None)
  }

  function FailedOnce(a: Automation, now: Instant, maxAttempts: int): Automation {
    a.(status := if a.attempts + 1 >= maxAttempts then Failed else Scheduled, attempts := a.attempts + 1,
       nextAttemptAt := now + MinutesBackoff(a.attempts), lockedAt := None)
  }

  function Updated(a: Automation, message: Id, sendAt: Option<Instant>, scheduled: bool, now: Instant): Automation {
    a.(message := message, sendAt := sendAt, status := if scheduled then Scheduled else Draft,
       attempts := if a.status.Failed? then 0 else a.attempts, nextAttemptAt := now)
  }

  function ClaimedAll(automations: seq<Automation>, ids: seq<nat>, now: Instant): (claimed: seq<Automation>)
    ensures |claimed| == |automations|
    ensures forall k :: 0 <= k < |automations| ==> claimed[k] == if k in ids then Claimed(automations[k], now) else automations[k]
  {
    seq(|automations|, k requires 0 <= k < |automations| => if k in ids then Claimed(automations[k], now) else automations[k])
  }

  // ---- The scheduler ----

  predicate IsDue(automations: seq<Automation>, k: int, now: Instant) {
    0 <= k < |automations| && automations[k].Due(now)
  }

  /** ORDER BY send_at: an automation without one comes last. */
  predicate NotLater(a: Automation, b: Automation) {
    b.sendAt.None? || (a.sendAt.Some? && a.sendAt.value <= b.sendAt.value)
  }

  /** The due automations that are to be sent first, in that order, up to the limit. */
  ghost predicate FirstToSend(automations: seq<Automation>, now: Instant, limit: nat, ids: seq<nat>) {
    && |ids| <= limit
    && (forall i :: 0 <= i < |ids| ==> IsDue(automations, ids[i], now))
    && (forall i, j :: 0 <= i < j < |ids| ==> ids[i] != ids[j] && NotLater(automations[ids[i]], automations[ids[j]]))
    && forall k :: IsDue(automations, k, now) && k !in ids ==>
         |ids| == limit && forall i :: 0 <= i < |ids| ==> NotLater(automations[ids[i]], automations[k])
  }

  /** Of the due automations among the first n that are not yet taken, the one that is to be sent first. */
  ghost predicate IsEarliest(automations: seq<Automation>, n: nat, taken: seq<nat>, now: Instant, best: Option<nat>) {
    match best
    case None => forall k :: k < n && IsDue(automations, k, now) ==> k in taken
    case Some(b) =>
      && IsDue(automations, b, now) && b !in taken
      && forall k :: k < n && IsDue(automations, k, now) && k !in taken ==> NotLater(automations[b], automations[k])
  }

  // ---- Whom an announcement reaches ----

  /** A registration, in the order of creation. */
  datatype Entry = Entry(registration: Id, user: Id, event: Id, confirmed: bool)

  /** The confirmed registrations of an event, the newest first. */
  function Roster(entries: seq<Entry>, event: Id): seq<Recipient> {
    if entries == [] then []
    else
      var last := entries[|entries| - 1];
      (if last.event == event && last.confirmed then [Recipient(last.registration, last.user)] else []) + Roster(entries[..|entries| - 1], event)
  }

  lemma RosterNext(entries: seq<Entry>, k: nat, event: Id)
    requires k < |entries|
    ensures Roster(entries[..k + 1], event)
      == (if entries[k].event == event && entries[k].confirmed then [Recipient(entries[k].registration, entries[k].user)] else [])
         + Roster(entries[..k], event)
  {
    assert entries[..k + 1][..k] == entries[..k];
  }

  lemma {:induction false} RosterHas(entries: seq<Entry>, event: Id, r: Recipient)
    ensures r in Roster(entries, event) <==>
      exists i :: 0 <= i < |entries| && entries[i].event == event && entries[i].confirmed && r == Recipient(entries[i].registration, entries[i].user)
  {
    if entries != [] {
      var init := entries[..|entries| - 1];
      RosterHas(init, event, r);
      forall i | 0 <= i < |init| ensures init[i] == entries[i] {}
    }
  }

  ghost predicate DistinctEntries(entries: seq<Entry>) {
    forall i, j :: 0 <= i < j < |entries| ==> entries[i].registration != entries[j].registration
  }

  lemma {:induction false} RosterDistinct(entries: seq<Entry>, event: Id)
    requires DistinctEntries(entries)
    ensures Distinct(Roster(entries, event))
  {
    if entries != [] {
      var init, last := entries[..|entries| - 1], entries[|entries| - 1];
      RosterDistinct(init, event);
      forall r | r in Roster(init, event) ensures r.registration != last.registration {
        RosterHas(init, event, r);
      }
    }
  }

  /** What goes wrong in one fan-out: the registrations cannot be listed, or one recipient's row cannot be written. */
  datatype Fault = NoFault | NotListed | NotWritten(at: nat)

  predicate Succeeds(targets: seq<Recipient>, fault: Fault) {
    fault.NoFault? || (fault.NotWritten? && fault.at >= |targets|)
  }

  /** The recipients that are enqueued before the fault. */
  function Reached(targets: seq<Recipient>, fault: Fault): seq<Recipient> {
    if Succeeds(targets, fault) then targets else if fault.NotListed? then [] else targets[..fault.at]
  }

  /** The row after the attempt; one whose last write fails stays PROCESSING until its lock goes stale. */
  function Finished(a: Automation, targets: seq<Recipient>, fault: Fault, written: bool, now: Instant, maxAttempts: int): Automation {
    if !written then a else if Succeeds(targets, fault) then MarkedSent(a, |targets|) else FailedOnce(a, now, maxAttempts)
  }

  function TargetsOf(entries: seq<Entry>, a: Automation): seq<Recipient> {
    Targets(Roster(entries, a.event))
  }

  function SentOne(o: Outbox, entries: seq<Entry>, id: nat, a: Automation, fault: Fault): Outbox {
    FanOut(o, Message(Announcement, id, a.message), Reached(TargetsOf(entries, a), fault))
  }

  /** The first k of the claimed automations have been sent or failed, each once, and no other row has changed. */
  ghost predicate Polled(claimed: seq<Automation>, after: seq<Automation>, entries: seq<Entry>, ids: seq<nat>, k: nat,
                         faults: nat -> Fault, writes: nat -> bool, now: Instant, maxAttempts: int)
    requires k <= |ids| && forall i :: 0 <= i < |ids| ==> ids[i] < |claimed|
  {
    && |after| == |claimed|
    && (forall m :: 0 <= m < |claimed| && m !in ids[..k] ==> after[m] == claimed[m])
    && forall i :: 0 <= i < k ==>
         after[ids[i]] == Finished(claimed[ids[i]], TargetsOf(entries, claimed[ids[i]]), faults(i), writes(i), now, maxAttempts)
  }

  lemma PolledNext(claimed: seq<Automation>, before: seq<Automation>, entries: seq<Entry>, ids: seq<nat>, k: nat,
                   faults: nat -> Fault, writes: nat -> bool, now: Instant, maxAttempts: int)
    requires k < |ids| && (forall i :: 0 <= i < |ids| ==> ids[i] < |claimed|) && forall i, j :: 0 <= i < j < |ids| ==> ids[i] != ids[j]
    requires Polled(claimed, before, entries, ids, k, faults, writes, now, maxAttempts)
    ensures before[ids[k]] == claimed[ids[k]]
    ensures var a := before[ids[k]];
      Polled(claimed, before[ids[k] := Finished(a, TargetsOf(entries, a), faults(k), writes(k), now, maxAttempts)], entries, ids, k + 1, faults, writes, now, maxAttempts)
  {
    assert ids[k] !in ids[..k];
    assert ids[..k + 1] == ids[..k] + [ids[k]];
  }

  /** The outbox after the first k of the claimed automations. */
  function SentAll(o: Outbox, entries: seq<Entry>, automations: seq<Automation>, ids: seq<nat>, faults: nat -> Fault, k: nat): Outbox
    requires k <= |ids| && forall i :: 0 <= i < |ids| ==> ids[i] < |automations|
  {
    if k == 0 then o
    else SentOne(SentAll(o, entries, automations, ids, faults, k - 1), entries, ids[k - 1], automations[ids[k - 1]], faults(k - 1))
  }

  class Repository {
    var automations: seq<Automation>

    constructor ()
      ensures automations == []
    {
      automations := [];
    }

    method EarliestDue(taken: seq<nat>, now: Instant) returns (best: Option<nat>)
      ensures IsEarliest(automations, |automations|, taken, now, best)
    {
      best := None;
      for k := 0 to |automations|
        invariant IsEarliest(automations, k, taken, now, best)
      {
        if automations[k].Due(now) && k !in taken && (best.None? || !NotLater(automations[best.value], automations[k])) {
          best := Some(k);
        }
      }
    }

    /** The due automations in the order of send_at, up to the limit. */
    method SelectDue(now: Instant, limit: nat) returns (ids: seq<nat>)
      ensures FirstToSend(automations, now, limit, ids)
    {
      ids := [];
      var next := EarliestDue(ids, now);
      while |ids| < limit && next.Some?
        invariant FirstToSend(automations, now, |ids|, ids) && |ids| <= limit
        invariant IsEarliest(automations, |automations|, ids, now, next)
        decreases limit - |ids|
      {
        ids := ids + [next.value];
        next := EarliestDue(ids, now);
      }
    }

    method ClaimDue(now: Instant, limit: nat) returns (ids: seq<nat>)
      modifies this
      ensures FirstToSend(old(automations), now, limit, ids) && automations == ClaimedAll(old(automations), ids, now)
    {
      ids := SelectDue(now, limit);
      for i := 0 to |ids|
        invariant |automations| == |old(automations)|
        invariant forall k :: 0 <= k < |automations| ==>
          automations[k] == if k in ids[..i] then Claimed(old(automations)[k], now) else old(automations)[k]
      {
        assert ids[..i + 1] == ids[..i] + [ids[i]];
        automations := automations[ids[i] := Claimed(automations[ids[i]], now)];
      }
      assert ids[..|ids|] == ids;
    }

    method MarkSent(id: nat, count: nat)
      requires id < |automations|
      modifies this
      ensures automations == old(automations)[id := MarkedSent(old(automations)[id], count)]
    {
      automations := automations[id := automations[id].(status := Sent, sentCount := count, lockedAt := None)];
    }

    method RecordFailure(id: nat, now: Instant, maxAttempts: int)
      requires id < |automations|
      modifies this
      ensures automations == old(automations)[id := FailedOnce(old(automations)[id], now, maxAttempts)]
    {
      var a := automations[id];
      var status := if a.attempts + 1 >= maxAttempts then Failed else Scheduled;
      automations := automations[id :=
        a.(status := status, attempts := a.attempts + 1, nextAttemptAt := now + MinutesBackoff(a.attempts), lockedAt := None)];
    }

    method Cancel(id: nat) returns (cancelled: bool)
      modifies this
      ensures cancelled <==> id < |old(automations)| && old(automations)[id].Mutable()
      ensures automations == if cancelled then old(automations)[id := old(automations)[id].(status := Cancelled)] else old(automations)
    {
      cancelled := id < |automations| && automations[id].Mutable();
      if cancelled {
        automations := automations[id := automations[id].(status := Cancelled)];
      }
    }

    method Update(id: nat, message: Id, sendAt: Option<Instant>, scheduled: bool, now: Instant) returns (updated: bool)
      modifies this
      ensures updated <==> id < |old(automations)| && old(automations)[id].Mutable()
      ensures automations ==
        if updated then old(automations)[id := Updated(old(automations)[id], message, sendAt, scheduled, now)] else old(automations)
    {
      updated := id < |automations| && automations[id].Mutable();
      if updated {
        automations := automations[id := Updated(automations[id], message, sendAt, scheduled, now)];
      }
    }
  }

  class Scheduler {
    const repository: Repository
    const maxAttempts: int
    var outbox: Outbox

    constructor (repository: Repository, maxAttempts: int)
      ensures this.repository == repository && this.maxAttempts == maxAttempts && outbox == Outbox(map[], map[])
    {
      this.repository, this.maxAttempts, outbox := repository, maxAttempts, Outbox(map[], map[]);
    }

    /** ListAll, newest first and at most ROSTER_LIMIT. */
    method ListConfirmed(entries: seq<Entry>, event: Id) returns (targets: seq<Recipient>)
      ensures targets == Targets(Roster(entries, event))
    {
      targets := [];
      var k := |entries|;
      assert entries[..k] == entries;
      ghost var roster := Roster(entries, event);
      assert roster == [] + Roster(entries[..k], event);
      while k > 0 && |targets| < ROSTER_LIMIT
        invariant k <= |entries| && |targets| <= ROSTER_LIMIT
        invariant roster == targets + Roster(entries[..k], event)
      {
        k := k - 1;
        RosterNext(entries, k, event);
        ghost var rest := Roster(entries[..k], event);
        if entries[k].event == event && entries[k].confirmed {
          var r := Recipient(entries[k].registration, entries[k].user);
          assert targets + ([r] + rest) == targets + [r] + rest;
          targets := targets + [r];
        } else {
          assert [] + rest == rest;
        }
      }
    }

    /** Enqueues for each recipient until one cannot be written. */
    method EnqueueAll(m: Message, targets: seq<Recipient>, fault: Fault) returns (done: bool)
      requires !fault.NotListed?
      modifies this
      ensures done <==> Succeeds(targets, fault)
      ensures outbox == FanOut(old(outbox), m, Reached(targets, fault))
    {
      var i := 0;
      while i < |targets| && fault != NotWritten(i)
        invariant i <= |targets| && (fault.NotWritten? ==> i <= fault.at || fault.at > |targets|)
        invariant outbox == FanOut(old(outbox), m, targets[..i])
      {
        assert targets[..i + 1][..i] == targets[..i];
        outbox := Enqueue(outbox, KeyFor(m, targets[i]), Notice(targets[i].user, m.text));
        i := i + 1;
      }
      done := i == |targets|;
      assert targets[..|targets|] == targets;
    }

    /** One claimed automation: sent to its whole target list, or counted as a failure. The error of the last write is dropped. */
    method Send(id: nat, entries: seq<Entry>, fault: Fault, written: bool, now: Instant)
      requires id < |repository.automations|
      modifies this, repository
      ensures outbox == SentOne(old(outbox), entries, id, old(repository.automations)[id], fault)
      ensures repository.automations == old(repository.automations)[id :=
        Finished(old(repository.automations)[id], TargetsOf(entries, old(repository.automations)[id]), fault, written, now, maxAttempts)]
    {
      var a := repository.automations[id];
      if fault.NotListed? {
        Fail(id, written, now);
        return;
      }
      var targets := ListConfirmed(entries, a.event);
      var done := EnqueueAll(Message(Announcement, id, a.message), targets, fault);
      if !done {
        Fail(id, written, now);
      } else if written {
        repository.MarkSent(id, |targets|);
      }
    }

    method Fail(id: nat, written: bool, now: Instant)
      requires id < |repository.automations|
      modifies repository
      ensures repository.automations == if written then
          old(repository.automations)[id := FailedOnce(old(repository.automations)[id], now, maxAttempts)]
        else old(repository.automations)
    {
      if written {
        repository.RecordFailure(id, now, maxAttempts);
      }
    }

    /** A poll claims the automations that are to be sent first, and sends or fails each of them once. */
    method Poll(entries: seq<Entry>, faults: nat -> Fault, writes: nat -> bool, now: Instant) returns (ids: seq<nat>)
      modifies this, repository
      ensures FirstToSend(old(repository.automations), now, POLL_LIMIT, ids)
      ensures Polled(ClaimedAll(old(repository.automations), ids, now), repository.automations, entries, ids, |ids|, faults, writes, now, maxAttempts)
      ensures outbox == SentAll(old(outbox), entries, ClaimedAll(old(repository.automations), ids, now), ids, faults, |ids|)
    {
      ids := repository.ClaimDue(now, POLL_LIMIT);
      ghost var claimed := repository.automations;
      for i := 0 to |ids|
        invariant Polled(claimed, repository.automations, entries, ids, i, faults, writes, now, maxAttempts)
        invariant outbox == SentAll(old(outbox), entries, claimed, ids, faults, i)
      {
        PolledNext(claimed, repository.automations, entries, ids, i, faults, writes, now, maxAttempts);
        Send(ids[i], entries, faults(i), writes(i), now);
      }
    }
  }
}
