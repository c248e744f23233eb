/**
 * The Telegram outbox: leased deliveries with bounded attempts and backoff, and the worker that drains it.
 * TelegramRuns has its steps in every interleaving.
 */
module TelegramOutbox {
  import opened Wrappers
  import opened Backoffs

  datatype DeliveryStatus = Waiting | Processing | Sent | Skipped | Failed

  /** Waiting is the column value PENDING. A delivery is identified by its place in the table, which is also its age. */
  datatype Delivery = Delivery(status: DeliveryStatus, attempts: nat, nextAttemptAt: Instant, lockedAt: Option<Instant>) {
    predicate Unfinished() {
      status.Waiting? || status.Processing?
    }

    predicate Claimable(now: Instant) {
      || (status.Waiting? && nextAttemptAt <= now)
      || (status.Processing? && lockedAt.Some? && lockedAt.value < now - STALE_LOCK)
    }
  }

  const STALE_LOCK := 2 * MINUTE
  const BATCH := 100

  datatype Outcome = Delivered | Undeliverable | Error

  // ---- The statements, on one row ----

  function Claimed(d: Delivery, now: Instant): Delivery {
    d.(status := Processing, lockedAt := Some(now))
  }

  function FailedOnce(d: Delivery, now: Instant, maxAttempts: int): Delivery {
    Delivery(if d.attempts + 1 >= maxAttempts then Failed else Waiting, d.attempts + 1, now + MinutesBackoff(d.attempts), None)
  }

  function Finished(d: Delivery, status: DeliveryStatus): Delivery {
    d.(status := status, lockedAt := None)
  }

  function Processed(d: Delivery, outcome: Outcome, now: Instant, maxAttempts: int): Delivery {
    match outcome
    case Delivered => Finished(d, Sent)
    case Undeliverable => Finished(d, Skipped)
    case Error => FailedOnce(d, now, maxAttempts)
  }

  /** The row after an attempt; when the status write fails it stays PROCESSING, and only the error is logged. */
  function Attempted(d: Delivery, outcome: Outcome, written: bool, now: Instant, maxAttempts: int): Delivery {
    if written then Processed(d, outcome, now, maxAttempts) else d
  }

  function Retried(now: Instant): Delivery {
    Delivery(Waiting, 0, now, None)
  }

  // ---- The measure of a sweep ----

  /** The attempts a delivery can still take, and one more for being unfinished. */
  function Effort(d: Delivery, maxAttempts: int): nat {
    if d.Unfinished() then 1 + (if maxAttempts > d.attempts then maxAttempts - d.attempts else 0) else 0
  }

  function Work(deliveries: seq<Delivery>, maxAttempts: int): nat {
    if deliveries == [] then 0
    else Work(deliveries[..|deliveries| - 1], maxAttempts) + Effort(deliveries[|deliveries| - 1], maxAttempts)
  }

  lemma {:induction false} WorkUpdate(deliveries: seq<Delivery>, i: nat, d: Delivery, maxAttempts: int)
    requires i < |deliveries|
    ensures Work(deliveries[i := d], maxAttempts)
      == Work(deliveries, maxAttempts) - Effort(deliveries[i], maxAttempts) + Effort(d, maxAttempts)
    decreases |deliveries|
  {
    var last := |deliveries| - 1;
    if i < last {
      WorkUpdate(deliveries[..last], i, d, maxAttempts);
      assert deliveries[i := d][..last] == deliveries[..last][i := d];
    } else {
      assert deliveries[i := d][..last] == deliveries[..last];
    }
  }

  /** Every processed delivery takes some of it. */
  lemma ProcessingWorks(d: Delivery, outcome: Outcome, now: Instant, maxAttempts: int)
    requires d.Unfinished()
    ensures Effort(Processed(d, outcome, now, maxAttempts), maxAttempts) < Effort(d, maxAttempts)
    ensures Effort(Claimed(d, now), maxAttempts) == Effort(d, maxAttempts)
  {
  }

  lemma AttemptWorks(deliveries: seq<Delivery>, id: nat, outcome: Outcome, written: bool, now: Instant, maxAttempts: int)
    requires id < |deliveries| && deliveries[id].Unfinished()
    ensures Work(deliveries[id := Attempted(deliveries[id], outcome, written, now, maxAttempts)], maxAttempts) + Once(written)
      <= Work(deliveries, maxAttempts)
  {
    ProcessingWorks(deliveries[id], outcome, now, maxAttempts);
    WorkUpdate(deliveries, id, Attempted(deliveries[id], outcome, written, now, maxAttempts), maxAttempts);
  }

  // ---- The repository and the worker ----

  /** The rows a claim takes: at most the limit, the oldest first. */
  ghost predicate OldestClaimable(deliveries: seq<Delivery>, now: Instant, limit: nat, ids: seq<nat>) {
    && (forall i, j :: 0 <= i < j < |ids| ==> ids[i] < ids[j])
    && (forall i :: 0 <= i < |ids| ==> ids[i] < |deliveries| && deliveries[ids[i]].Claimable(now))
    && |ids| <= limit
    && (forall k :: 0 <= k < |deliveries| && deliveries[k].Claimable(now) && k !in ids ==>
          |ids| == limit && forall i :: 0 <= i < |ids| ==> ids[i] < k)
  }

  /** Distinct deliveries that have been claimed. */
  ghost predicate Batch(deliveries: seq<Delivery>, ids: seq<nat>) {
    && (forall i, j :: 0 <= i < j < |ids| ==> ids[i] < ids[j])
    && forall i :: 0 <= i < |ids| ==> ids[i] < |deliveries| && deliveries[ids[i]].status.Processing?
  }

  /** The first k of the batch have been attempted, each with its own outcome, and no other row has changed. */
  ghost predicate ProcessedUpTo(before: seq<Delivery>, after: seq<Delivery>, ids: seq<nat>, k: nat,
                                answers: (nat, nat) -> Outcome, writes: nat -> bool, now: Instant, maxAttempts: int)
    requires Batch(before, ids) && k <= |ids|
  {
    && |after| == |before|
    && (forall m :: 0 <= m < |before| && m !in ids[..k] ==> after[m] == before[m])
    && forall i :: 0 <= i < k ==>
         after[ids[i]] == Attempted(before[ids[i]], answers(ids[i], before[ids[i]].attempts), writes(ids[i]), now, maxAttempts)
  }

  lemma ProcessedNext(before: seq<Delivery>, after: seq<Delivery>, ids: seq<nat>, k: nat,
                      answers: (nat, nat) -> Outcome, writes: nat -> bool, now: Instant, maxAttempts: int)
    requires Batch(before, ids) && k < |ids| && ProcessedUpTo(before, after, ids, k, answers, writes, now, maxAttempts)
    ensures var d := after[ids[k]];
            var next := after[ids[k] := Attempted(d, answers(ids[k], d.attempts), writes(ids[k]), now, maxAttempts)];
      && ProcessedUpTo(before, next, ids, k + 1, answers, writes, now, maxAttempts)
      && Work(next, maxAttempts) + CountWritten(ids[..k + 1], writes) <= Work(after, maxAttempts) + CountWritten(ids[..k], writes)
  {
    assert ids[k] !in ids[..k];
    assert ids[..k + 1] == ids[..k] + [ids[k]] && ids[..k + 1][..k] == ids[..k];
    AttemptWorks(after, ids[k], answers(ids[k], after[ids[k]].attempts), writes(ids[k]), now, maxAttempts);
  }

  lemma ProcessedSweeps(before: seq<Delivery>, after: seq<Delivery>, ids: seq<nat>,
                        answers: (nat, nat) -> Outcome, writes: nat -> bool, now: Instant, maxAttempts: int)
    requires Batch(before, ids) && ProcessedUpTo(before, after, ids, |ids|, answers, writes, now, maxAttempts)
    ensures SweptFrom(before, after)
  {
    assert ids[..|ids|] == ids;
    forall k | 0 <= k < |before| && k in ids
      ensures before[k].Unfinished() && before[k].attempts <= after[k].attempts
    {
      var i :| 0 <= i < |ids| && ids[i] == k;
    }
  }

  class Repository {
    var deliveries: seq<Delivery>

    constructor ()
      ensures deliveries == []
    {
      deliveries := [];
    }

    method ClaimTelegramDeliveries(now: Instant, limit: nat) returns (ids: seq<nat>)
      modifies this
      ensures OldestClaimable(old(deliveries), now, limit, ids)
      ensures |deliveries| == |old(deliveries)|
      ensures forall k :: 0 <= k < |deliveries| ==>
        deliveries[k] == if k in ids then Claimed(old(deliveries)[k], now) else old(deliveries)[k]
    {
      ids := [];
      var k := 0;
      while k < |deliveries| && |ids| < limit
        invariant k <= |deliveries| == |old(deliveries)| && |ids| <= limit
        invariant forall i, j :: 0 <= i < j < |ids| ==> ids[i] < ids[j]
        invariant forall i :: 0 <= i < |ids| ==> ids[i] < k && old(deliveries)[ids[i]].Claimable(now)
        invariant forall m :: 0 <= m < k && old(deliveries)[m].Claimable(now) ==> m in ids
        invariant forall m :: 0 <= m < |deliveries| ==>
          deliveries[m] == if m in ids then Claimed(old(deliveries)[m], now) else old(deliveries)[m]
      {
        if deliveries[k].Claimable(now) {
          deliveries := deliveries[k := Claimed(deliveries[k], now)];
          ids := ids + [k];
        }
        k := k + 1;
      }
    }

    method MarkDelivery(id: nat, status: DeliveryStatus)
      requires id < |deliveries|
      modifies this
      ensures deliveries == old(deliveries)[id := Finished(old(deliveries)[id], status)]
    {
      deliveries := deliveries[id := deliveries[id].(status := status, lockedAt := None)];
    }

    method RecordDeliveryFailure(id: nat, now: Instant, maxAttempts: int)
      requires id < |deliveries|
      modifies this
      ensures deliveries == old(deliveries)[id := FailedOnce(old(deliveries)[id], now, maxAttempts)]
    {
      var d := deliveries[id];
      var status := if d.attempts + 1 >= maxAttempts then Failed else Waiting;
      deliveries := deliveries[id := Delivery(status, d.attempts + 1, now + MinutesBackoff(d.attempts), None)];
    }

    /** Only a failed delivery can be retried. */
    method RetryTelegramDelivery(id: nat, now: Instant) returns (retried: bool)
      modifies this
      ensures retried <==> id < |old(deliveries)| && old(deliveries)[id].status.Failed?
      ensures deliveries == if retried then old(deliveries)[id := Retried(now)] else old(deliveries)
    {
      retried := id < |deliveries| && deliveries[id].status.Failed?;
      if retried {
        deliveries := deliveries[id := Retried(now)];
      }
    }
  }

  function CountWritten(ids: seq<nat>, writes: nat -> bool): nat {
    if ids == [] then 0 else CountWritten(ids[..|ids| - 1], writes) + Once(writes(ids[|ids| - 1]))
  }

  predicate EveryWrite(id: nat) {
    true
  }

  lemma {:induction false} AllWritten(ids: seq<nat>)
    ensures CountWritten(ids, EveryWrite) == |ids|
  {
    if ids != [] {
      AllWritten(ids[..|ids| - 1]);
    }
  }

  /** What a sweep leaves alone, and what it may do to the deliveries it takes. */
  ghost predicate SweptFrom(before: seq<Delivery>, after: seq<Delivery>) {
    && |after| == |before|
    && forall k :: 0 <= k < |before| ==>
         && (!before[k].Unfinished() ==> after[k] == before[k])
         && before[k].attempts <= after[k].attempts
  }

  class Worker {
    const repository: Repository
    const maxAttempts: int

    constructor (repository: Repository, maxAttempts: int)
      ensures this.repository == repository && this.maxAttempts == maxAttempts
    {
      this.repository, this.maxAttempts := repository, maxAttempts;
    }

    method Process(id: nat, outcome: Outcome, written: bool, now: Instant)
      requires id < |repository.deliveries|
      modifies repository
      ensures repository.deliveries ==
        old(repository.deliveries)[id := Attempted(old(repository.deliveries)[id], outcome, written, now, maxAttempts)]
    {
      if !written {
        return;
      }
      match outcome {
        case Delivered => repository.MarkDelivery(id, Sent);
        case Undeliverable => repository.MarkDelivery(id, Skipped);
        case Error => repository.RecordDeliveryFailure(id, now, maxAttempts);
      }
    }

    /** Processes a claimed batch, and uses up some of the work for each of its deliveries whose status is written. */
    method ProcessAll(ids: seq<nat>, answers: (nat, nat) -> Outcome, writes: nat -> bool, now: Instant)
      requires Batch(repository.deliveries, ids)
      modifies repository
      ensures SweptFrom(old(repository.deliveries), repository.deliveries)
      ensures ProcessedUpTo(old(repository.deliveries), repository.deliveries, ids, |ids|, answers, writes, now, maxAttempts)
      ensures Work(repository.deliveries, maxAttempts) + CountWritten(ids, writes) <= Work(old(repository.deliveries), maxAttempts)
    {
      ghost var before := repository.deliveries;
      for i := 0 to |ids|
        invariant ProcessedUpTo(before, repository.deliveries, ids, i, answers, writes, now, maxAttempts)
        invariant Work(repository.deliveries, maxAttempts) + CountWritten(ids[..i], writes) <= Work(before, maxAttempts)
      {
        ProcessedNext(before, repository.deliveries, ids, i, answers, writes, now, maxAttempts);
        var d := repository.deliveries[ids[i]];
        Process(ids[i], answers(ids[i], d.attempts), writes(ids[i]), now);
      }
      assert ids[..|ids|] == ids;
      ProcessedSweeps(before, repository.deliveries, ids, answers, writes, now, maxAttempts);
    }

    /**
     * Claims and processes batches until one is not full; the status writes succeed. It ends whatever the answers and however the clock
     * moves meanwhile, because each full batch takes a hundred units of the remaining work.
     */
    method Sweep(answers: (nat, nat) -> Outcome, clock: nat -> Instant) returns (rounds: nat)
      modifies repository
      ensures SweptFrom(old(repository.deliveries), repository.deliveries)
      ensures rounds >= 1 && (rounds - 1) * BATCH <= Work(old(repository.deliveries), maxAttempts) - Work(repository.deliveries, maxAttempts)
    {
      rounds := 0;
      var full := true;
      while full
        invariant SweptFrom(old(repository.deliveries), repository.deliveries)
        invariant full ==> rounds * BATCH <= Work(old(repository.deliveries), maxAttempts) - Work(repository.deliveries, maxAttempts)
        invariant !full ==>
          rounds >= 1 && (rounds - 1) * BATCH <= Work(old(repository.deliveries), maxAttempts) - Work(repository.deliveries, maxAttempts)
        decreases full, Work(repository.deliveries, maxAttempts)
      {
        ghost var before := repository.deliveries;
        var now := clock(rounds);
        var ids := repository.ClaimTelegramDeliveries(now, BATCH);
        ClaimWorks(before, repository.deliveries, ids, now, maxAttempts);
        AllWritten(ids);
        ProcessAll(ids, answers, EveryWrite, now);
        rounds := rounds + 1;
        full := |ids| == BATCH;
      }
    }
  }

  /** Claiming takes none of the work. */
  lemma {:induction false} SameEffortSameWork(before: seq<Delivery>, after: seq<Delivery>, maxAttempts: int)
    requires |after| == |before| && forall k :: 0 <= k < |before| ==> Effort(after[k], maxAttempts) == Effort(before[k], maxAttempts)
    ensures Work(after, maxAttempts) == Work(before, maxAttempts)
  {
    if before != [] {
      SameEffortSameWork(before[..|before| - 1], after[..|after| - 1], maxAttempts);
    }
  }

  lemma ClaimWorks(before: seq<Delivery>, after: seq<Delivery>, ids: seq<nat>, now: Instant, maxAttempts: int)
    requires |after| == |before| && OldestClaimable(before, now, BATCH, ids)
    requires forall k :: 0 <= k < |after| ==> after[k] == if k in ids then Claimed(before[k], now) else before[k]
    ensures Work(after, maxAttempts) == Work(before, maxAttempts)
    ensures forall i :: 0 <= i < |ids| ==> ids[i] < |after| && after[ids[i]].status.Processing?
    ensures SweptFrom(before, after)
  {
    forall k | 0 <= k < |before| ensures Effort(after[k], maxAttempts) == Effort(before[k], maxAttempts) {
      if k in ids {
        assert before[k].Claimable(now);
      }
    }
    SameEffortSameWork(before, after, maxAttempts);
  }
}
