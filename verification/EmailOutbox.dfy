/**
 * The e-mail worker: it takes notification ids from a queue and from sweeps, both of which may name the same
 * notification any number of times. EmailRuns has its steps in every interleaving.
 */
module EmailOutbox {
  import opened Wrappers

  datatype Status = Pending | Sent | Failed

  /** The key stands for the type and the entity, which are unique together. */
  datatype Notification = Notification(key: Id, status: Status, attempts: nat, createdAt: Instant)

  const SWEEP_LIMIT := 100

  function FailedOnce(n: Notification, maxAttempts: int): Notification {
    n.(attempts := n.attempts + 1, status := if n.attempts + 1 >= maxAttempts then Failed else Pending)
  }

  /** The status write after the mail provider has answered. */
  function Answered(n: Notification, accepted: bool, maxAttempts: int): Notification {
    if accepted then n.(status := Sent) else FailedOnce(n, maxAttempts)
  }

  predicate HasKey(notifications: seq<Notification>, key: Id) {
    exists id :: 0 <= id < |notifications| && notifications[id].key == key
  }

  ghost predicate KeysUnique(notifications: seq<Notification>) {
    forall i, j :: 0 <= i < j < |notifications| ==> notifications[i].key != notifications[j].key
  }

  predicate IsPending(notifications: seq<Notification>, id: nat) {
    id < |notifications| && notifications[id].status.Pending?
  }

  /** The oldest pending notifications created before the cutoff, up to the limit; the table is in the order of creation. */
  ghost predicate OldestPending(notifications: seq<Notification>, cutoff: Instant, limit: nat, ids: seq<nat>) {
    && (forall i, j :: 0 <= i < j < |ids| ==> ids[i] < ids[j])
    && (forall i :: 0 <= i < |ids| ==> IsPending(notifications, ids[i]) && notifications[ids[i]].createdAt < cutoff)
    && |ids| <= limit
    && (forall k :: 0 <= k < |notifications| && notifications[k].status.Pending? && notifications[k].createdAt < cutoff && k !in ids ==>
          |ids| == limit && forall i :: 0 <= i < |ids| ==> ids[i] < k)
  }

  lemma NextOfBatch(notifications: seq<Notification>, cutoff: Instant, ids: seq<nat>, i: nat)
    requires OldestPending(notifications, cutoff, SWEEP_LIMIT, ids) && i < |ids|
    ensures IsPending(notifications, ids[i]) && ids[i] !in ids[..i]
    ensures ids[..i + 1] == ids[..i] + [ids[i]] && multiset(ids[..i + 1]) == multiset(ids[..i]) + multiset{ids[i]}
  {
  }

  class Repository {
    var notifications: seq<Notification>

    constructor ()
      ensures notifications == []
    {
      notifications := [];
    }

    /** A key that is used already is reported, and nothing is written. */
    method Create(key: Id, now: Instant) returns (id: Option<nat>)
      modifies this
      ensures id.None? <==> HasKey(old(notifications), key)
      ensures id.Some? ==> id.value == |old(notifications)|
      ensures notifications == if id.None? then old(notifications) else old(notifications) + [Notification(key, Pending, 0, now)]
    {
      if HasKey(notifications, key) {
        return None;
      }
      id := Some(|notifications|);
      notifications := notifications + [Notification(key, Pending, 0, now)];
    }

    method MarkSent(id: nat)
      requires id < |notifications|
      modifies this
      ensures notifications == old(notifications)[id := old(notifications)[id].(status := Sent)]
    {
      notifications := notifications[id := notifications[id].(status := Sent)];
    }

    method RecordFailure(id: nat, maxAttempts: int)
      requires id < |notifications|
      modifies this
      ensures notifications == old(notifications)[id := FailedOnce(old(notifications)[id], maxAttempts)]
    {
      var n := notifications[id];
      var status := if n.attempts + 1 >= maxAttempts then Failed else Pending;
      notifications := notifications[id := n.(attempts := n.attempts + 1, status := status)];
    }

    method ListPendingOlderThan(cutoff: Instant, limit: nat) returns (ids: seq<nat>)
      ensures OldestPending(notifications, cutoff, limit, ids)
    {
      ids := [];
      var k := 0;
      while k < |notifications| && |ids| < limit
        invariant k <= |notifications| && |ids| <= limit
        invariant forall i, j :: 0 <= i < j < |ids| ==> ids[i] < ids[j]
        invariant forall i :: 0 <= i < |ids| ==>
          ids[i] < k && IsPending(notifications, ids[i]) && notifications[ids[i]].createdAt < cutoff
        invariant forall m :: 0 <= m < k && notifications[m].status.Pending? && notifications[m].createdAt < cutoff ==> m in ids
      {
        if notifications[k].status.Pending? && notifications[k].createdAt < cutoff {
          ids := ids + [k];
        }
        k := k + 1;
      }
    }
  }

  /**
   * How often each notification was handed to the mail provider, how often it accepted, and how often the status
   * write that followed did not happen, after any answer and after an acceptance.
   */
  datatype Tally = Tally(tried: multiset<nat>, mailed: multiset<nat>, lost: multiset<nat>, lostMails: multiset<nat>) {
    function Tried(id: nat, accepted: bool): Tally {
      this.(tried := tried[id := tried[id] + 1], mailed := mailed[id := mailed[id] + Once(accepted)])
    }

    function Lost(id: nat, accepted: bool): Tally {
      this.(lost := lost[id := lost[id] + 1], lostMails := lostMails[id := lostMails[id] + Once(accepted)])
    }
  }

  /**
   * Every hand-over to the mail provider is accounted for by a counted failure, by the status SENT, or by a status
   * write that has failed; every accepted one by SENT or by such a write.
   */
  ghost predicate Accounted(n: Notification, tally: Tally, id: nat, maxAttempts: int) {
    && tally.tried[id] == n.attempts + Once(n.status.Sent?) + tally.lost[id]
    && tally.mailed[id] == Once(n.status.Sent?) + tally.lostMails[id]
    && n.attempts <= maxAttempts && (!n.status.Failed? ==> n.attempts < maxAttempts)
  }

  ghost predicate AllAccounted(notifications: seq<Notification>, tally: Tally, maxAttempts: int) {
    && (forall id :: 0 <= id < |notifications| ==> Accounted(notifications[id], tally, id, maxAttempts))
    && forall id :: id >= |notifications| ==> tally.tried[id] == 0 && tally.mailed[id] == 0 && tally.lost[id] == 0 && tally.lostMails[id] == 0
  }

  lemma WrittenAccounts(notifications: seq<Notification>, tally: Tally, id: nat, accepted: bool, maxAttempts: int)
    requires AllAccounted(notifications, tally, maxAttempts) && IsPending(notifications, id)
    ensures AllAccounted(notifications[id := Answered(notifications[id], accepted, maxAttempts)], tally.Tried(id, accepted), maxAttempts)
  {
    var tally' := tally.Tried(id, accepted);
    forall k | 0 <= k < |notifications| && k != id ensures Accounted(notifications[k], tally', k, maxAttempts) {
      assert Accounted(notifications[k], tally, k, maxAttempts);
    }
  }

  lemma LostAccounts(notifications: seq<Notification>, tally: Tally, id: nat, accepted: bool, maxAttempts: int)
    requires AllAccounted(notifications, tally, maxAttempts) && IsPending(notifications, id)
    ensures AllAccounted(notifications, tally.Tried(id, accepted).Lost(id, accepted), maxAttempts)
  {
    var tally' := tally.Tried(id, accepted).Lost(id, accepted);
    forall k | 0 <= k < |notifications| && k != id ensures Accounted(notifications[k], tally', k, maxAttempts) {
      assert Accounted(notifications[k], tally, k, maxAttempts);
    }
  }

  const NOTHING := Tally(multiset{}, multiset{}, multiset{}, multiset{})

  class Worker {
    const repository: Repository
    const maxAttempts: int
    var queue: seq<nat>
    var tally: Tally

    ghost predicate Valid()
      reads this, repository
    {
      maxAttempts >= 1 && KeysUnique(repository.notifications) && AllAccounted(repository.notifications, tally, maxAttempts)
    }

    constructor (repository: Repository, maxAttempts: int)
      requires maxAttempts >= 1 && repository.notifications == []
      ensures Valid() && this.repository == repository && this.maxAttempts == maxAttempts && queue == [] && tally == NOTHING
    {
      this.repository, this.maxAttempts := repository, maxAttempts;
      queue, tally := [], NOTHING;
    }

    /** enqueue: the row is written, unless its key is used, and its id is pushed if the queue can be reached. */
    method Enqueue(key: Id, now: Instant, reachable: bool)
      requires Valid()
      modifies this`queue, repository
      ensures Valid()
      ensures var before := old(repository.notifications);
        if HasKey(before, key) then repository.notifications == before && queue == old(queue)
        else
          && repository.notifications == before + [Notification(key, Pending, 0, now)]
          && queue == if reachable then old(queue) + [|before|] else old(queue)
    {
      var id := repository.Create(key, now);
      if id.Some? && reachable {
        queue := queue + [id.value];
      }
    }

    /**
     * Only a pending notification is tried; an id that is unknown, sent or failed out changes nothing. Where the
     * status write fails, the error is logged and the row stays as it is.
     */
    method Process(id: nat, accepted: bool, written: bool)
      requires Valid()
      modifies this`tally, repository
      ensures Valid()
      ensures var before := old(repository.notifications);
        if !IsPending(before, id) then repository.notifications == before && tally == old(tally)
        else if written then
          && repository.notifications == before[id := Answered(before[id], accepted, maxAttempts)]
          && tally == old(tally).Tried(id, accepted)
        else
          repository.notifications == before && tally == old(tally).Tried(id, accepted).Lost(id, accepted)
    {
      if id >= |repository.notifications| || !repository.notifications[id].status.Pending? {
        return;
      }
      if !written {
        LostAccounts(repository.notifications, tally, id, accepted, maxAttempts);
        tally := tally.Tried(id, accepted).Lost(id, accepted);
        return;
      }
      WrittenAccounts(repository.notifications, tally, id, accepted, maxAttempts);
      tally := tally.Tried(id, accepted);
      if accepted {
        repository.MarkSent(id);
      } else {
        repository.RecordFailure(id, maxAttempts);
      }
    }

    /** A sent or failed notification stays as it is. */
    ghost predicate Settled(before: seq<Notification>)
      reads repository
    {
      && |repository.notifications| == |before|
      && forall id :: 0 <= id < |before| && !before[id].status.Pending? ==> repository.notifications[id] == before[id]
    }

    /** One id of the queue. */
    method Take(id: nat, accepted: bool, written: bool)
      requires Valid()
      modifies this`tally, repository
      ensures Valid() && Settled(old(repository.notifications))
      ensures forall k :: 0 <= k < |repository.notifications| && k != id ==> repository.notifications[k] == old(repository.notifications)[k]
      ensures forall k :: tally.tried[k] >= old(tally).tried[k]
      ensures IsPending(old(repository.notifications), id) ==> tally.tried[id] > old(tally).tried[id]
    {
      Process(id, accepted, written);
    }

    /** The queue, with whatever duplicates it holds. */
    method Drain(accepts: nat -> bool, writes: nat -> bool)
      requires Valid()
      modifies this, repository
      ensures Valid() && queue == [] && Settled(old(repository.notifications))
      ensures forall id :: 0 <= id < |repository.notifications| && id !in old(queue) ==>
        repository.notifications[id] == old(repository.notifications)[id]
      ensures forall id :: id in old(queue) && IsPending(old(repository.notifications), id) ==> tally.tried[id] > old(tally).tried[id]
    {
      ghost var before := repository.notifications;
      ghost var done: seq<nat> := [];
      var round := 0;
      while queue != []
        invariant Valid() && Settled(before) && old(queue) == done + queue
        invariant forall id :: tally.tried[id] >= old(tally).tried[id]
        invariant forall id :: 0 <= id < |before| && id !in done ==> repository.notifications[id] == before[id]
        invariant forall id :: id in done && IsPending(before, id) ==> tally.tried[id] > old(tally).tried[id]
        decreases |queue|
      {
        var id := queue[0];
        queue := queue[1..];
        Take(id, accepts(round), writes(round));
        done := done + [id];
        round := round + 1;
      }
    }

    /** One attempt at a notification that is pending. */
    method Try(id: nat, accepted: bool, written: bool)
      requires Valid() && IsPending(repository.notifications, id)
      modifies this`tally, repository
      ensures Valid() && tally.tried == old(tally).tried[id := old(tally).tried[id] + 1] && |repository.notifications| == |old(repository.notifications)|
      ensures forall k :: 0 <= k < |repository.notifications| && k != id ==> repository.notifications[k] == old(repository.notifications)[k]
    {
      Process(id, accepted, written);
    }

    /** The safety net for ids the queue has lost: each of the oldest pending notifications is tried once more. */
    method Sweep(cutoff: Instant, accepts: nat -> bool, writes: nat -> bool) returns (pending: seq<nat>)
      requires Valid()
      modifies this`tally, repository
      ensures Valid() && OldestPending(old(repository.notifications), cutoff, SWEEP_LIMIT, pending)
      ensures tally.tried == old(tally).tried + multiset(pending)
      ensures |repository.notifications| == |old(repository.notifications)|
      ensures forall id :: 0 <= id < |repository.notifications| && id !in pending ==>
        repository.notifications[id] == old(repository.notifications)[id]
    {
      ghost var before := repository.notifications;
      pending := repository.ListPendingOlderThan(cutoff, SWEEP_LIMIT);
      for i := 0 to |pending|
        invariant Valid() && |repository.notifications| == |before|
        invariant tally.tried == old(tally).tried + multiset(pending[..i])
        invariant forall id :: 0 <= id < |before| && id !in pending[..i] ==> repository.notifications[id] == before[id]
      {
        NextOfBatch(before, cutoff, pending, i);
        Try(pending[i], accepts(i), writes(i));
      }
      assert pending[..|pending|] == pending;
    }
  }
}
