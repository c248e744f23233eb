/**
 * The Redis lock around a registration: exclusive until it expires, never released by anyone but its owner -
 * and only advisory, since an owner that outlives its TTL does not notice.
 */
module CategoryLock {
  import opened Wrappers

  datatype Lock = Lock(token: Id, expiresAt: Instant)

  /** The lock as a command at this instant finds it. */
  function Live(lock: Option<Lock>, now: Instant): Option<Lock> {
    if lock.Some? && lock.value.expiresAt <= now then None else lock
  }

  /** SET key token NX with the TTL. */
  function Taken(lock: Option<Lock>, token: Id, now: Instant, ttl: nat): Option<Lock> {
    if Live(lock, now).None? then Some(Lock(token, now + ttl)) else Live(lock, now)
  }

  /** The script that compares and deletes. */
  function Released(lock: Option<Lock>, token: Id, now: Instant): Option<Lock> {
    if Live(lock, now).Some? && Live(lock, now).value.token == token then None else Live(lock, now)
  }

  class Locker {
    const ttl: nat
    var locks: map<Id, Lock>

    constructor (ttl: nat)
      ensures this.ttl == ttl && locks == map[]
    {
      this.ttl, locks := ttl, map[];
    }

    function Held(category: Id): Option<Lock>
      reads this
    {
      if category in locks then Some(locks[category]) else None
    }

    method TryLock(category: Id, token: Id, now: Instant) returns (acquired: bool)
      modifies this
      ensures acquired <==> Live(old(Held(category)), now).None?
      ensures Live(Held(category), now) == Live(Taken(old(Held(category)), token, now, ttl), now)
      ensures forall other :: other != category ==> Held(other) == old(Held(other))
    {
      acquired := category !in locks || locks[category].expiresAt <= now;
      if acquired {
        locks := locks[category := Lock(token, now + ttl)];
      }
    }

    method Release(category: Id, token: Id, now: Instant)
      modifies this
      ensures Live(Held(category), now) == Released(old(Held(category)), token, now)
      ensures forall other :: other != category ==> Held(other) == old(Held(other))
    {
      if category in locks && locks[category].expiresAt > now && locks[category].token == token {
        locks := locks - {category};
      }
    }
  }

  // ---- Any number of callers of one category ----

  datatype Command = TryLock(token: Id, at: Instant) | Release(token: Id, at: Instant)

  function After(lock: Option<Lock>, commands: seq<Command>, ttl: nat): Option<Lock>
    decreases |commands|
  {
    if commands == [] then lock
    else match commands[0]
      case TryLock(token, now) => After(Taken(lock, token, now, ttl), commands[1..], ttl)
      case Release(token, now) => After(Released(lock, token, now), commands[1..], ttl)
  }

  /**
   * From its acquisition to its expiry a lock stays its owner's, whatever the others try or release: an owner
   * whose own lock has expired cannot take the replacement away.
   */
  lemma {:induction false} ExclusiveUntilExpiry(lock: Lock, commands: seq<Command>, ttl: nat)
    requires forall i :: 0 <= i < |commands| ==> commands[i].at < lock.expiresAt
    requires forall i :: 0 <= i < |commands| ==> commands[i] != Release(lock.token, commands[i].at)
    ensures After(Some(lock), commands, ttl) == Some(lock)
    decreases |commands|
  {
    if commands != [] {
      assert commands[0] != Release(lock.token, commands[0].at) && commands[0].at < lock.expiresAt;
      ExclusiveUntilExpiry(lock, commands[1..], ttl);
    }
  }

  /** Past the expiry the next caller gets the lock, while the first still believes that it holds it. */
  lemma LockCanBeLost(first: Id, second: Id, at: Instant, ttl: nat)
    requires first != second
    ensures After(None, [TryLock(first, at), TryLock(second, at + ttl)], ttl) == Some(Lock(second, at + ttl + ttl))
    ensures After(None, [TryLock(first, at), TryLock(second, at + ttl), Release(first, at + ttl)], ttl)
      == Live(Some(Lock(second, at + ttl + ttl)), at + ttl)
  {
    var commands := [TryLock(first, at), TryLock(second, at + ttl)];
    var l1 := Some(Lock(first, at + ttl));
    var l2 := Some(Lock(second, at + ttl + ttl));
    assert commands[1..] == [TryLock(second, at + ttl)];
    assert After(l1, commands[1..], ttl) == After(l2, [], ttl);
    var longer := commands + [Release(first, at + ttl)];
    assert longer == [TryLock(first, at), TryLock(second, at + ttl), Release(first, at + ttl)];
    assert longer[1..][1..] == [Release(first, at + ttl)];
    assert After(l2, longer[1..][1..], ttl) == After(Released(l2, first, at + ttl), [], ttl);
  }
}
