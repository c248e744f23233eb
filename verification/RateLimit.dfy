/** The fixed-window limiter: a counter that expires one window after its EXPIRE. */
module RateLimit {
  import opened Wrappers

  /** A key's value; without an expiry it stays. */
  datatype Counter = Absent | Live(count: nat, expiresAt: Option<Instant>)

  /** The value as a command at this instant finds it. */
  function At(counter: Counter, now: Instant): Counter {
    if counter.Live? && counter.expiresAt.Some? && counter.expiresAt.value <= now then Absent else counter
  }

  function Incremented(counter: Counter, now: Instant): (after: Counter)
    ensures after.Live?
  {
    match At(counter, now)
    case Absent => Live(1, None)
    case Live(count, expiresAt) => Live(count + 1, expiresAt)
  }

  function Expiring(counter: Counter, now: Instant, window: nat): Counter {
    match At(counter, now)
    case Absent => Absent
    case Live(count, _) => Live(count, Some(now + window))
  }

  class Limiter {
    var counters: map<Id, Counter>

    constructor ()
      ensures counters == map[]
    {
      counters := map[];
    }

    function Value(key: Id): Counter
      reads this
    {
      if key in counters then counters[key] else Absent
    }

    /** One attempt, its INCR at one instant and its EXPIRE, if it is the first of its window, at a later one. */
    method Allow(key: Id, limit: int, window: nat, incrAt: Instant, expireAt: Instant) returns (allowed: bool)
      requires incrAt <= expireAt
      modifies this
      ensures allowed <==> Incremented(old(Value(key)), incrAt).count <= limit
      ensures Value(key) ==
        var counter := Incremented(old(Value(key)), incrAt);
        if counter.count == 1 then Expiring(counter, expireAt, window) else counter
      ensures forall other :: other != key ==> Value(other) == old(Value(other))
    {
      var counter := Incremented(Value(key), incrAt);
      counters := counters[key := counter];
      if counter.count == 1 {
        counters := counters[key := Expiring(counter, expireAt, window)];
      }
      allowed := counter.count <= limit;
    }

    method Reset(key: Id)
      modifies this
      ensures Value(key).Absent? && forall other :: other != key ==> Value(other) == old(Value(other))
    {
      counters := counters - {key};
    }
  }

  // ---- Concurrent callers of one key ----

  /** INCR by any caller, and EXPIRE by one that has seen its INCR return 1. */
  datatype Command = Incr(at: Instant) | Expire(at: Instant)

  /** pending counts the callers that still owe their EXPIRE; one that crashes owes it forever. */
  datatype State = State(counter: Counter, pending: nat)

  function Step(s: State, command: Command, window: nat): State {
    match command
    case Incr(now) =>
      var after := Incremented(s.counter, now);
      State(after, if after.count == 1 then s.pending + 1 else s.pending)
    case Expire(now) =>
      if s.pending == 0 then s else State(Expiring(s.counter, now, window), s.pending - 1)
  }

  function After(commands: seq<Command>, window: nat): State {
    if commands == [] then State(Absent, 0) else Step(After(commands[..|commands| - 1], window), commands[|commands| - 1], window)
  }

  ghost predicate Ordered(commands: seq<Command>) {
    forall i, j :: 0 <= i <= j < |commands| ==> commands[i].at <= commands[j].at
  }

  predicate Allowed(s: State, command: Command, limit: nat) {
    command.Incr? && Incremented(s.counter, command.at).count <= limit
  }

  /** The calls allowed in the window that begins at an instant. */
  function AllowedWithin(commands: seq<Command>, window: nat, limit: nat, start: Instant): nat {
    if commands == [] then 0
    else
      var (earlier, last) := (commands[..|commands| - 1], commands[|commands| - 1]);
      AllowedWithin(earlier, window, limit, start)
        + if start <= last.at < start + window && Allowed(After(earlier, window), last, limit) then 1 else 0
  }

  /** At most one EXPIRE is owed, and then the key has no expiry yet. */
  lemma {:induction false} OwesOne(commands: seq<Command>, window: nat)
    ensures After(commands, window).pending <= 1
    ensures After(commands, window).pending == 1 ==>
      After(commands, window).counter.Live? && After(commands, window).counter.expiresAt.None?
    ensures After(commands, window).counter.Live? ==> After(commands, window).counter.count >= 1
  {
    if commands != [] {
      OwesOne(commands[..|commands| - 1], window);
    }
  }

  function Least(a: nat, b: nat): nat {
    if a < b then a else b
  }

  /**
   * Either every call allowed in the window belongs to the counter that was there when it began - without
   * that counter's first call, if it expires within the window - or a new counter has begun, and outlives it.
   */
  ghost predicate TwoCounters(s: State, allowed: nat, start: Instant, window: nat, limit: nat) {
    || (s.counter.Absent? && allowed == 0)
    || (&& s.counter.Live? && allowed <= Least(s.counter.count, limit)
        && (s.counter.expiresAt.Some? && s.counter.expiresAt.value < start + window ==>
              allowed < Least(s.counter.count, limit)))
    || (&& s.counter.Live? && allowed < limit + Least(s.counter.count, limit)
        && (s.counter.expiresAt.Some? ==> s.counter.expiresAt.value >= start + window))
  }

  lemma {:induction false} TwoCountersKept(commands: seq<Command>, window: nat, limit: nat, start: Instant)
    requires limit >= 1 && Ordered(commands) && forall i :: 0 <= i < |commands| ==> commands[i].at < start + window
    ensures TwoCounters(After(commands, window), AllowedWithin(commands, window, limit, start), start, window, limit)
  {
    if commands != [] {
      var earlier := commands[..|commands| - 1];
      TwoCountersKept(earlier, window, limit, start);
      OwesOne(earlier, window);
      if commands[|commands| - 1].at < start {
        NoneYet(earlier, window, limit, start);
      }
    }
  }

  lemma {:induction false} NoneYet(commands: seq<Command>, window: nat, limit: nat, start: Instant)
    requires forall i :: 0 <= i < |commands| ==> commands[i].at < start
    ensures AllowedWithin(commands, window, limit, start) == 0
  {
    if commands != [] {
      NoneYet(commands[..|commands| - 1], window, limit, start);
    }
  }

  /**
   * Whatever the callers' interleaving, any half-open interval of one window length allows fewer than twice
   * the limit: the counter that is replaced within it has spent its first call before it.
   */
  lemma {:induction false} SlidingBound(commands: seq<Command>, window: nat, limit: nat, start: Instant)
    requires limit >= 1 && Ordered(commands)
    ensures AllowedWithin(commands, window, limit, start) < 2 * limit
  {
    if commands != [] && commands[|commands| - 1].at >= start + window {
      SlidingBound(commands[..|commands| - 1], window, limit, start);
    } else {
      TwoCountersKept(commands, window, limit, start);
    }
  }

  lemma Appended(commands: seq<Command>, last: Command, window: nat, limit: nat, start: Instant)
    ensures After(commands + [last], window) == Step(After(commands, window), last, window)
    ensures AllowedWithin(commands + [last], window, limit, start) == AllowedWithin(commands, window, limit, start)
      + if start <= last.at < start + window && Allowed(After(commands, window), last, limit) then 1 else 0
  {
    assert (commands + [last])[..|commands|] == commands;
  }

  /** Calls at one instant. */
  function Calls(n: nat, at: Instant): seq<Command> {
    seq(n, _ => Incr(at))
  }

  /** One more call. */
  lemma OneMore(n: nat, at: Instant)
    ensures Calls(n + 1, at) == Calls(n, at) + [Incr(at)]
  {
  }

  /** A call on a live counter is counted, and allowed within the limit. */
  lemma CallCounted(commands: seq<Command>, at: Instant, window: nat, limit: nat, start: Instant, count: nat, expiry: Instant, pending: nat)
    requires start <= at < start + window && at < expiry && 1 <= count < limit
    requires After(commands, window) == State(Live(count, Some(expiry)), pending)
    ensures After(commands + [Incr(at)], window) == State(Live(count + 1, Some(expiry)), pending)
    ensures AllowedWithin(commands + [Incr(at)], window, limit, start) == AllowedWithin(commands, window, limit, start) + 1
  {
    Appended(commands, Incr(at), window, limit, start);
  }

  lemma {:induction false} CallsCounted(commands: seq<Command>, n: nat, at: Instant, window: nat, limit: nat, start: Instant,
          count: nat, expiry: Instant, pending: nat)
    requires start <= at < start + window && at < expiry && 1 <= count && count + n <= limit
    requires After(commands, window) == State(Live(count, Some(expiry)), pending)
    ensures After(commands + Calls(n, at), window) == State(Live(count + n, Some(expiry)), pending)
    ensures AllowedWithin(commands + Calls(n, at), window, limit, start) == AllowedWithin(commands, window, limit, start) + n
    decreases n
  {
    if n == 0 {
      assert commands + Calls(0, at) == commands;
    } else {
      var earlier := commands + Calls(n - 1, at);
      CallsCounted(commands, n - 1, at, window, limit, start, count, expiry, pending);
      OneMore(n - 1, at);
      assert commands + Calls(n, at) == earlier + [Incr(at)];
      CallCounted(earlier, at, window, limit, start, count + n - 1, expiry, pending);
    }
  }

  /** A first call, its expiry, and the rest of the limit. */
  function Burst(first: Instant, rest: Instant, limit: nat): seq<Command>
    requires limit >= 1
  {
    [Incr(first), Expire(first)] + Calls(limit - 1, rest)
  }

  /** A counter that begins by the first call of a burst allows the whole burst; start says whether it sees the first call. */
  lemma BurstAllowed(commands: seq<Command>, first: Instant, rest: Instant, window: nat, limit: nat, start: Instant)
    requires limit >= 1 && first < start + window && start <= rest < start + window && first <= rest < first + window
    requires var before := After(commands, window);
      before.pending == 0 && Incremented(before.counter, first) == Live(1, None)
    ensures After(commands + Burst(first, rest, limit), window) == State(Live(limit, Some(first + window)), 0)
    ensures AllowedWithin(commands + Burst(first, rest, limit), window, limit, start)
      == AllowedWithin(commands, window, limit, start) + limit - if first < start then 1 else 0
  {
    var one, two := commands + [Incr(first)], commands + [Incr(first)] + [Expire(first)];
    Appended(commands, Incr(first), window, limit, start);
    Appended(one, Expire(first), window, limit, start);
    CallsCounted(two, limit - 1, rest, window, limit, start, 1, first + window, 0);
    assert commands + Burst(first, rest, limit) == two + Calls(limit - 1, rest);
  }

  lemma BurstsOrdered(window: nat, limit: nat)
    requires limit >= 1 && window >= 2
    ensures Ordered(Burst(0, window - 1, limit) + Burst(window, window, limit))
  {
  }

  /**
   * The bound is reached, whatever the limit: a counter's first call before the interval, its other calls at the end of
   * its window, and a whole new counter right after it.
   */
  lemma BoundIsReached(window: nat, limit: nat)
    requires limit >= 1 && window >= 2
    ensures var commands := Burst(0, window - 1, limit) + Burst(window, window, limit);
      Ordered(commands) && AllowedWithin(commands, window, limit, 1) == 2 * limit - 1
  {
    var earlier := Burst(0, window - 1, limit);
    BurstsOrdered(window, limit);
    assert [] + earlier == earlier;
    BurstAllowed([], 0, window - 1, window, limit, 1);
    BurstAllowed(earlier, window, window, window, limit, 1);
  }
}
