/**
 * The availability cache: every answer is what the tables really said a little earlier - at most the
 * cache's TTL plus the time that the read which filled the cache took.
 */
module AvailabilityCache {
  import opened Wrappers

  datatype Availability = Availability(capacity: int, taken: nat, available: nat)

  function Compute(capacity: int, taken: nat): Availability {
    Availability(capacity, taken, if capacity - taken < 0 then 0 else capacity - taken)
  }

  datatype Entry = Entry(value: Availability, expiresAt: Instant)

  /** What a GET finds. */
  function Hit(entry: Option<Entry>, now: Instant): Option<Availability> {
    if entry.Some? && now < entry.value.expiresAt then Some(entry.value.value) else None
  }

  class Cache {
    const ttl: nat
    var entries: map<Id, Entry>

    constructor (ttl: nat)
      ensures this.ttl == ttl && entries == map[]
    {
      this.ttl, entries := ttl, map[];
    }

    function Stored(category: Id): Option<Entry>
      reads this
    {
      if category in entries then Some(entries[category]) else None
    }

    method Get(category: Id, now: Instant) returns (hit: Option<Availability>)
      ensures hit == Hit(Stored(category), now)
    {
      if category in entries && now < entries[category].expiresAt {
        return Some(entries[category].value);
      }
      hit := None;
    }

    method Set(category: Id, value: Availability, now: Instant)
      modifies this
      ensures Stored(category) == Some(Entry(value, now + ttl))
      ensures forall other :: other != category ==> Stored(other) == old(Stored(other))
    {
      entries := entries[category := Entry(value, now + ttl)];
    }

    method Invalidate(category: Id)
      modifies this
      ensures Stored(category).None? && forall other :: other != category ==> Stored(other) == old(Stored(other))
    {
      entries := entries - {category};
    }

    /** GetAvailability with nothing in between: a miss reads the tables and fills the cache. */
    method GetAvailability(category: Id, capacity: int, taken: nat, now: Instant) returns (served: Availability)
      modifies this
      ensures served == match old(Hit(Stored(category), now)) case Some(value) => value case None => Compute(capacity, taken)
      ensures Hit(Stored(category), now) == if ttl > 0 then Some(served) else old(Hit(Stored(category), now))
      ensures forall other :: other != category ==> Stored(other) == old(Stored(other))
    {
      var cached := Get(category, now);
      if cached.Some? {
        return cached.value;
      }
      var available := if capacity - taken < 0 then 0 else capacity - taken;
      served := Availability(capacity, taken, available);
      Set(category, served, now);
    }
  }

  // ---- Concurrent readers of one category ----

  /** How far a call has come: it has read the category, missed the cache, counted the places, or has its answer. */
  datatype Reader = Opened(capacity: int) | Missed(capacity: int) | Counted(value: Availability) | Answered(value: Availability)

  datatype State = State(clock: Instant, capacity: int, taken: nat, entry: Option<Entry>, readers: map<Id, Reader>)

  /** The steps of reader r, and what may happen around it. A miss is also what a failing cache looks like. */
  datatype Step =
    | ReadCategory(r: Id)
    | Lookup(r: Id)
    | FailLookup(r: Id)
    | CountActive(r: Id)
    | Fill(r: Id)
    | FailFill(r: Id)
    | Leave(r: Id)
    | Invalidate
    | Change(capacity: int, taken: nat)
    | Tick(to: Instant)

  predicate Enabled(s: State, step: Step) {
    match step
    case ReadCategory(r) => r !in s.readers
    case Lookup(r) => r in s.readers && s.readers[r].Opened?
    case FailLookup(r) => r in s.readers && s.readers[r].Opened?
    case CountActive(r) => r in s.readers && s.readers[r].Missed?
    case Fill(r) => r in s.readers && s.readers[r].Counted?
    case FailFill(r) => r in s.readers && s.readers[r].Counted?
    case Leave(r) => r in s.readers
    case Invalidate => true
    case Change(_, _) => true
    case Tick(to) => s.clock <= to
  }

  function Next(s: State, step: Step, ttl: nat): State
    requires Enabled(s, step)
  {
    match step
    case ReadCategory(r) => s.(readers := s.readers[r := Opened(s.capacity)])
    case Lookup(r) =>
      s.(readers := s.readers[r := match Hit(s.entry, s.clock) case Some(value) => Answered(value) case None => Missed(s.readers[r].capacity)])
    case FailLookup(r) => s.(readers := s.readers[r := Missed(s.readers[r].capacity)])
    case CountActive(r) => s.(readers := s.readers[r := Counted(Compute(s.readers[r].capacity, s.taken))])
    case Fill(r) =>
      s.(readers := s.readers[r := Answered(s.readers[r].value)], entry := Some(Entry(s.readers[r].value, s.clock + ttl)))
    case FailFill(r) => s.(readers := s.readers[r := Answered(s.readers[r].value)])
    case Leave(r) => s.(readers := s.readers - {r})
    case Invalidate => s.(entry := None)
    case Change(capacity, taken) => s.(capacity := capacity, taken := taken)
    case Tick(to) => s.(clock := to)
  }

  datatype Run = Run(ttl: nat, states: seq<State>, steps: seq<Step>) {
    ghost predicate Valid() {
      && |states| == |steps| + 1
      && states[0].entry.None? && states[0].readers == map[]
      && forall k :: 0 <= k < |steps| ==> Enabled(states[k], steps[k]) && states[k + 1] == Next(states[k], steps[k], ttl)
    }
  }

  /** Reader r began its current call with step b. */
  ghost predicate Since(run: Run, r: Id, b: nat, k: nat) {
    && b < k < |run.states| && k <= |run.steps| && run.steps[b] == ReadCategory(r)
    && forall m :: b < m < k ==> run.steps[m] != ReadCategory(r)
  }

  /** In one call of reader r, begun with step b, step c counted and the value is made of those two reads. */
  ghost predicate Reads(run: Run, r: Id, b: nat, c: nat, k: nat, value: Availability) {
    && Since(run, r, b, k) && b < c < k && run.steps[c] == CountActive(r)
    && value == Compute(run.states[b].capacity, run.states[c].taken)
  }

  /** Step f of the same call stored the value. */
  ghost predicate Filled(run: Run, r: Id, b: nat, c: nat, f: nat, value: Availability) {
    Reads(run, r, b, c, f, value) && f < |run.steps| && run.steps[f] == Fill(r)
  }

  /** What a reader knows comes from its own call. */
  ghost predicate ReaderTrue(run: Run, k: nat, r: Id)
    requires k < |run.states|
  {
    r in run.states[k].readers ==>
      match run.states[k].readers[r]
      case Opened(capacity) => exists b: nat :: Since(run, r, b, k) && run.states[b].capacity == capacity
      case Missed(capacity) => exists b: nat :: Since(run, r, b, k) && run.states[b].capacity == capacity
      case Counted(value) => exists b: nat, c: nat :: Reads(run, r, b, c, k, value)
      case Answered(_) => true
  }

  lemma SinceNext(run: Run, r: Id, b: nat, k: nat)
    requires run.Valid() && Since(run, r, b, k) && k < |run.steps| && run.steps[k] != ReadCategory(r)
    ensures Since(run, r, b, k + 1)
  {
  }

  /** A reader's entry changes only by its own steps. */
  lemma ReaderFrame(s: State, step: Step, ttl: nat, r: Id)
    requires Enabled(s, step) && r in Next(s, step, ttl).readers
    ensures step == ReadCategory(r) <==> r !in s.readers
    ensures step !in {ReadCategory(r), Lookup(r), FailLookup(r), CountActive(r), Fill(r), FailFill(r)} ==>
      r in s.readers && Next(s, step, ttl).readers[r] == s.readers[r]
  {
  }

  lemma ReaderNext(run: Run, k: nat, r: Id)
    requires run.Valid() && k < |run.steps| && ReaderTrue(run, k, r)
    ensures ReaderTrue(run, k + 1, r)
  {
    var (s, step) := (run.states[k], run.steps[k]);
    if r in run.states[k + 1].readers {
      assert run.states[k + 1] == Next(s, step, run.ttl) && Enabled(s, step);
      ReaderFrame(s, step, run.ttl, r);
      if step == ReadCategory(r) {
        assert Since(run, r, k, k + 1);
      } else {
        match s.readers[r] {
          case Opened(capacity) =>
            var b: nat :| Since(run, r, b, k) && run.states[b].capacity == capacity;
            SinceNext(run, r, b, k);
          case Missed(capacity) =>
            var b: nat :| Since(run, r, b, k) && run.states[b].capacity == capacity;
            SinceNext(run, r, b, k);
            if step == CountActive(r) {
              assert Reads(run, r, b, k, k + 1, Compute(capacity, s.taken));
            }
          case Counted(value) =>
            var b: nat, c: nat :| Reads(run, r, b, c, k, value);
            SinceNext(run, r, b, k);
            assert Reads(run, r, b, c, k + 1, value);
          case Answered(_) =>
        }
      }
    }
  }

  lemma {:induction false} ReadersTrue(run: Run, k: nat, r: Id)
    requires run.Valid() && k < |run.states|
    ensures ReaderTrue(run, k, r)
  {
    if k > 0 {
      ReadersTrue(run, k - 1, r);
      ReaderNext(run, k - 1, r);
    }
  }

  ghost predicate EntryTrue(run: Run, k: nat)
    requires k < |run.states|
  {
    run.states[k].entry.Some? ==>
      exists r, b: nat, c: nat, f: nat :: f < k && Filled(run, r, b, c, f, run.states[k].entry.value.value)
        && run.states[k].entry.value.expiresAt == run.states[f].clock + run.ttl
  }

  lemma {:induction false} EntriesTrue(run: Run, k: nat)
    requires run.Valid() && k < |run.states|
    ensures EntryTrue(run, k)
  {
    if k > 0 {
      var (s, step) := (run.states[k - 1], run.steps[k - 1]);
      EntriesTrue(run, k - 1);
      assert run.states[k] == Next(s, step, run.ttl) && Enabled(s, step);
      if step.Fill? {
        ReadersTrue(run, k - 1, step.r);
        var b: nat, c: nat :| Reads(run, step.r, b, c, k - 1, s.readers[step.r].value);
        assert Filled(run, step.r, b, c, k - 1, s.readers[step.r].value);
      } else if s.entry.Some? && run.states[k].entry.Some? {
        var r, b: nat, c: nat, f: nat :| f < k - 1 && Filled(run, r, b, c, f, s.entry.value.value) && s.entry.value.expiresAt == run.states[f].clock + run.ttl;
      }
    }
  }

  /** The call of reader r is given its answer by step k. */
  predicate Answers(run: Run, k: nat, r: Id)
    requires k < |run.steps| && |run.states| == |run.steps| + 1
  {
    && run.steps[k] in {Lookup(r), Fill(r), FailFill(r)}
    && r in run.states[k + 1].readers && run.states[k + 1].readers[r].Answered?
  }

  /**
   * Each answer is made of a capacity and an active count that the tables really had, read by one call. For
   * a cached answer the count was taken less than the TTL plus (fill - count) ago, and the capacity less
   * than the TTL plus (fill - read) ago; otherwise both were read by the answered call itself.
   */
  lemma BoundedStaleness(run: Run, k: nat, r: Id)
    requires run.Valid() && k < |run.steps| && Answers(run, k, r)
    ensures var value := run.states[k + 1].readers[r].value;
      if run.steps[k] == Lookup(r) then
        exists q, b: nat, c: nat, f: nat :: f < k && Filled(run, q, b, c, f, value)
          && run.states[k].clock - run.states[c].clock < run.ttl + (run.states[f].clock - run.states[c].clock)
          && run.states[k].clock - run.states[b].clock < run.ttl + (run.states[f].clock - run.states[b].clock)
      else
        exists b: nat, c: nat :: Reads(run, r, b, c, k, value)
  {
    assert run.states[k + 1] == Next(run.states[k], run.steps[k], run.ttl) && Enabled(run.states[k], run.steps[k]);
    if run.steps[k] == Lookup(r) {
      EntriesTrue(run, k);
    } else {
      ReadersTrue(run, k, r);
    }
  }

  // ---- What an invalidation guarantees ----

  predicate IsCounted(s: State, r: Id) {
    r in s.readers && s.readers[r].Counted?
  }

  /** The call has read the category and has no answer yet. */
  predicate UnderWay(s: State, r: Id) {
    r in s.readers && !s.readers[r].Answered?
  }

  /** What reader r has counted, it counted after step v. */
  ghost predicate CountedAfter(run: Run, v: nat, k: nat, r: Id)
    requires k < |run.states|
  {
    IsCounted(run.states[k], r) ==> exists b: nat, c: nat :: v < c && Reads(run, r, b, c, k, run.states[k].readers[r].value)
  }

  lemma CountedAfterNext(run: Run, v: nat, k: nat, r: Id)
    requires run.Valid() && v < k < |run.steps| && CountedAfter(run, v, k, r)
    ensures CountedAfter(run, v, k + 1, r)
  {
    var (s, step) := (run.states[k], run.steps[k]);
    if IsCounted(run.states[k + 1], r) {
      assert run.states[k + 1] == Next(s, step, run.ttl) && Enabled(s, step);
      ReaderFrame(s, step, run.ttl, r);
      ReadersTrue(run, k, r);
      if step == CountActive(r) {
        var b: nat :| Since(run, r, b, k) && run.states[b].capacity == s.readers[r].capacity;
        SinceNext(run, r, b, k);
        assert Reads(run, r, b, k, k + 1, Compute(s.readers[r].capacity, s.taken));
      } else {
        var b: nat, c: nat :| v < c && Reads(run, r, b, c, k, s.readers[r].value);
        SinceNext(run, r, b, k);
        assert Reads(run, r, b, c, k + 1, s.readers[r].value);
      }
    }
  }

  lemma {:induction false} CountsAfter(run: Run, v: nat, k: nat, r: Id)
    requires run.Valid() && v < k < |run.states| && run.steps[v] == Invalidate && !IsCounted(run.states[v], r)
    ensures CountedAfter(run, v, k, r)
    decreases k
  {
    if k == v + 1 {
      assert run.states[k] == Next(run.states[v], run.steps[v], run.ttl);
    } else {
      CountsAfter(run, v, k - 1, r);
      CountedAfterNext(run, v, k - 1, r);
    }
  }

  /** What the cache holds was counted after step v. */
  ghost predicate EntryAfter(run: Run, v: nat, k: nat)
    requires k < |run.states|
  {
    run.states[k].entry.Some? ==>
      exists q, b: nat, c: nat, f: nat :: v < c && f < k && Filled(run, q, b, c, f, run.states[k].entry.value.value)
  }

  lemma {:induction false} EntriesAfter(run: Run, v: nat, k: nat)
    requires run.Valid() && v < k < |run.states| && run.steps[v] == Invalidate && forall r :: !IsCounted(run.states[v], r)
    ensures EntryAfter(run, v, k)
    decreases k
  {
    var (s, step) := (run.states[k - 1], run.steps[k - 1]);
    assert run.states[k] == Next(s, step, run.ttl) && Enabled(s, step);
    if k > v + 1 {
      EntriesAfter(run, v, k - 1);
      if step.Fill? {
        CountsAfter(run, v, k - 1, step.r);
        var b: nat, c: nat :| v < c && Reads(run, step.r, b, c, k - 1, s.readers[step.r].value);
        assert Filled(run, step.r, b, c, k - 1, s.readers[step.r].value);
      } else if run.states[k].entry.Some? {
        var q, b: nat, c: nat, f: nat :| v < c && f < k - 1 && Filled(run, q, b, c, f, s.entry.value.value);
      }
    }
  }

  /**
   * If no call holds a count when the category is invalidated, every answer that the cache gives afterwards, however much
   * later, rests on a count taken after the invalidation.
   */
  lemma FreshUnlessCounted(run: Run, v: nat, k: nat, r: Id)
    requires run.Valid() && v < k < |run.steps| && run.steps[v] == Invalidate && (forall q :: !IsCounted(run.states[v], q))
    requires run.steps[k] == Lookup(r) && Answers(run, k, r)
    ensures var value := run.states[k + 1].readers[r].value;
      exists q, b: nat, c: nat, f: nat :: v < c && f < k && Filled(run, q, b, c, f, value)
  {
    assert run.states[k + 1] == Next(run.states[k], run.steps[k], run.ttl) && Enabled(run.states[k], run.steps[k]);
    EntriesAfter(run, v, k);
  }

  /**
   * ... and only then: from every state in which a call holds a count, whatever changes before the category is
   * invalidated, the call can fill the cache, and for the whole TTL another call is answered with the old count.
   */
  lemma StaleIfCounted(s: State, q: Id, r: Id, capacity: int, taken: nat, late: nat, ttl: nat)
    requires IsCounted(s, q) && r !in s.readers && late < ttl
    ensures var s1 := Next(s, Change(capacity, taken), ttl);
            var s2 := Next(s1, Invalidate, ttl);
      && Enabled(s2, Fill(q)) && Hit(s2.entry, s2.clock).None?
      && var s3 := Next(s2, Fill(q), ttl);
         && Enabled(s3, Tick(s.clock + late))
         && var s4 := Next(s3, Tick(s.clock + late), ttl);
            && Enabled(s4, ReadCategory(r)) && Enabled(Next(s4, ReadCategory(r), ttl), Lookup(r))
            && Next(Next(s4, ReadCategory(r), ttl), Lookup(r), ttl).readers[r] == Answered(s.readers[q].value)
  {
  }

  // ---- The same for the capacity, which a call reads first ----

  /** What reader r knows of the capacity, it read after step v. */
  ghost predicate BegunAfter(run: Run, v: nat, k: nat, r: Id)
    requires k < |run.states|
  {
    r in run.states[k].readers ==>
      match run.states[k].readers[r]
      case Opened(capacity) => exists b: nat :: v < b && Since(run, r, b, k) && run.states[b].capacity == capacity
      case Missed(capacity) => exists b: nat :: v < b && Since(run, r, b, k) && run.states[b].capacity == capacity
      case Counted(value) => exists b: nat, c: nat :: v < b && Reads(run, r, b, c, k, value)
      case Answered(_) => true
  }

  lemma BegunAfterNext(run: Run, v: nat, k: nat, r: Id)
    requires run.Valid() && v < k < |run.steps| && BegunAfter(run, v, k, r)
    ensures BegunAfter(run, v, k + 1, r)
  {
    var (s, step) := (run.states[k], run.steps[k]);
    if UnderWay(run.states[k + 1], r) {
      assert run.states[k + 1] == Next(s, step, run.ttl) && Enabled(s, step);
      ReaderFrame(s, step, run.ttl, r);
      if step == ReadCategory(r) {
        assert Since(run, r, k, k + 1);
      } else if s.readers[r].Counted? {
        var b: nat, c: nat :| v < b && Reads(run, r, b, c, k, s.readers[r].value);
        SinceNext(run, r, b, k);
        assert Reads(run, r, b, c, k + 1, s.readers[r].value);
      } else {
        var b: nat :| v < b && Since(run, r, b, k) && run.states[b].capacity == s.readers[r].capacity;
        SinceNext(run, r, b, k);
        if step == CountActive(r) {
          assert Reads(run, r, b, k, k + 1, Compute(s.readers[r].capacity, s.taken));
        }
      }
    }
  }

  lemma {:induction false} BeginsAfter(run: Run, v: nat, k: nat, r: Id)
    requires run.Valid() && v < k < |run.states| && run.steps[v] == Invalidate && !UnderWay(run.states[v], r)
    ensures BegunAfter(run, v, k, r)
    decreases k
  {
    if k == v + 1 {
      assert run.states[k] == Next(run.states[v], run.steps[v], run.ttl);
    } else {
      BeginsAfter(run, v, k - 1, r);
      BegunAfterNext(run, v, k - 1, r);
    }
  }

  ghost predicate EntryBegunAfter(run: Run, v: nat, k: nat)
    requires k < |run.states|
  {
    run.states[k].entry.Some? ==>
      exists q, b: nat, c: nat, f: nat :: v < b && f < k && Filled(run, q, b, c, f, run.states[k].entry.value.value)
  }

  lemma {:induction false} EntriesBegunAfter(run: Run, v: nat, k: nat)
    requires run.Valid() && v < k < |run.states| && run.steps[v] == Invalidate && forall r :: !UnderWay(run.states[v], r)
    ensures EntryBegunAfter(run, v, k)
    decreases k
  {
    var (s, step) := (run.states[k - 1], run.steps[k - 1]);
    assert run.states[k] == Next(s, step, run.ttl) && Enabled(s, step);
    if k > v + 1 {
      EntriesBegunAfter(run, v, k - 1);
      if step.Fill? {
        BeginsAfter(run, v, k - 1, step.r);
        var b: nat, c: nat :| v < b && Reads(run, step.r, b, c, k - 1, s.readers[step.r].value);
        assert Filled(run, step.r, b, c, k - 1, s.readers[step.r].value);
      } else if run.states[k].entry.Some? {
        var q, b: nat, c: nat, f: nat :| v < b && f < k - 1 && Filled(run, q, b, c, f, s.entry.value.value);
      }
    }
  }

  /** If no call is under way at the invalidation, both the capacity and the count of every later cached answer are read after it. */
  lemma FreshUnlessUnderWay(run: Run, v: nat, k: nat, r: Id)
    requires run.Valid() && v < k < |run.steps| && run.steps[v] == Invalidate && (forall q :: !UnderWay(run.states[v], q))
    requires run.steps[k] == Lookup(r) && Answers(run, k, r)
    ensures var value := run.states[k + 1].readers[r].value;
      exists q, b: nat, c: nat, f: nat :: v < b < c && f < k && Filled(run, q, b, c, f, value)
  {
    assert run.states[k + 1] == Next(run.states[k], run.steps[k], run.ttl) && Enabled(run.states[k], run.steps[k]);
    EntriesBegunAfter(run, v, k);
  }

  /** A call's steps from where it is to the count, on a cache that is empty. */
  function Completed(s: State, q: Id, ttl: nat): State
    requires UnderWay(s, q)
  {
    match s.readers[q]
    case Opened(_) => Next(Next(s, FailLookup(q), ttl), CountActive(q), ttl)
    case Missed(_) => Next(s, CountActive(q), ttl)
    case _ => s
  }

  /** ... and only then: a call that has only read the category can still bring the old capacity into the cache. */
  lemma StaleCapacityIfUnderWay(s: State, q: Id, r: Id, capacity: int, taken: nat, late: nat, ttl: nat)
    requires UnderWay(s, q) && !IsCounted(s, q) && r !in s.readers && late < ttl
    ensures var s1 := Next(Next(s, Change(capacity, taken), ttl), Invalidate, ttl);
      && UnderWay(s1, q) && Enabled(Completed(s1, q, ttl), Fill(q))
      && var s2 := Next(Completed(s1, q, ttl), Fill(q), ttl);
         && Enabled(s2, Tick(s.clock + late))
         && var s3 := Next(s2, Tick(s.clock + late), ttl);
            && Enabled(s3, ReadCategory(r)) && Enabled(Next(s3, ReadCategory(r), ttl), Lookup(r))
            && Next(Next(s3, ReadCategory(r), ttl), Lookup(r), ttl).readers[r] == Answered(Compute(s.readers[q].capacity, taken))
  {
  }
}
