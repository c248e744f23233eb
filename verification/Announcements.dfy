/**
 * Fan-out of a message to a roster: rows are keyed by kind, entity type and entity, a row that exists already
 * counts as a success, and so a fan-out may be stopped anywhere and repeated.
 */
module Announcements {
  import opened Wrappers

  datatype Kind = Announcement | EventUpdate | Cancellation

  /** scope is the automation for an announcement; the other kinds all use the one scope of registrations. */
  datatype Key = Key(kind: Kind, scope: Id, registration: Id)

  datatype Notice = Notice(user: Id, message: Id)

  /** What was enqueued; how far the workers have come with it is not part of this. */
  datatype Outbox = Outbox(notices: map<Key, Notice>, deliveries: map<Key, Id>)

  datatype Recipient = Recipient(registration: Id, user: Id)

  const ROSTER_LIMIT := 10000

  /** The query's LIMIT; the newest registrations come first. */
  function Targets(roster: seq<Recipient>): seq<Recipient> {
    if |roster| <= ROSTER_LIMIT then roster else roster[..ROSTER_LIMIT]
  }

  /** Notification and Telegram delivery in one transaction; a duplicate key is ErrAlreadyExists, which enqueue takes as success. */
  function Enqueue(o: Outbox, key: Key, notice: Notice): Outbox {
    if key in o.notices then o else Outbox(o.notices[key := notice], o.deliveries[key := notice.user])
  }

  datatype Message = Message(kind: Kind, scope: Id, text: Id)

  function KeyFor(m: Message, r: Recipient): Key {
    Key(m.kind, m.scope, r.registration)
  }

  function FanOut(o: Outbox, m: Message, targets: seq<Recipient>): Outbox {
    if targets == [] then o
    else Enqueue(FanOut(o, m, targets[..|targets| - 1]), KeyFor(m, targets[|targets| - 1]), Notice(targets[|targets| - 1].user, m.text))
  }

  ghost predicate Distinct(targets: seq<Recipient>) {
    forall i, j :: 0 <= i < j < |targets| ==> targets[i].registration != targets[j].registration
  }

  /** Each notice has its delivery, for the same user. */
  ghost predicate Paired(o: Outbox) {
    && (forall k :: k in o.notices <==> k in o.deliveries)
    && forall k :: k in o.notices ==> o.deliveries[k] == o.notices[k].user
  }

  ghost predicate Reaches(m: Message, targets: seq<Recipient>, k: Key) {
    exists i :: 0 <= i < |targets| && k == KeyFor(m, targets[i])
  }

  lemma ReachesPrefix(m: Message, targets: seq<Recipient>, n: nat, k: Key)
    requires n <= |targets|
    ensures Reaches(m, targets[..n], k) ==> Reaches(m, targets, k)
  {
    if Reaches(m, targets[..n], k) {
      var i :| 0 <= i < n && k == KeyFor(m, targets[..n][i]);
      assert targets[..n][i] == targets[i];
    }
  }

  /** A fan-out adds the rows of the recipients that have none, and changes no other row. */
  lemma {:induction false} FanOutAdds(o: Outbox, m: Message, targets: seq<Recipient>, k: Key)
    requires Distinct(targets)
    ensures var after := FanOut(o, m, targets);
      && (k in after.notices <==> k in o.notices || Reaches(m, targets, k))
      && (k in o.notices ==> after.notices[k] == o.notices[k])
      && (k !in o.notices ==> forall i :: 0 <= i < |targets| && k == KeyFor(m, targets[i]) ==> after.notices[k] == Notice(targets[i].user, m.text))
  {
    if targets != [] {
      var (init, last) := (targets[..|targets| - 1], targets[|targets| - 1]);
      FanOutAdds(o, m, init, k);
      if Reaches(m, init, k) {
        var i :| 0 <= i < |init| && k == KeyFor(m, init[i]);
        assert targets[i] == init[i];
        assert targets[i].registration != last.registration;
      }
      if Reaches(m, targets, k) {
        var i :| 0 <= i < |targets| && k == KeyFor(m, targets[i]);
        assert i < |init| ==> init[i] == targets[i];
      }
    }
  }

  lemma {:induction false} FanOutPairs(o: Outbox, m: Message, targets: seq<Recipient>)
    requires Paired(o)
    ensures Paired(FanOut(o, m, targets))
  {
    if targets != [] {
      FanOutPairs(o, m, targets[..|targets| - 1]);
    }
  }

  lemma PairedEqual(a: Outbox, b: Outbox)
    requires Paired(a) && Paired(b) && a.notices == b.notices
    ensures a == b
  {
    assert forall k :: k in a.deliveries <==> k in b.deliveries;
    assert a.deliveries == b.deliveries;
  }

  lemma DistinctPrefix(targets: seq<Recipient>, k: nat)
    requires Distinct(targets) && k <= |targets|
    ensures Distinct(targets[..k])
  {
  }

  /** Repeating a fan-out after one that stopped anywhere is the same as doing it once. */
  lemma StoppedThenComplete(o: Outbox, m: Message, targets: seq<Recipient>, stop: nat)
    requires Distinct(targets) && Paired(o) && stop <= |targets|
    ensures FanOut(FanOut(o, m, targets[..stop]), m, targets) == FanOut(o, m, targets)
  {
    var part := FanOut(o, m, targets[..stop]);
    var (twice, once) := (FanOut(part, m, targets), FanOut(o, m, targets));
    DistinctPrefix(targets, stop);
    forall k ensures k in twice.notices <==> k in once.notices
      ensures k in once.notices ==> twice.notices[k] == once.notices[k]
    {
      SameRow(o, m, targets, stop, k);
    }
    assert twice.notices == once.notices;
    FanOutPairs(o, m, targets[..stop]);
    FanOutPairs(part, m, targets);
    FanOutPairs(o, m, targets);
    PairedEqual(twice, once);
  }

  lemma SameRow(o: Outbox, m: Message, targets: seq<Recipient>, stop: nat, k: Key)
    requires Distinct(targets) && stop <= |targets|
    ensures var (twice, once) := (FanOut(FanOut(o, m, targets[..stop]), m, targets), FanOut(o, m, targets));
      && (k in twice.notices <==> k in once.notices)
      && (k in once.notices ==> twice.notices[k] == once.notices[k])
  {
    var part := FanOut(o, m, targets[..stop]);
    DistinctPrefix(targets, stop);
    FanOutAdds(o, m, targets[..stop], k);
    FanOutAdds(part, m, targets, k);
    FanOutAdds(o, m, targets, k);
    if Reaches(m, targets[..stop], k) {
      var i :| 0 <= i < stop && k == KeyFor(m, targets[..stop][i]);
      assert targets[..stop][i] == targets[i];
      assert Reaches(m, targets, k);
    } else if Reaches(m, targets, k) {
      var i :| 0 <= i < |targets| && k == KeyFor(m, targets[i]);
    }
  }

  // ---- Any number of attempts, and other messages in between ----

  /** A fan-out that stops after some recipients, or the enqueuing of a row of another message. */
  datatype Event = Attempt(stop: nat) | Elsewhere(key: Key, notice: Notice)

  function Apply(o: Outbox, m: Message, targets: seq<Recipient>, event: Event): Outbox {
    match event
    case Attempt(stop) => FanOut(o, m, if stop <= |targets| then targets[..stop] else targets)
    case Elsewhere(key, notice) => Enqueue(o, key, notice)
  }

  function After(o: Outbox, m: Message, targets: seq<Recipient>, events: seq<Event>): Outbox
    decreases |events|
  {
    if events == [] then o else After(Apply(o, m, targets, events[0]), m, targets, events[1..])
  }

  /** The events without the attempts. */
  function OthersOnly(o: Outbox, events: seq<Event>): Outbox
    decreases |events|
  {
    if events == [] then o
    else match events[0]
      case Attempt(_) => OthersOnly(o, events[1..])
      case Elsewhere(key, notice) => OthersOnly(Enqueue(o, key, notice), events[1..])
  }

  ghost predicate OtherKeys(m: Message, targets: seq<Recipient>, events: seq<Event>) {
    forall i :: 0 <= i < |events| && events[i].Elsewhere? ==> !Reaches(m, targets, events[i].key)
  }

  lemma {:induction false} FanOutCommutes(o: Outbox, m: Message, targets: seq<Recipient>, key: Key, notice: Notice)
    requires !Reaches(m, targets, key)
    ensures FanOut(Enqueue(o, key, notice), m, targets) == Enqueue(FanOut(o, m, targets), key, notice)
  {
    if targets != [] {
      var (init, last) := (targets[..|targets| - 1], targets[|targets| - 1]);
      ReachesPrefix(m, targets, |targets| - 1, key);
      assert Reaches(m, targets, KeyFor(m, last));
      FanOutCommutes(o, m, init, key, notice);
      assert key != KeyFor(m, last);
      EnqueuesCommute(FanOut(o, m, init), key, notice, KeyFor(m, last), Notice(last.user, m.text));
    }
  }

  lemma EnqueuesCommute(o: Outbox, key: Key, notice: Notice, other: Key, note: Notice)
    requires key != other
    ensures Enqueue(Enqueue(o, key, notice), other, note) == Enqueue(Enqueue(o, other, note), key, notice)
  {
    if key !in o.notices && other !in o.notices {
      assert o.notices[key := notice][other := note] == o.notices[other := note][key := notice];
      assert o.deliveries[key := notice.user][other := note.user] == o.deliveries[other := note.user][key := notice.user];
    }
  }

  /**
   * Any number of fan-outs stopped at any point, with other messages in between, followed by a complete one,
   * leave exactly the rows of one uninterrupted fan-out.
   */
  lemma {:induction false} FanOutIsIdempotent(o: Outbox, m: Message, targets: seq<Recipient>, events: seq<Event>)
    requires Distinct(targets) && Paired(o) && OtherKeys(m, targets, events)
    ensures FanOut(After(o, m, targets, events), m, targets) == FanOut(OthersOnly(o, events), m, targets)
    decreases |events|
  {
    if events != [] {
      var rest := events[1..];
      assert OtherKeys(m, targets, rest);
      match events[0] {
        case Attempt(stop) =>
          var n := if stop <= |targets| then stop else |targets|;
          assert targets[..|targets|] == targets;
          FanOutPairs(o, m, targets[..n]);
          FanOutIsIdempotent(FanOut(o, m, targets[..n]), m, targets, rest);
          AttemptsForgotten(o, m, targets, n, rest);
        case Elsewhere(key, notice) =>
          FanOutIsIdempotent(Enqueue(o, key, notice), m, targets, rest);
      }
    }
  }

  /** An attempt before the other messages makes no difference once the fan-out is complete. */
  lemma {:induction false} AttemptsForgotten(o: Outbox, m: Message, targets: seq<Recipient>, stop: nat, events: seq<Event>)
    requires Distinct(targets) && Paired(o) && OtherKeys(m, targets, events) && stop <= |targets|
    ensures FanOut(OthersOnly(FanOut(o, m, targets[..stop]), events), m, targets) == FanOut(OthersOnly(o, events), m, targets)
    decreases |events|
  {
    if events == [] {
      StoppedThenComplete(o, m, targets, stop);
    } else {
      assert OtherKeys(m, targets, events[1..]);
      match events[0] {
        case Attempt(_) => AttemptsForgotten(o, m, targets, stop, events[1..]);
        case Elsewhere(key, notice) =>
          assert !Reaches(m, targets, key);
          ReachesPrefix(m, targets, stop, key);
          FanOutCommutes(o, m, targets[..stop], key, notice);
          AttemptsForgotten(Enqueue(o, key, notice), m, targets, stop, events[1..]);
      }
    }
  }

  /** A complete fan-out reaches every runner of the roster - but of a longer one only the newest ten thousand. */
  lemma WhoIsReached(o: Outbox, m: Message, roster: seq<Recipient>, i: nat)
    requires Distinct(roster) && i < |roster|
    ensures KeyFor(m, roster[i]) in FanOut(o, m, Targets(roster)).notices <==> i < ROSTER_LIMIT || KeyFor(m, roster[i]) in o.notices
  {
    var targets := Targets(roster);
    var k := KeyFor(m, roster[i]);
    FanOutAdds(o, m, targets, k);
    if i < ROSTER_LIMIT {
      assert targets[i] == roster[i];
      assert Reaches(m, targets, k);
    }
    if Reaches(m, targets, k) {
      var j :| 0 <= j < |targets| && k == KeyFor(m, targets[j]);
      assert targets[j] == roster[j];
    }
  }

  /**
   * Event updates share one key per registration, whatever has changed: after the first update of an event no
   * later one is announced to the runners that the first has reached.
   */
  lemma SecondUpdateIsSilent(o: Outbox, scope: Id, first: Id, second: Id, targets: seq<Recipient>)
    requires Distinct(targets) && Paired(o)
    ensures var once := FanOut(o, Message(EventUpdate, scope, first), targets);
      FanOut(once, Message(EventUpdate, scope, second), targets) == once
  {
    var (m, n) := (Message(EventUpdate, scope, first), Message(EventUpdate, scope, second));
    var once := FanOut(o, m, targets);
    var twice := FanOut(once, n, targets);
    forall k ensures k in twice.notices <==> k in once.notices
      ensures k in once.notices ==> twice.notices[k] == once.notices[k]
    {
      FanOutAdds(o, m, targets, k);
      FanOutAdds(once, n, targets, k);
      if Reaches(n, targets, k) {
        var i :| 0 <= i < |targets| && k == KeyFor(n, targets[i]);
        assert k == KeyFor(m, targets[i]);
      }
    }
    assert twice.notices == once.notices;
    FanOutPairs(o, m, targets);
    FanOutPairs(once, n, targets);
    PairedEqual(twice, once);
  }
}
