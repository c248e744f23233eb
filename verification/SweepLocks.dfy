/**
 * The row locks of expiry sweeps. A sweep takes them one by one, in whatever order its two UPDATEs visit the rows, and
 * keeps them until it ends; no statement orders the rows, so sweeps can block each other.
 */
module SweepLocks {
  import opened Wrappers

  /** The rows a sweep locks, in order. It holds the first ones, and takes or waits for the next. */
  datatype Sweeper = Sweeper(order: seq<Id>, taken: nat)
  {
    ghost predicate Holds(row: Id) {
      exists m :: 0 <= m < taken && m < |order| && order[m] == row
    }
  }

  type Sweepers = map<Id, Sweeper>

  ghost predicate CanLock(s: Sweepers, e: Id) {
    e in s && s[e].taken < |s[e].order| && forall f :: f in s && f != e ==> !s[f].Holds(s[e].order[s[e].taken])
  }

  predicate CanFinish(s: Sweepers, e: Id) {
    e in s && s[e].taken >= |s[e].order|
  }

  function Lock(s: Sweepers, e: Id): Sweepers
    requires e in s
  {
    s[e := s[e].(taken := s[e].taken + 1)]
  }

  /** Each of them waits for another. */
  ghost predicate Blocked(s: Sweepers) {
    s != map[] && forall e :: e in s ==> !CanLock(s, e) && !CanFinish(s, e)
  }

  /** The sweeps of turns take their next locks one after the other, from s to s'. */
  ghost predicate Leads(s: Sweepers, turns: seq<Id>, s': Sweepers) {
    if turns == [] then s == s'
    else CanLock(s, turns[0]) && Leads(Lock(s, turns[0]), turns[1..], s')
  }

  // ---- Two sweeps ----

  function Pair(e: Id, a: seq<Id>, i: nat, f: Id, b: seq<Id>, j: nat): Sweepers {
    map[e := Sweeper(a, i), f := Sweeper(b, j)]
  }

  /** No row is held by both. */
  ghost predicate Apart(a: seq<Id>, i: nat, b: seq<Id>, j: nat) {
    i <= |a| && j <= |b| && forall m, n :: 0 <= m < i && 0 <= n < j ==> a[m] != b[n]
  }

  lemma PairLocks(e: Id, a: seq<Id>, i: nat, f: Id, b: seq<Id>, j: nat)
    requires e != f && Apart(a, i, b, j)
    ensures CanLock(Pair(e, a, i, f, b, j), e) <==> i < |a| && Apart(a, i + 1, b, j)
    ensures CanLock(Pair(e, a, i, f, b, j), f) <==> j < |b| && Apart(a, i, b, j + 1)
  {
    var s := Pair(e, a, i, f, b, j);
    if i < |a| {
      assert s[f].Holds(a[i]) <==> exists n :: 0 <= n < j && b[n] == a[i];
    }
    if j < |b| {
      assert s[e].Holds(b[j]) <==> exists m :: 0 <= m < i && a[m] == b[j];
    }
  }

  lemma PairAdvances(e: Id, a: seq<Id>, i: nat, f: Id, b: seq<Id>, j: nat)
    requires e != f
    ensures Lock(Pair(e, a, i, f, b, j), e) == Pair(e, a, i + 1, f, b, j)
    ensures Lock(Pair(e, a, i, f, b, j), f) == Pair(e, a, i, f, b, j + 1)
  {
  }

  /** The first row of a that b locks too; |a| when there is none. */
  function FirstCommon(a: seq<Id>, b: seq<Id>): (k: nat)
    ensures k <= |a| && (forall m :: 0 <= m < k ==> a[m] !in b) && (k < |a| ==> a[k] in b)
  {
    if a == [] || a[0] in b then 0 else 1 + FirstCommon(a[1..], b)
  }

  /** Of the rows that both lock, each takes another one first. */
  predicate Cross(a: seq<Id>, b: seq<Id>) {
    FirstCommon(a, b) < |a| && FirstCommon(b, a) < |b| && a[FirstCommon(a, b)] != b[FirstCommon(b, a)]
  }

  lemma {:induction false} LeadsToPair(e: Id, a: seq<Id>, i: nat, f: Id, b: seq<Id>, j: nat, turns: seq<Id>, s: Sweepers)
    returns (i': nat, j': nat)
    requires e != f && Apart(a, i, b, j) && Leads(Pair(e, a, i, f, b, j), turns, s)
    ensures s == Pair(e, a, i', f, b, j') && Apart(a, i', b, j')
    decreases |turns|
  {
    PairLocks(e, a, i, f, b, j);
    PairAdvances(e, a, i, f, b, j);
    if turns == [] {
      i', j' := i, j;
    } else if turns[0] == e {
      i', j' := LeadsToPair(e, a, i + 1, f, b, j, turns[1..], s);
    } else {
      i', j' := LeadsToPair(e, a, i, f, b, j + 1, turns[1..], s);
    }
  }

  lemma BlockedCrosses(e: Id, a: seq<Id>, i: nat, f: Id, b: seq<Id>, j: nat)
    requires e != f && Apart(a, i, b, j) && Blocked(Pair(e, a, i, f, b, j))
    ensures Cross(a, b)
  {
    var s := Pair(e, a, i, f, b, j);
    PairLocks(e, a, i, f, b, j);
    assert e in s && f in s;
    assert !CanFinish(s, e) && !CanFinish(s, f);
    assert !Apart(a, i + 1, b, j) && !Apart(a, i, b, j + 1);
    assert a[i] in b && b[j] in a;
    var n :| 0 <= n < j && b[n] == a[i];
    var m :| 0 <= m < i && a[m] == b[j];
    assert FirstCommon(a, b) <= m && FirstCommon(b, a) <= n;
  }

  /** One of them locks alone. */
  lemma {:induction false} FirstAdvances(e: Id, a: seq<Id>, i: nat, f: Id, b: seq<Id>, j: nat, goal: nat) returns (turns: seq<Id>)
    requires e != f && i <= goal <= |a| && Apart(a, goal, b, j)
    ensures Leads(Pair(e, a, i, f, b, j), turns, Pair(e, a, goal, f, b, j))
    decreases goal - i
  {
    if i == goal {
      turns := [];
    } else {
      PairLocks(e, a, i, f, b, j);
      PairAdvances(e, a, i, f, b, j);
      var rest := FirstAdvances(e, a, i + 1, f, b, j, goal);
      turns := [e] + rest;
      assert turns[1..] == rest;
    }
  }

  lemma {:induction false} LeadsOn(s: Sweepers, turns: seq<Id>, t: Sweepers, more: seq<Id>, u: Sweepers)
    requires Leads(s, turns, t) && Leads(t, more, u)
    ensures Leads(s, turns + more, u)
    decreases |turns|
  {
    if turns == [] {
      assert turns + more == more;
    } else {
      LeadsOn(Lock(s, turns[0]), turns[1..], t, more, u);
      assert (turns + more)[1..] == turns[1..] + more;
    }
  }

  lemma PairSwaps(e: Id, a: seq<Id>, i: nat, f: Id, b: seq<Id>, j: nat)
    requires e != f
    ensures Pair(e, a, i, f, b, j) == Pair(f, b, j, e, a, i)
  {
  }

  lemma ApartSwaps(a: seq<Id>, i: nat, b: seq<Id>, j: nat)
    ensures Apart(a, i, b, j) <==> Apart(b, j, a, i)
  {
  }

  /** Where the two get stuck: a before the row that b starts with, b before a row that a holds. */
  lemma CrossMeets(a: seq<Id>, b: seq<Id>) returns (i: nat, j: nat)
    requires Cross(a, b)
    ensures i < |a| && j < |b| && Apart(a, i, b, j) && !Apart(a, i + 1, b, j) && !Apart(a, i, b, j + 1)
  {
    var y := b[FirstCommon(b, a)];
    i := FirstCommon(a, [y]);
    j := FirstCommon(b, a[..i]);
    assert a[FirstCommon(a, b)] in a[..i];
    var n :| 0 <= n < |b| && b[n] == a[FirstCommon(a, b)];
    assert j <= n;
    assert FirstCommon(b, a) < j;
    assert a[i] == b[FirstCommon(b, a)];
    var m :| 0 <= m < i && a[m] == b[j];
  }

  lemma CrossBlocks(e: Id, a: seq<Id>, f: Id, b: seq<Id>) returns (turns: seq<Id>, s: Sweepers)
    requires e != f && Cross(a, b)
    ensures Leads(Pair(e, a, 0, f, b, 0), turns, s) && Blocked(s)
  {
    var i, j := CrossMeets(a, b);
    var first := FirstAdvances(e, a, 0, f, b, 0, i);
    ApartSwaps(a, i, b, j);
    var second := FirstAdvances(f, b, 0, e, a, i, j);
    PairSwaps(e, a, i, f, b, 0);
    PairSwaps(e, a, i, f, b, j);
    s := Pair(e, a, i, f, b, j);
    LeadsOn(Pair(e, a, 0, f, b, 0), first, Pair(e, a, i, f, b, 0), second, s);
    turns := first + second;
    PairLocks(e, a, i, f, b, j);
    assert e in s;
  }

  /** Some interleaving of their locks leaves each waiting for the other. */
  ghost predicate CanBlock(e: Id, a: seq<Id>, f: Id, b: seq<Id>) {
    exists turns, s :: Leads(Pair(e, a, 0, f, b, 0), turns, s) && Blocked(s)
  }

  lemma BlockingCrosses(e: Id, a: seq<Id>, f: Id, b: seq<Id>, turns: seq<Id>, s: Sweepers)
    requires e != f && Leads(Pair(e, a, 0, f, b, 0), turns, s) && Blocked(s)
    ensures Cross(a, b)
  {
    var i, j := LeadsToPair(e, a, 0, f, b, 0, turns, s);
    BlockedCrosses(e, a, i, f, b, j);
  }

  /** Two sweeps can block each other iff, of the rows they both lock, they do not lock the same one first. */
  lemma SweepsBlockIff(e: Id, a: seq<Id>, f: Id, b: seq<Id>)
    requires e != f
    ensures CanBlock(e, a, f, b) <==> Cross(a, b)
  {
    if Cross(a, b) {
      var turns, s := CrossBlocks(e, a, f, b);
    }
    if CanBlock(e, a, f, b) {
      var turns, s :| Leads(Pair(e, a, 0, f, b, 0), turns, s) && Blocked(s);
      BlockingCrosses(e, a, f, b, turns, s);
    }
  }

  // ---- Any number of sweeps ----

  ghost predicate Increasing(order: seq<Id>) {
    forall m, n :: 0 <= m < n < |order| ==> order[m] < order[n]
  }

  /** The sweep that waits for the greatest row. */
  lemma {:induction false} Greatest(s: Sweepers) returns (e: Id)
    requires s.Keys != {} && forall f :: f in s ==> s[f].taken < |s[f].order|
    ensures e in s && forall f :: f in s ==> s[f].order[s[f].taken] <= s[e].order[s[e].taken]
    decreases |s.Keys|
  {
    e :| e in s.Keys;
    var rest := s - {e};
    if rest.Keys != {} {
      assert rest.Keys == s.Keys - {e};
      var g := Greatest(rest);
      forall f | f in s ensures f == e || f in rest.Keys {}
      e := if s[e].order[s[e].taken] < s[g].order[s[g].taken] then g else e;
    } else {
      forall f | f in s ensures f == e {
        assert f != e ==> f in rest.Keys;
      }
    }
  }

  lemma HeldBefore(sweep: Sweeper, row: Id)
    requires Increasing(sweep.order) && sweep.taken < |sweep.order| && sweep.Holds(row)
    ensures row < sweep.order[sweep.taken]
  {
  }

  /** Were the rows locked in one common order, some sweep could always go on, whatever each has taken. */
  lemma CommonOrderProceeds(s: Sweepers) returns (e: Id)
    requires s != map[] && forall e :: e in s ==> Increasing(s[e].order)
    ensures CanLock(s, e) || CanFinish(s, e)
  {
    if f :| f in s && CanFinish(s, f) {
      e := f;
    } else {
      forall f | f in s ensures s[f].taken < |s[f].order| {
        assert !CanFinish(s, f);
      }
      e := Greatest(s);
      forall f | f in s && f != e ensures !s[f].Holds(s[e].order[s[e].taken]) {
        if s[f].Holds(s[e].order[s[e].taken]) {
          HeldBefore(s[f], s[e].order[s[e].taken]);
        }
      }
    }
  }
}
