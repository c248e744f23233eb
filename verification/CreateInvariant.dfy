/**
 * What the open Create transactions keep, whatever they are interleaved with: category and counter
 * locks are exclusive, a counted place stays free until it is used, a runner has at most one active
 * entry per event, and the numbers of a year are exactly 1..last_value.
 */
module CreateInvariant {
  import opened Wrappers
  import opened SetSizes
  import opened Tables
  import opened Protocol

  /** The locks of transaction t, seen as tx, exclude those of the others. */
  ghost predicate LocksFit(s: Sys, t: Id, tx: CreateTx) {
    && (tx.stage.Reached(CategoryLocked) ==>
          tx.params.category in s.db.categories
          && forall u :: u in s.creates && u != t && s.creates[u].stage.Reached(CategoryLocked) ==>
               s.creates[u].params.category != tx.params.category)
    && (tx.stage.Reached(Numbered) ==>
          tx.number.value == s.db.LastValue(tx.number.year) + 1
          && forall u :: u in s.creates && u != t && s.creates[u].stage.Reached(Numbered) ==>
               s.creates[u].number.year != tx.number.year)
  }

  ghost predicate HasRoom(db: Db, category: Id) {
    category in db.categories && |db.ActiveIn(category)| < db.categories[category].capacity
  }

  /** A transaction that has counted still finds a place when it commits. */
  ghost predicate RoomFits(s: Sys, tx: CreateTx) {
    tx.stage.Reached(Counted) ==> HasRoom(s.db, tx.params.category)
  }

  /** The uncommitted row clashes with no row, committed or not. */
  ghost predicate EntryFits(s: Sys, t: Id, tx: CreateTx) {
    tx.stage.Reached(Inserted) ==>
      && tx.id !in s.db.registrations && !s.db.Taken(tx.params.user, tx.params.event)
      && forall u :: u in s.creates && u != t && s.creates[u].stage.Reached(Inserted) ==>
           s.creates[u].id != tx.id && !(s.creates[u].params.user == tx.params.user && s.creates[u].params.event == tx.params.event)
  }

  /** An outcome is written last, under a fresh key, for the transaction's own runner and row. */
  ghost predicate RecordFits(s: Sys, t: Id, tx: CreateTx) {
    && tx.params.WellFormed()
    && (tx.outcome.Some? ==>
          && tx.stage.Recorded? && tx.params.hook.Some?
          && tx.outcome.value.0 == tx.params.hook.value.0 && tx.outcome.value.1.registration == tx.id
          && tx.outcome.value.0 !in s.db.outcomes
          && forall u :: u in s.creates && u != t && s.creates[u].outcome.Some? ==>
               s.creates[u].outcome.value.0 != tx.outcome.value.0)
  }

  ghost predicate Fits(s: Sys, t: Id, tx: CreateTx) {
    LocksFit(s, t, tx) && RoomFits(s, tx) && EntryFits(s, t, tx) && RecordFits(s, t, tx)
  }

  ghost predicate TransactionsFit(s: Sys) {
    forall t :: t in s.creates ==> Fits(s, t, s.creates[t])
  }

  ghost predicate OneActiveEntry(db: Db) {
    forall q, r | q in db.registrations && r in db.registrations && q != r ::
      db.registrations[q].status.Active() && db.registrations[r].status.Active() ==>
        !db.registrations[q].SameRunner(db.registrations[r].user, db.registrations[r].event)
  }

  ghost predicate HasNumber(db: Db, year: nat, value: nat) {
    exists r :: r in db.registrations && db.registrations[r].number == Number(year, value)
  }

  ghost predicate NumbersDistinct(db: Db) {
    forall q, r :: q in db.registrations && r in db.registrations && q != r ==>
      db.registrations[q].number != db.registrations[r].number
  }

  /** The numbers given out in a year are 1..last_value, once each. */
  ghost predicate NumbersExact(db: Db) {
    NumbersDistinct(db) && forall year: nat, value: nat :: HasNumber(db, year, value) <==> 1 <= value <= db.LastValue(year)
  }

  ghost predicate CreateInv(s: Sys) {
    TransactionsFit(s) && OneActiveEntry(s.db) && NumbersExact(s.db)
  }

  // ---- Steps that touch no Create transaction ----

  /** No entry is added, renamed or activated. */
  ghost predicate EntriesSettle(db: Db, db': Db) {
    && (forall r :: r in db'.registrations <==> r in db.registrations)
    && forall r :: r in db.registrations ==>
         && db'.registrations[r].SameEntry(db.registrations[r])
         && (db'.registrations[r].status.Active() ==> db.registrations[r].status.Active())
  }

  ghost predicate Quiet(s: Sys, s': Sys) {
    && s'.creates == s.creates && s'.db.categories == s.db.categories && s'.db.counters == s.db.counters
    && EntriesSettle(s.db, s'.db)
    && forall k :: k in s'.db.outcomes ==> k in s.db.outcomes || s.KeyFree(k)
  }

  lemma ActiveShrinks(db: Db, db': Db, category: Id)
    requires EntriesSettle(db, db')
    ensures |db'.ActiveIn(category)| <= |db.ActiveIn(category)|
  {
    assert db'.ActiveIn(category) <= db.ActiveIn(category);
    SubsetSize(db'.ActiveIn(category), db.ActiveIn(category));
  }

  lemma TakenShrinks(db: Db, db': Db, user: Id, event: Id)
    requires EntriesSettle(db, db') && db'.Taken(user, event)
    ensures db.Taken(user, event)
  {
    var r :| r in db'.registrations && db'.registrations[r].SameRunner(user, event) && db'.registrations[r].status.Active();
    assert db.registrations[r].SameRunner(user, event);
  }

  lemma SettleKeepsNumbers(db: Db, db': Db)
    requires EntriesSettle(db, db') && db'.counters == db.counters && NumbersExact(db)
    ensures NumbersExact(db')
  {
    forall year: nat, value: nat ensures HasNumber(db', year, value) <==> HasNumber(db, year, value) {
      forall r | r in db.registrations ensures db'.registrations[r].number == db.registrations[r].number {}
    }
  }

  lemma QuietKeepsFit(s: Sys, s': Sys, t: Id)
    requires Quiet(s, s') && t in s.creates && Fits(s, t, s.creates[t])
    ensures Fits(s', t, s'.creates[t])
  {
    var tx := s.creates[t];
    ActiveShrinks(s.db, s'.db, tx.params.category);
    if s'.db.Taken(tx.params.user, tx.params.event) {
      TakenShrinks(s.db, s'.db, tx.params.user, tx.params.event);
    }
  }

  lemma QuietKeepsInv(s: Sys, s': Sys)
    requires Quiet(s, s') && CreateInv(s)
    ensures CreateInv(s')
  {
    SettleKeepsNumbers(s.db, s'.db);
    forall t | t in s'.creates ensures Fits(s', t, s'.creates[t]) {
      QuietKeepsFit(s, s', t);
    }
  }

  // ---- Steps of one transaction that commit nothing ----

  ghost predicate OthersKept(s: Sys, s': Sys, t: Id) {
    && s'.db == s.db
    && forall u :: u != t ==> (u in s'.creates <==> u in s.creates) && (u in s.creates ==> s'.creates[u] == s.creates[u])
  }

  lemma AdvanceKeepsInv(s: Sys, s': Sys, t: Id)
    requires CreateInv(s) && OthersKept(s, s', t)
    requires t in s'.creates ==> Fits(s, t, s'.creates[t])
    ensures CreateInv(s')
  {
    forall u | u in s'.creates ensures Fits(s', u, s'.creates[u]) {
      if u != t {
        assert Fits(s, u, s.creates[u]);
      }
    }
  }

  lemma BeginKeepsInv(s: Sys, t: Id, step: CreateStep)
    requires CreateInv(s) && CreateEnabled(s, t, step)
    requires step.Begin?
    ensures CreateInv(AfterCreate(s, t, step))
  {
    assert t !in s.creates;
    AdvanceKeepsInv(s, AfterCreate(s, t, step), t);
  }

  lemma LockStepKeepsInv(s: Sys, t: Id, step: CreateStep)
    requires CreateInv(s) && CreateEnabled(s, t, step)
    requires step.LockCategory? || step.CountActive?
    ensures CreateInv(AfterCreate(s, t, step))
  {
    assert Fits(s, t, s.creates[t]);
    AdvanceKeepsInv(s, AfterCreate(s, t, step), t);
  }

  lemma NumberStepKeepsInv(s: Sys, t: Id, step: CreateStep)
    requires CreateInv(s) && CreateEnabled(s, t, step)
    requires step.AllocateNumber? || step.IssueTicket? || step.Rollback?
    ensures CreateInv(AfterCreate(s, t, step))
  {
    assert Fits(s, t, s.creates[t]);
    AdvanceKeepsInv(s, AfterCreate(s, t, step), t);
  }

  lemma InsertStepKeepsInv(s: Sys, t: Id, step: CreateStep)
    requires CreateInv(s) && CreateEnabled(s, t, step)
    requires step.InsertRow?
    ensures CreateInv(AfterCreate(s, t, step))
  {
    assert Fits(s, t, s.creates[t]);
    AdvanceKeepsInv(s, AfterCreate(s, t, step), t);
  }

  lemma RecordStepKeepsInv(s: Sys, t: Id, step: CreateStep)
    requires CreateInv(s) && CreateEnabled(s, t, step)
    requires step.RecordOutcome?
    ensures CreateInv(AfterCreate(s, t, step))
  {
    assert Fits(s, t, s.creates[t]);
    AdvanceKeepsInv(s, AfterCreate(s, t, step), t);
  }

  // ---- Commit ----

  lemma CommitKeepsRoom(s: Sys, t: Id, category: Id)
    requires At(s, t, Recorded) && s.creates[t].params.category != category && s.creates[t].id !in s.db.registrations
    ensures CommittedDb(s.db, s.creates[t]).ActiveIn(category) == s.db.ActiveIn(category)
  {
  }

  lemma CommitTakes(db: Db, tx: CreateTx, user: Id, event: Id)
    requires tx.id !in db.registrations && CommittedDb(db, tx).Taken(user, event)
    ensures db.Taken(user, event) || (tx.params.user == user && tx.params.event == event)
  {
    var db' := CommittedDb(db, tx);
    var r :| r in db'.registrations && db'.registrations[r].SameRunner(user, event) && db'.registrations[r].status.Active();
    assert r == tx.id || db.registrations[r].SameRunner(user, event);
  }

  lemma CommitKeepsFit(s: Sys, t: Id, u: Id)
    requires CreateInv(s) && At(s, t, Recorded) && u in s.creates && u != t
    ensures Fits(AfterCommit(s, t), u, s.creates[u])
  {
    var tx, ux, s' := s.creates[t], s.creates[u], AfterCommit(s, t);
    assert Fits(s, t, tx) && Fits(s, u, ux);
    if ux.stage.Reached(Counted) {
      CommitKeepsRoom(s, t, ux.params.category);
    }
    if s'.db.Taken(ux.params.user, ux.params.event) {
      CommitTakes(s.db, tx, ux.params.user, ux.params.event);
    }
  }

  lemma CommitKeepsNumbers(s: Sys, t: Id)
    requires CreateInv(s) && At(s, t, Recorded)
    ensures NumbersExact(CommittedDb(s.db, s.creates[t]))
  {
    var tx := s.creates[t];
    var db' := CommittedDb(s.db, tx);
    assert Fits(s, t, tx);
    assert !HasNumber(s.db, tx.number.year, tx.number.value);
    forall year: nat, value: nat
      ensures HasNumber(db', year, value) <==> HasNumber(s.db, year, value) || Number(year, value) == tx.number
    {
      assert db'.registrations[tx.id].number == tx.number;
      if HasNumber(s.db, year, value) {
        var r :| r in s.db.registrations && s.db.registrations[r].number == Number(year, value);
        assert db'.registrations[r].number == Number(year, value);
      }
    }
    forall r | r in s.db.registrations ensures s.db.registrations[r].number != tx.number {
      assert s.db.registrations[r].number == tx.number ==> HasNumber(s.db, tx.number.year, tx.number.value);
    }
  }

  lemma CommitKeepsOneActive(s: Sys, t: Id)
    requires CreateInv(s) && At(s, t, Recorded)
    ensures OneActiveEntry(CommittedDb(s.db, s.creates[t]))
  {
    var tx := s.creates[t];
    assert Fits(s, t, tx);
  }

  lemma CommitKeepsInv(s: Sys, t: Id)
    requires CreateInv(s) && At(s, t, Recorded)
    ensures CreateInv(AfterCommit(s, t))
  {
    CommitKeepsNumbers(s, t);
    CommitKeepsOneActive(s, t);
    forall u | u in AfterCommit(s, t).creates ensures Fits(AfterCommit(s, t), u, s.creates[u]) {
      CommitKeepsFit(s, t, u);
    }
  }

  // ---- Capacity changes ----

  /** FOR UPDATE on the category row makes a capacity change wait for the transactions that counted under it. */
  lemma SetCapacityKeepsFit(s: Sys, category: Id, capacity: int, t: Id)
    requires OtherEnabled(s, SetCapacity(category, capacity)) && t in s.creates && Fits(s, t, s.creates[t])
    ensures Fits(AfterOther(s, SetCapacity(category, capacity)), t, s.creates[t])
  {
    var tx, db' := s.creates[t], AfterOther(s, SetCapacity(category, capacity)).db;
    assert db'.ActiveIn(tx.params.category) == s.db.ActiveIn(tx.params.category);
    if db'.Taken(tx.params.user, tx.params.event) {
      TakenShrinks(s.db, db', tx.params.user, tx.params.event);
    }
  }

  lemma SetCapacityKeepsInv(s: Sys, category: Id, capacity: int)
    requires CreateInv(s) && OtherEnabled(s, SetCapacity(category, capacity))
    ensures CreateInv(AfterOther(s, SetCapacity(category, capacity)))
  {
    var s' := AfterOther(s, SetCapacity(category, capacity));
    SettleKeepsNumbers(s.db, s'.db);
    forall t | t in s'.creates ensures Fits(s', t, s'.creates[t]) {
      SetCapacityKeepsFit(s, category, capacity, t);
    }
  }
}
