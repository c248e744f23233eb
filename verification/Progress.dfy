/** The locks of Create transactions cannot deadlock: one of the open ones can always take its next statement. */
module Progress {
  import opened Wrappers
  import opened Protocol
  import opened CreateInvariant
  import opened ProtocolInvariant

  /** The open transactions at a stage or beyond. */
  ghost predicate NoneBeyond(s: Sys, stage: Stage) {
    forall t :: t in s.creates ==> s.creates[t].stage.Rank() <= stage.Rank()
  }

  lemma {:induction false} FurthestExists(creates: map<Id, CreateTx>) returns (t: Id)
    requires creates.Keys != {}
    ensures t in creates && forall u :: u in creates ==> creates[u].stage.Rank() <= creates[t].stage.Rank()
    decreases |creates.Keys|
  {
    t :| t in creates.Keys;
    var rest := creates - {t};
    if rest.Keys != {} {
      assert rest.Keys == creates.Keys - {t};
      var u := FurthestExists(rest);
      forall v | v in creates ensures v == t || v in rest.Keys {}
      t := if creates[t].stage.Rank() < creates[u].stage.Rank() then u else t;
    } else {
      forall u | u in creates ensures u == t {
        assert u != t ==> u in rest.Keys;
      }
    }
  }

  lemma {:induction false} FreshId(used: set<Id>) returns (id: Id)
    ensures id !in used && forall u :: u in used ==> u < id
    decreases |used|
  {
    if used == {} {
      id := 0;
    } else {
      var u :| u in used;
      var rest := FreshId(used - {u});
      id := if u < rest then rest else u + 1;
      forall v | v in used ensures v < id {
        assert v == u || v in used - {u};
      }
    }
  }

  /** The statement that comes next for a transaction. */
  function NextStep(tx: CreateTx, year: nat, id: Id): CreateStep {
    match tx.stage
    case Begun => LockCategory
    case CategoryLocked => CountActive
    case Counted => AllocateNumber(year)
    case Numbered => InsertRow(id)
    case Inserted => IssueTicket
    case Ticketed => RecordOutcome
    case Recorded => Commit
  }

  /** The statement moves its transaction on, or commits it. */
  ghost predicate Advances(s: Sys, t: Id, step: CreateStep)
    requires CreateEnabled(s, t, step)
  {
    if step.Commit? then t !in AfterCreate(s, t, step).creates && AfterCreate(s, t, step).db == CommittedDb(s.db, s.creates[t])
    else t in s.creates && At(AfterCreate(s, t, step), t, s.creates[t].stage.Successor())
  }

  /** The statement reports an unknown category, a full one, or a runner who has an active entry already. */
  ghost predicate Refuses(s: Sys, t: Id, step: CreateStep)
    requires CreateEnabled(s, t, step)
  {
    match step
    case LockCategory => s.creates[t].params.category !in s.db.categories
    case CountActive => !HasRoom(s.db, s.creates[t].params.category)
    case InsertRow(_) => s.db.Taken(s.creates[t].params.user, s.creates[t].params.event)
    case _ => false
  }

  /** No open sweep has updated a row of a runner with an open transaction. */
  ghost predicate SweepsApart(s: Sys) {
    forall t, r | t in s.creates && r in s.db.registrations ::
      s.db.registrations[r].SameRunner(s.creates[t].params.user, s.creates[t].params.event) ==> s.RowFree(r)
  }

  lemma FurthestProceeds(s: Sys, t: Id, year: nat, id: Id)
    requires Inv(s) && SweepsApart(s) && t in s.creates && NoneBeyond(s, s.creates[t].stage)
    requires s.IdFree(id)
    ensures CreateEnabled(s, t, NextStep(s.creates[t], year, id))
  {
    forall u | u in s.creates ensures RecordFits(s, u, s.creates[u]) {
      assert Fits(s, u, s.creates[u]);
    }
  }

  lemma AdvancesUnlessRefused(s: Sys, t: Id, year: nat, id: Id)
    requires t in s.creates && CreateEnabled(s, t, NextStep(s.creates[t], year, id))
    ensures Advances(s, t, NextStep(s.creates[t], year, id)) <==> !Refuses(s, t, NextStep(s.creates[t], year, id))
  {
  }

  lemma FreshRow(s: Sys) returns (id: Id)
    ensures s.IdFree(id)
  {
    var pending := set u | u in s.creates :: s.creates[u].id;
    id := FreshId(s.db.registrations.Keys + pending);
    forall u | u in s.creates ensures s.creates[u].id != id {
      assert s.creates[u].id in pending;
    }
  }

  /**
   * However many Create transactions are open, and in whatever year the next number is drawn, one of them is not
   * waiting for a lock: its next statement advances it, unless the category is unknown or full or the runner is
   * entered already.
   */
  lemma NoDeadlock(s: Sys, year: nat) returns (t: Id, step: CreateStep)
    requires Inv(s) && SweepsApart(s) && s.creates != map[]
    ensures t in s.creates && CreateEnabled(s, t, step) && !step.Begin? && !step.Rollback?
    ensures Advances(s, t, step) <==> !Refuses(s, t, step)
  {
    t := FurthestExists(s.creates);
    var id := FreshRow(s);
    step := NextStep(s.creates[t], year, id);
    FurthestProceeds(s, t, year, id);
    AdvancesUnlessRefused(s, t, year, id);
  }
}
