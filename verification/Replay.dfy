/** Stored responses: written with the row they describe, never overwritten, replayed until cleaned up. */
module Replay {
  import opened Wrappers
  import opened Tables
  import opened Statements
  import opened Protocol
  import opened CreateInvariant
  import opened ProtocolInvariant
  import opened StepInvariant
  import opened Evolution

  ghost predicate KeepsOutcome(db: Db, db': Db, key: Key) {
    key in db.outcomes ==> key in db'.outcomes && db'.outcomes[key] == db.outcomes[key]
  }

  predicate Cleans(s: Sys, a: Action, key: Key) {
    a.Other? && a.other.CleanOutcomes? && key in s.db.outcomes && s.db.outcomes[key].expiresAt <= a.other.now
  }

  lemma EntryKeepsOutcomes(s: Sys, r: Id, step: EntryStep)
    ensures AfterEntry(s, r, step).outcomes == s.db.outcomes
  {
    match step {
      case CancelEntry(_) => if r in s.db.registrations {}
      case SubmitReference(reference) => if SubmitManualError(s.db, r, reference, s.clock).Some? {}
      case RejectManual => if FailManualError(s.db, r).Some? {}
      case ApproveManual(payment, token) => if ApproveManualError(s.db, r, payment).Some? {}
      case SettleStored(payment, token) =>
        if r in s.db.registrations {
          if s.db.registrations[r].status.Pending? {}
        }
      case ExpireClaimed(payment, worker) =>
        if Claimed(s.db, r, payment, worker) {
          if s.db.registrations[r].status.Pending? {}
        }
    }
  }

  lemma WorkKeepsOutcomes(s: Sys, step: WorkStep)
    requires WorkEnabled(s, step)
    ensures AfterWork(s, step).db.outcomes == s.db.outcomes
  {
  }

  lemma PaidKeepsOutcomes(s: Sys, r: Id, step: PaidStep)
    requires PaidEnabled(s, r, step)
    ensures AfterPaid(s, r, step).db.outcomes == s.db.outcomes
  {
    PaidDb(s, r, step);
    PaidWritesKeeps(s.db, r, step);
  }

  lemma CreateKeepsOutcome(s: Sys, t: Id, step: CreateStep, key: Key)
    requires CreateInv(s) && CreateEnabled(s, t, step)
    ensures KeepsOutcome(s.db, AfterCreate(s, t, step).db, key)
  {
    if step.Commit? {
      assert Fits(s, t, s.creates[t]);
    } else {
      CreateStepAddsNone(s, t, step);
    }
  }

  lemma OtherKeepsOutcome(s: Sys, step: OtherStep, key: Key)
    requires OtherEnabled(s, step)
    ensures key in s.db.outcomes ==>
      (KeepsOutcome(s.db, AfterOther(s, step).db, key) <==> !Cleans(s, Other(step), key))
  {
  }

  /** First write wins: a stored response changes only by the cleanup of one that has expired. */
  lemma OutcomeStays(s: Sys, a: Action, key: Key)
    requires Inv(s) && Enabled(s, a) && key in s.db.outcomes
    ensures KeepsOutcome(s.db, Next(s, a).db, key) <==> !Cleans(s, a, key)
  {
    match a {
      case Create(t, step) => CreateKeepsOutcome(s, t, step, key);
      case Paid(r, step) => PaidKeepsOutcomes(s, r, step);
      case Entry(r, step) => EntryKeepsOutcomes(s, r, step);
      case Work(step) => WorkKeepsOutcomes(s, step);
      case Other(step) => OtherKeepsOutcome(s, step, key);
    }
  }

  /** Until its cleanup every request with the same hash gets the same response, any other a conflict. */
  lemma {:induction false} ReplaysUntilCleaned(run: Run, i: nat, j: nat, key: Key, hash: Id)
    requires run.Valid() && i <= j < |run.states| && Inv(run.states[0]) && key in run.states[i].db.outcomes
    requires forall k :: i <= k < j ==> !Cleans(run.states[k], run.actions[k], key)
    ensures key in run.states[j].db.outcomes
    ensures Lookup(run.states[j].db, key, hash) ==
      if hash == run.states[i].db.outcomes[key].requestHash then Replay(run.states[i].db.outcomes[key]) else Conflict
    decreases j
  {
    if i < j {
      ReplaysUntilCleaned(run, i, j - 1, key, hash);
      RunKeepsInv(run, j - 1);
      OutcomeStays(run.states[j - 1], run.actions[j - 1], key);
    }
  }

  lemma CommitStoresOwnOutcome(s: Sys, t: Id, key: Key)
    requires CreateInv(s) && At(s, t, Recorded) && key !in s.db.outcomes && key in AfterCommit(s, t).db.outcomes
    ensures var (db, r) := (AfterCommit(s, t).db, AfterCommit(s, t).db.outcomes[key].registration);
      && r !in s.db.registrations && db.StatusIs(r, Confirmed) && r in db.tickets && db.registrations[r].user == key.user
  {
    assert Fits(s, t, s.creates[t]);
  }

  lemma OtherStoresNoFree(s: Sys, step: OtherStep, key: Key)
    requires OtherEnabled(s, step) && key !in s.db.outcomes
    ensures key in AfterOther(s, step).db.outcomes ==> !AfterOther(s, step).db.outcomes[key].free
  {
  }

  lemma OnlyCommitStoresFree(s: Sys, a: Action, key: Key)
    requires Enabled(s, a) && key !in s.db.outcomes && !IsCommit(a)
    ensures key in Next(s, a).db.outcomes ==> !Next(s, a).db.outcomes[key].free
  {
    match a {
      case Create(t, step) => CreateStepAddsNone(s, t, step);
      case Paid(r, step) => PaidKeepsOutcomes(s, r, step);
      case Entry(r, step) => EntryKeepsOutcomes(s, r, step);
      case Work(step) => WorkKeepsOutcomes(s, step);
      case Other(step) => OtherStoresNoFree(s, step, key);
    }
  }

  /**
   * A free-path response appears in the same step as the row it names: a new, confirmed and ticketed
   * registration of the key's own user.
   */
  lemma FreeOutcomeIsAtomic(s: Sys, a: Action, key: Key)
    requires Inv(s) && Enabled(s, a)
    requires key !in s.db.outcomes && key in Next(s, a).db.outcomes && Next(s, a).db.outcomes[key].free
    ensures IsCommit(a)
    ensures var (db, r) := (Next(s, a).db, Next(s, a).db.outcomes[key].registration);
      && r !in s.db.registrations && db.StatusIs(r, Confirmed) && r in db.tickets && db.registrations[r].user == key.user
  {
    if !IsCommit(a) {
      OnlyCommitStoresFree(s, a, key);
    }
    CommitStoresOwnOutcome(s, a.t, key);
  }

  /** Every stored response names a registration that exists and belongs to the key's user. */
  lemma OutcomesNameEntries(run: Run, k: nat, key: Key)
    requires run.Valid() && k < |run.states| && Inv(run.states[0]) && key in run.states[k].db.outcomes
    ensures var r := run.states[k].db.outcomes[key].registration;
      && r in run.states[k].db.registrations && run.states[k].db.registrations[r].user == key.user
      && (run.states[k].db.outcomes[key].free ==> r in run.states[k].db.tickets)
  {
    RunKeepsInv(run, k);
  }
}
