/**
 * Confirmation notices. The caller that has confirmed an entry sends the notice after its transaction has committed,
 * in a step of its own, and may crash before that: nothing records that a notice is owed.
 */
module Notices {
  import opened Wrappers
  import opened Tables
  import opened Protocol
  import opened ProtocolInvariant
  import opened StepInvariant
  import opened Evolution
  import opened Guarantees

  /** The system with the notices that callers still owe, have sent, and will never send. */
  datatype State = State(sys: Sys, owed: multiset<Id>, sent: multiset<Id>, lost: multiset<Id>)

  datatype Step =
    | Act(action: Action)
    | Send(r: Id)
    | CallerCrash(r: Id)

  predicate StepEnabled(s: State, step: Step) {
    match step
    case Act(a) => Enabled(s.sys, a)
    case Send(r) => r in s.owed
    case CallerCrash(r) => r in s.owed
  }

  function Owes(s: Sys, a: Action): multiset<Id>
    requires Enabled(s, a)
  {
    match Notice(s, a)
    case Some(r) => multiset{r}
    case None => multiset{}
  }

  function After(s: State, step: Step): State
    requires StepEnabled(s, step)
  {
    match step
    case Act(a) => s.(sys := Next(s.sys, a), owed := s.owed + Owes(s.sys, a))
    case Send(r) => s.(owed := s.owed - multiset{r}, sent := s.sent + multiset{r})
    case CallerCrash(r) => s.(owed := s.owed - multiset{r}, lost := s.lost + multiset{r})
  }

  predicate Start(s: State) {
    Initial(s.sys) && s.owed == multiset{} && s.sent == multiset{} && s.lost == multiset{}
  }

  /** states[k + 1] follows states[k] by steps[k]. */
  ghost predicate IsRun(states: seq<State>, steps: seq<Step>) {
    && |states| == |steps| + 1 && Start(states[0])
    && forall k :: 0 <= k < |steps| ==> StepEnabled(states[k], steps[k]) && states[k + 1] == After(states[k], steps[k])
  }

  /** Every notice that fell due is owed, sent or lost; it falls due once, with the ticket. */
  ghost predicate Balanced(s: State) {
    Inv(s.sys) && forall r :: s.owed[r] + s.sent[r] + s.lost[r] == if r in s.sys.db.tickets then 1 else 0
  }

  lemma OwesWithTicket(s: Sys, a: Action, r: Id)
    requires Inv(s) && Enabled(s, a)
    ensures Owes(s, a)[r] == if r !in s.db.tickets && r in Next(s, a).db.tickets then 1 else 0
    ensures r in s.db.tickets ==> r in Next(s, a).db.tickets
  {
    NoticeWithTicket(s, a, r);
    StepEvolves(s, a);
    assert TicketEvolves(s.db, Next(s, a).db, r);
  }

  lemma ActKeepsBalance(s: State, a: Action)
    requires Balanced(s) && Enabled(s.sys, a)
    ensures Balanced(After(s, Act(a)))
  {
    StepKeepsInv(s.sys, a);
    forall r ensures Owes(s.sys, a)[r] == if r !in s.sys.db.tickets && r in Next(s.sys, a).db.tickets then 1 else 0
      ensures r in s.sys.db.tickets ==> r in Next(s.sys, a).db.tickets
    {
      OwesWithTicket(s.sys, a, r);
    }
  }

  lemma StepKeepsBalance(s: State, step: Step)
    requires Balanced(s) && StepEnabled(s, step)
    ensures Balanced(After(s, step))
  {
    if step.Act? {
      ActKeepsBalance(s, step.action);
    }
  }

  lemma {:induction false} RunBalanced(states: seq<State>, steps: seq<Step>, k: nat)
    requires IsRun(states, steps) && k < |states|
    ensures Balanced(states[k])
  {
    if k == 0 {
      InitialInv(states[0].sys);
    } else {
      RunBalanced(states, steps, k - 1);
      StepKeepsBalance(states[k - 1], steps[k - 1]);
    }
  }

  // ---- Once confirmed ----

  function Systems(states: seq<State>): (systems: seq<Sys>)
    ensures |systems| == |states| && forall k :: 0 <= k < |states| ==> systems[k] == states[k].sys
  {
    seq(|states|, k requires 0 <= k < |states| => states[k].sys)
  }

  lemma SystemsHistory(states: seq<State>, steps: seq<Step>)
    requires IsRun(states, steps)
    ensures History(Systems(states))
  {
    forall k | 0 <= k < |states| - 1 ensures Evolves(states[k].sys.db, states[k + 1].sys.db) {
      RunBalanced(states, steps, k);
      if steps[k].Act? {
        StepEvolves(states[k].sys, steps[k].action);
      } else {
        SameRowsEvolve(states[k].sys.db, states[k].sys.db);
      }
    }
  }

  lemma TicketedOnceConfirmed(states: seq<State>, steps: seq<Step>, k: nat, r: Id)
    requires IsRun(states, steps) && k < |states|
    ensures r in states[k].sys.db.tickets <==> OnceConfirmed(Systems(states), k, r)
  {
    SystemsHistory(states, steps);
    var systems := Systems(states);
    if r in states[k].sys.db.tickets {
      TicketNeedsConfirmation(systems, k, r);
    }
    if OnceConfirmed(systems, k, r) {
      var i :| 0 <= i <= k && systems[i].db.StatusIs(r, Confirmed);
      RunBalanced(states, steps, i);
      HistoryLater(systems, i, k);
    }
  }

  // ---- Lost notices ----

  ghost predicate CrashedBy(steps: seq<Step>, k: nat, r: Id)
    requires k <= |steps|
  {
    exists i :: 0 <= i < k && steps[i] == CallerCrash(r)
  }

  lemma {:induction false} LostIffCrashed(states: seq<State>, steps: seq<Step>, k: nat, r: Id)
    requires IsRun(states, steps) && k < |states|
    ensures r in states[k].lost <==> CrashedBy(steps, k, r)
  {
    if k > 0 {
      LostIffCrashed(states, steps, k - 1, r);
      assert CrashedBy(steps, k, r) <==> CrashedBy(steps, k - 1, r) || steps[k - 1] == CallerCrash(r);
    }
  }

  /**
   * However confirmations race, an entry is announced at most once; and exactly once iff it was ever CONFIRMED, its
   * notice is no longer owed, and no crash hit the caller that owed it.
   */
  lemma NoticedOnceUnlessCrashed(states: seq<State>, steps: seq<Step>, k: nat, r: Id)
    requires IsRun(states, steps) && k < |states|
    ensures states[k].sent[r] <= 1
    ensures states[k].sent[r] == 1 <==>
      OnceConfirmed(Systems(states), k, r) && r !in states[k].owed && !CrashedBy(steps, k, r)
  {
    RunBalanced(states, steps, k);
    TicketedOnceConfirmed(states, steps, k, r);
    LostIffCrashed(states, steps, k, r);
  }

  /** A lost notice is never made up for: later settlements and repeated approvals owe none. */
  lemma LostForGood(states: seq<State>, steps: seq<Step>, i: nat, k: nat, r: Id)
    requires IsRun(states, steps) && i < k < |states| && steps[i] == CallerCrash(r)
    ensures r !in states[k].sent && r !in states[k].owed && OnceConfirmed(Systems(states), k, r)
  {
    RunBalanced(states, steps, k);
    LostIffCrashed(states, steps, k, r);
    TicketedOnceConfirmed(states, steps, k, r);
  }
}
