/**
 * Rotation of refresh tokens, with the repository calls of concurrent Refresh and Logout calls interleaved
 * in any order.
 */
module RefreshTokens {
  import opened Wrappers

  /** parent and login do not exist in the table: they record which token a refresh consumed to issue this one. */
  datatype Token = Token(user: Id, expiresAt: Instant, revokedAt: Option<Instant>, parent: Option<Id>, login: Id) {
    predicate Active(now: Instant) {
      revokedAt.None? && now < expiresAt
    }
  }

  type Store = map<Id, Token>

  // ---- The repository's statements ----

  function Issued(store: Store, t: Id, user: Id, expiresAt: Instant, parent: Option<Id>): Store {
    store[t := Token(user, expiresAt, None, parent, if parent.Some? && parent.value in store then store[parent.value].login else t)]
  }

  /** UPDATE ... SET revoked_at WHERE id = $2 AND revoked_at IS NULL; None when no row matches. */
  function Revoked(store: Store, t: Id, now: Instant): Option<Store> {
    if t in store && store[t].revokedAt.None? then Some(store[t := store[t].(revokedAt := Some(now))]) else None
  }

  // ---- Calls in flight ----

  /** A Refresh that has read its token as active, one that has revoked it, and a Logout that has read its token. */
  datatype Call = Presents(t: Id) | Consumed(t: Id) | LeavesWith(t: Id)

  datatype State = State(store: Store, calls: map<Id, Call>, clock: Instant)

  datatype Step =
    | Login(t: Id, user: Id, expiresAt: Instant)
    | Present(c: Id, t: Id)
    | Consume(c: Id)
    | Issue(c: Id, t: Id, expiresAt: Instant)
    | LogoutWith(c: Id, t: Id)
    | Logout(c: Id)
    | Drop(c: Id)
    | Tick(to: Instant)

  predicate Enabled(s: State, step: Step) {
    match step
    case Login(t, _, _) => t !in s.store
    case Present(c, t) => c !in s.calls && t in s.store && s.store[t].Active(s.clock)
    case Consume(c) => c in s.calls && s.calls[c].Presents?
    case Issue(c, t, _) => c in s.calls && s.calls[c].Consumed? && s.calls[c].t in s.store && t !in s.store
    case LogoutWith(c, t) => c !in s.calls && t in s.store
    case Logout(c) => c in s.calls && s.calls[c].LeavesWith?
    case Drop(c) => c in s.calls
    case Tick(to) => s.clock <= to
  }

  /** A conditional revocation that finds the token already revoked ends the call with ErrInvalidToken. */
  function Next(s: State, step: Step): State
    requires Enabled(s, step)
  {
    match step
    case Login(t, user, expiresAt) => s.(store := Issued(s.store, t, user, expiresAt, None))
    case Present(c, t) => s.(calls := s.calls[c := Presents(t)])
    case Consume(c) =>
      (match Revoked(s.store, s.calls[c].t, s.clock)
       case Some(store) => s.(store := store, calls := s.calls[c := Consumed(s.calls[c].t)])
       case None => s.(calls := s.calls - {c}))
    case Issue(c, t, expiresAt) =>
      State(Issued(s.store, t, s.store[s.calls[c].t].user, expiresAt, Some(s.calls[c].t)), s.calls - {c}, s.clock)
    case LogoutWith(c, t) => s.(calls := s.calls[c := LeavesWith(t)])
    case Logout(c) =>
      (match Revoked(s.store, s.calls[c].t, s.clock)
       case Some(store) => s.(store := store, calls := s.calls - {c})
       case None => s.(calls := s.calls - {c}))
    case Drop(c) => s.(calls := s.calls - {c})
    case Tick(to) => s.(clock := to)
  }

  // ---- What every interleaving keeps ----

  /** Logins and parents are tokens of the table. */
  ghost predicate Known(store: Store) {
    forall t, u :: t in store && u !in store ==> store[t].login != u && store[t].parent != Some(u)
  }

  /** A parent has been revoked, and has passed on its user and its login. */
  predicate PassedOn(parent: Token, child: Token) {
    parent.revokedAt.Some? && parent.login == child.login && parent.user == child.user
  }

  ghost predicate ParentsRevoked(store: Store) {
    forall t, u :: t in store && u in store && store[t].parent == Some(u) ==> PassedOn(store[u], store[t])
  }

  ghost predicate OneSuccessor(store: Store) {
    forall t, u :: t in store && u in store && t != u && store[t].parent.Some? ==> store[t].parent != store[u].parent
  }

  /** Tokens descend from a login, a consumed token has been revoked, and has at most one successor. */
  ghost predicate Descend(store: Store) {
    Known(store) && ParentsRevoked(store) && OneSuccessor(store)
  }

  /** At most one token of a login is unrevoked. */
  ghost predicate OneUnrevoked(store: Store) {
    forall t, u :: t in store && u in store && store[t].login == store[u].login && store[t].revokedAt.None? && store[u].revokedAt.None? ==>
      t == u
  }

  /** A consumed token whose successor is still to come: its whole login is revoked, and it has no successor yet. */
  ghost predicate Spent(store: Store, t: Id) {
    t in store && forall u :: u in store ==>
      (store[u].login == store[t].login ==> store[u].revokedAt.Some?) && store[u].parent != Some(t)
  }

  /** A call that has consumed a token is the only one of its login that may issue. */
  ghost predicate ConsumersOwn(s: State) {
    && (forall c :: c in s.calls ==> s.calls[c].t in s.store)
    && (forall c :: c in s.calls && s.calls[c].Consumed? ==> Spent(s.store, s.calls[c].t))
    && (forall c, d :: c in s.calls && d in s.calls && c != d && s.calls[c].Consumed? && s.calls[d].Consumed? ==>
          s.store[s.calls[c].t].login != s.store[s.calls[d].t].login)
  }

  ghost predicate Inv(s: State) {
    Descend(s.store) && OneUnrevoked(s.store) && ConsumersOwn(s)
  }

  lemma RevokedKnown(store: Store, t: Id, now: Instant)
    requires Known(store) && OneSuccessor(store) && t in store
    ensures var after := store[t := store[t].(revokedAt := Some(now))]; Known(after) && OneSuccessor(after)
  {
  }

  lemma RevokedParents(store: Store, t: Id, now: Instant)
    requires ParentsRevoked(store) && t in store
    ensures ParentsRevoked(store[t := store[t].(revokedAt := Some(now))])
  {
    var after := store[t := store[t].(revokedAt := Some(now))];
    forall u, v | u in after && v in after && after[u].parent == Some(v) ensures PassedOn(after[v], after[u]) {
      assert PassedOn(store[v], store[u]);
    }
  }

  lemma RevokedKeeps(store: Store, t: Id, now: Instant)
    requires Descend(store) && OneUnrevoked(store) && t in store
    ensures var after := store[t := store[t].(revokedAt := Some(now))]; Descend(after) && OneUnrevoked(after)
  {
    RevokedKnown(store, t, now);
    RevokedParents(store, t, now);
  }

  lemma IssuedKnown(store: Store, t: Id, user: Id, expiresAt: Instant, parent: Option<Id>)
    requires Known(store) && OneSuccessor(store) && t !in store && (parent.Some? ==> Spent(store, parent.value))
    ensures var after := Issued(store, t, user, expiresAt, parent); Known(after) && OneSuccessor(after)
  {
    var after := Issued(store, t, user, expiresAt, parent);
    assert after[t].parent == parent && (parent.Some? ==> after[t].login == store[parent.value].login);
    forall u, v | u in after && v in after && u != v && after[u].parent.Some? ensures after[u].parent != after[v].parent {
      if u != t && v != t {
        assert after[u] == store[u] && after[v] == store[v];
      }
    }
  }

  lemma IssuedParents(store: Store, t: Id, user: Id, expiresAt: Instant, parent: Option<Id>)
    requires Known(store) && ParentsRevoked(store) && t !in store
    requires parent.Some? ==> Spent(store, parent.value) && store[parent.value].user == user
    ensures ParentsRevoked(Issued(store, t, user, expiresAt, parent))
  {
    var after := Issued(store, t, user, expiresAt, parent);
    forall u, v | u in after && v in after && after[u].parent == Some(v) ensures PassedOn(after[v], after[u]) {
      if u == t {
        assert v != t && after[v] == store[v];
      } else {
        assert after[u] == store[u] && v in store && PassedOn(store[v], store[u]);
      }
    }
  }

  lemma IssuedDescends(store: Store, t: Id, user: Id, expiresAt: Instant, parent: Option<Id>)
    requires Descend(store) && t !in store
    requires parent.Some? ==> Spent(store, parent.value) && store[parent.value].user == user
    ensures Descend(Issued(store, t, user, expiresAt, parent))
  {
    IssuedKnown(store, t, user, expiresAt, parent);
    IssuedParents(store, t, user, expiresAt, parent);
  }

  lemma IssuedKeepsOne(store: Store, t: Id, user: Id, expiresAt: Instant, parent: Option<Id>)
    requires Descend(store) && OneUnrevoked(store) && t !in store
    requires parent.Some? ==> Spent(store, parent.value)
    ensures OneUnrevoked(Issued(store, t, user, expiresAt, parent))
  {
    var after := Issued(store, t, user, expiresAt, parent);
    forall u, v | u in after && v in after && after[u].login == after[v].login && after[u].revokedAt.None? && after[v].revokedAt.None?
      ensures u == v
    {
      if u != t && v != t {
        assert after[u] == store[u] && after[v] == store[v];
      }
    }
  }

  lemma IssueStep(s: State, step: Step)
    requires Inv(s) && Enabled(s, step) && step.Issue?
    ensures Inv(Next(s, step))
  {
    var t := s.calls[step.c].t;
    IssuedDescends(s.store, step.t, s.store[t].user, step.expiresAt, Some(t));
    IssuedKeepsOne(s.store, step.t, s.store[t].user, step.expiresAt, Some(t));
    IssueKeepsCalls(s, step);
  }

  lemma LoginStep(s: State, step: Step)
    requires Inv(s) && Enabled(s, step) && step.Login?
    ensures Inv(Next(s, step))
  {
    IssuedDescends(s.store, step.t, step.user, step.expiresAt, None);
    IssuedKeepsOne(s.store, step.t, step.user, step.expiresAt, None);
    forall c | c in s.calls && s.calls[c].Consumed? ensures Spent(Next(s, step).store, s.calls[c].t) {
      IssueKeepsSpent(s.store, step.t, step.user, step.expiresAt, None, s.calls[c].t);
    }
  }

  lemma IssueKeepsSpent(store: Store, t: Id, user: Id, expiresAt: Instant, parent: Option<Id>, q: Id)
    requires Known(store) && Spent(store, q) && t !in store
    requires parent.Some? ==> parent.value in store && store[parent.value].login != store[q].login
    ensures Spent(Issued(store, t, user, expiresAt, parent), q)
  {
    var after := Issued(store, t, user, expiresAt, parent);
    assert after[t].login != after[q].login;
    forall u | u in after
      ensures (after[u].login == after[q].login ==> after[u].revokedAt.Some?) && after[u].parent != Some(q)
    {
      if u != t {
        assert after[u] == store[u];
      }
    }
  }

  lemma IssueKeepsCalls(s: State, step: Step)
    requires Inv(s) && Enabled(s, step) && step.Issue?
    ensures ConsumersOwn(Next(s, step))
  {
    var after := Next(s, step);
    var t := s.calls[step.c].t;
    forall d | d in after.calls && after.calls[d].Consumed? ensures Spent(after.store, after.calls[d].t) {
      IssueKeepsSpent(s.store, step.t, s.store[t].user, step.expiresAt, Some(t), s.calls[d].t);
    }
  }

  lemma RevokeKeepsSpent(store: Store, t: Id, now: Instant, q: Id)
    requires Spent(store, q) && t in store
    ensures Spent(store[t := store[t].(revokedAt := Some(now))], q)
  {
  }

  /** Consuming the one unrevoked token of a login leaves it spent. */
  lemma ConsumeSpends(store: Store, t: Id, now: Instant)
    requires Descend(store) && OneUnrevoked(store) && t in store && store[t].revokedAt.None?
    ensures Spent(store[t := store[t].(revokedAt := Some(now))], t)
  {
    forall u | u in store && store[u].parent == Some(t) ensures PassedOn(store[t], store[u]) {}
  }

  lemma RevokeKeepsCalls(s: State, step: Step)
    requires Inv(s) && Enabled(s, step) && (step.Consume? || step.Logout?)
    ensures ConsumersOwn(Next(s, step))
  {
    var t := s.calls[step.c].t;
    if s.store[t].revokedAt.None? {
      var after := Next(s, step);
      assert after.store == s.store[t := s.store[t].(revokedAt := Some(s.clock))];
      ConsumeSpends(s.store, t, s.clock);
      forall d | d in after.calls && after.calls[d].Consumed?
        ensures Spent(after.store, after.calls[d].t)
        ensures d != step.c ==> s.store[s.calls[d].t].login != s.store[t].login
      {
        if d != step.c {
          assert Spent(s.store, s.calls[d].t);
          RevokeKeepsSpent(s.store, t, s.clock, s.calls[d].t);
        }
      }
    } else {
      assert Next(s, step) == s.(calls := s.calls - {step.c});
    }
  }

  lemma RevokeStep(s: State, step: Step)
    requires Inv(s) && Enabled(s, step) && (step.Consume? || step.Logout?)
    ensures Inv(Next(s, step))
  {
    if Revoked(s.store, s.calls[step.c].t, s.clock).Some? {
      RevokedKeeps(s.store, s.calls[step.c].t, s.clock);
    }
    RevokeKeepsCalls(s, step);
  }

  lemma StepKeepsInv(s: State, step: Step)
    requires Inv(s) && Enabled(s, step)
    ensures Inv(Next(s, step))
  {
    match step {
      case Login(_, _, _) => LoginStep(s, step);
      case Issue(_, _, _) => IssueStep(s, step);
      case Consume(_) => RevokeStep(s, step);
      case Logout(_) => RevokeStep(s, step);
      case _ => CallStep(s, step);
    }
  }

  lemma CallStep(s: State, step: Step)
    requires Inv(s) && Enabled(s, step)
    requires step.Present? || step.LogoutWith? || step.Drop? || step.Tick?
    ensures Inv(Next(s, step))
  {
    assert Next(s, step).store == s.store;
  }

  datatype Run = Run(states: seq<State>, steps: seq<Step>) {
    ghost predicate Valid() {
      && |states| == |steps| + 1
      && states[0].store == map[] && states[0].calls == map[]
      && forall k :: 0 <= k < |steps| ==> Enabled(states[k], steps[k]) && states[k + 1] == Next(states[k], steps[k])
    }
  }

  lemma {:induction false} RunKeepsInv(run: Run, k: nat)
    requires run.Valid() && k < |run.states|
    ensures Inv(run.states[k])
  {
    if k > 0 {
      RunKeepsInv(run, k - 1);
      StepKeepsInv(run.states[k - 1], run.steps[k - 1]);
    }
  }

  /** In every interleaving a login's chain has at most one usable token, and a token at most one successor. */
  lemma ChainsLinear(run: Run, k: nat, t: Id, u: Id)
    requires run.Valid() && k < |run.states| && t in run.states[k].store && u in run.states[k].store && t != u
    ensures var store := run.states[k].store;
      && (store[t].login == store[u].login ==> store[t].revokedAt.Some? || store[u].revokedAt.Some?)
      && (store[t].parent.Some? ==> store[t].parent != store[u].parent)
      && (store[t].parent == Some(u) ==> store[u].revokedAt.Some? && store[u].user == store[t].user)
  {
    RunKeepsInv(run, k);
  }

  /** The step revokes the token for a Refresh. */
  predicate Consumes(s: State, step: Step, t: Id) {
    step.Consume? && step.c in s.calls && s.calls[step.c].t == t && Revoked(s.store, t, s.clock).Some?
  }

  function Consumptions(run: Run, k: nat, t: Id): nat
    requires k <= |run.steps| && |run.states| == |run.steps| + 1
  {
    if k == 0 then 0 else Consumptions(run, k - 1, t) + if Consumes(run.states[k - 1], run.steps[k - 1], t) then 1 else 0
  }

  /** However many callers present a token, at most one of them consumes it. */
  lemma {:induction false} ConsumedOnce(run: Run, k: nat, t: Id)
    requires run.Valid() && k < |run.states|
    ensures Consumptions(run, k, t) <= if t in run.states[k].store && run.states[k].store[t].revokedAt.Some? then 1 else 0
  {
    if k > 0 {
      ConsumedOnce(run, k - 1, t);
      assert Enabled(run.states[k - 1], run.steps[k - 1]);
      assert run.states[k] == Next(run.states[k - 1], run.steps[k - 1]);
    }
  }

  // ---- The service, one call at a time ----

  datatype AuthError = InvalidToken

  class Service {
    const refreshTokenTtl: nat
    var store: Store

    ghost predicate Valid()
      reads this
    {
      Descend(store) && OneUnrevoked(store)
    }

    constructor (refreshTokenTtl: nat)
      ensures Valid() && this.refreshTokenTtl == refreshTokenTtl && store == map[]
    {
      this.refreshTokenTtl, store := refreshTokenTtl, map[];
    }

    /** next is the generated token, parent the one a refresh has just revoked. */
    method IssueTokenPair(user: Id, next: Id, now: Instant, parent: Option<Id>)
      requires next !in store && (parent.Some? ==> parent.value in store)
      modifies this
      ensures store == Issued(old(store), next, user, now + refreshTokenTtl, parent)
    {
      store := Issued(store, next, user, now + refreshTokenTtl, parent);
    }

    method Revoke(t: Id, now: Instant) returns (found: bool)
      modifies this
      ensures found <==> t in old(store) && old(store)[t].revokedAt.None?
      ensures store == if found then old(store)[t := old(store)[t].(revokedAt := Some(now))] else old(store)
    {
      found := t in store && store[t].revokedAt.None?;
      if found {
        store := store[t := store[t].(revokedAt := Some(now))];
      }
    }

    /** An active token is exchanged for one successor, once; any other token is refused and nothing changes. */
    method Refresh(t: Id, next: Id, now: Instant) returns (result: Result<Id, AuthError>)
      requires Valid() && next !in store
      modifies this
      ensures Valid()
      ensures result.Ok? <==> t in old(store) && old(store)[t].Active(now)
      ensures match result
        case Err(_) => store == old(store)
        case Ok(token) =>
          && token == next && next in store && store[next].parent == Some(t) && store[next].revokedAt.None?
          && store == Issued(old(store)[t := old(store)[t].(revokedAt := Some(now))], next, old(store)[t].user, now + refreshTokenTtl, Some(t))
    {
      if t !in store || !store[t].Active(now) {
        return Err(InvalidToken);
      }
      var user := store[t].user;
      RevokedKeeps(store, t, now);
      var revoked := Revoke(t, now);
      assert Spent(store, t);
      IssuedDescends(store, next, user, now + refreshTokenTtl, Some(t));
      IssuedKeepsOne(store, next, user, now + refreshTokenTtl, Some(t));
      IssueTokenPair(user, next, now, Some(t));
      result := Ok(next);
    }

    /** Logging out an invalid token is a success that changes nothing. */
    method Logout(t: Id, now: Instant)
      requires Valid()
      modifies this
      ensures Valid() && (t in old(store) ==> t in store && store[t].revokedAt.Some?)
      ensures forall u :: u in store <==> u in old(store)
      ensures forall u :: u in old(store) && (u != t || old(store)[u].revokedAt.Some?) ==> store[u] == old(store)[u]
    {
      if t in store {
        if store[t].revokedAt.None? {
          RevokedKeeps(store, t, now);
        }
        var revoked := Revoke(t, now);
      }
    }
  }
}
