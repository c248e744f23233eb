/**
 * The browser client's single-flight refresh, the calls that go past it, and the server: exactly when a flight
 * presents a token that the server refuses.
 */
module ApiClient {
  import opened Wrappers
  import RT = RefreshTokens

  /** The module variables accessToken and refreshPromise, and the requests that await the flight. */
  class Client {
    var accessToken: Option<Id>
    var refreshing: bool
    var waiting: seq<Id>
    var presented: nat     // calls of the refresh endpoint so far

    ghost predicate Valid()
      reads this
    {
      refreshing || waiting == []
    }

    constructor ()
      ensures Valid() && accessToken.None? && !refreshing && presented == 0
    {
      accessToken, refreshing, waiting, presented := None, false, [], 0;
    }

    /** tryRefreshToken, called by a request that got a 401: it starts a flight or joins the one under way. */
    method TryRefreshToken(request: Id)
      requires Valid()
      modifies this
      ensures Valid() && refreshing && waiting == old(waiting) + [request] && accessToken == old(accessToken)
      ensures presented == old(presented) + if old(refreshing) then 0 else 1
    {
      if !refreshing {
        refreshing := true;
        presented := presented + 1;
      }
      waiting := waiting + [request];
    }

    /** The flight ends: everyone who waited gets the same answer, and the next 401 starts a new flight. */
    method Settled(answer: Option<Id>) returns (answered: map<Id, bool>)
      requires Valid() && refreshing
      modifies this
      ensures Valid() && !refreshing && waiting == [] && presented == old(presented) && accessToken == answer
      ensures forall r :: r in answered <==> r in old(waiting)
      ensures forall r :: r in answered ==> answered[r] == answer.Some?
    {
      accessToken := answer;
      answered := map r | r in waiting :: answer.Some?;
      refreshing, waiting := false, [];
    }
  }

  // ---- One browser and the server ----

  /** A flight behind the gate; a refresh past it, by the sign-in callback page or another tab; a logout; a sign-in. */
  datatype Kind = Gated | Ungated | Leaving | SigningIn

  /**
   * Read: the token was found, and for a refresh active. Answered: the response is on its way. Errored: the server has
   * given up with an internal error, and that response is on its way; Aborted: it has arrived.
   */
  datatype Stage = Sent | Read | Exchanged | Answered(answer: Option<Id>) | Arrived | Errored | Aborted {
    predicate Over() {
      Arrived? || Aborted?
    }
  }

  /** cookie is what the browser sent along. */
  datatype Call = Call(kind: Kind, cookie: Option<Id>, stage: Stage) {
    predicate Awaits() {
      stage.Sent? || stage.Read?
    }
  }

  /**
   * The server's table, the browser's cookie, all calls so far, the flight that holds the gate, the calls whose response
   * the browser will never see, and for each revoked token the call that revoked it.
   */
  datatype State = State(
    store: RT.Store, cookie: Option<Id>, calls: map<Id, Call>, gate: Option<Id>, lost: set<Id>, revokedBy: map<Id, Id>, now: Instant)

  datatype Step =
    | Open(f: Id, kind: Kind)
    | Check(f: Id)
    | Exchange(f: Id)
    | Issue(f: Id, token: Id, user: Id, expiresAt: Instant)
    | Arrive(f: Id)
    | Fail(f: Id)
    | Lose(f: Id)
    | Tick(to: Instant)

  predicate At(s: State, f: Id, stage: Stage) {
    f in s.calls && s.calls[f].stage == stage
  }

  predicate Enabled(s: State, step: Step) {
    match step
    case Open(f, kind) => f !in s.calls && (kind.Gated? ==> s.gate.None?)
    case Check(f) => At(s, f, Sent) && !s.calls[f].kind.SigningIn?
    case Exchange(f) => At(s, f, Read) && s.calls[f].cookie.Some?
    case Issue(f, token, _, expiresAt) =>
      f in s.calls && token !in s.store && s.now < expiresAt
      && if s.calls[f].kind.SigningIn? then s.calls[f].stage.Sent? else s.calls[f].stage.Exchanged? && s.calls[f].cookie.Some?
    case Arrive(f) => f in s.calls && (s.calls[f].stage.Answered? || s.calls[f].stage.Errored?) && f !in s.lost
    case Fail(f) => f in s.calls && (s.calls[f].Awaits() || s.calls[f].stage.Exchanged?)
    case Lose(f) => f in s.calls && !s.calls[f].stage.Over() && f !in s.lost
    case Tick(to) => s.now <= to
  }

  function To(s: State, f: Id, stage: Stage): State
    requires f in s.calls
  {
    s.(calls := s.calls[f := s.calls[f].(stage := stage)])
  }

  /** A refresh goes on with an active token, a logout with any known one. */
  predicate Accepts(s: State, call: Call) {
    call.cookie.Some? && call.cookie.value in s.store && (call.kind.Leaving? || s.store[call.cookie.value].Active(s.now))
  }

  function AfterExchange(s: State, f: Id): State
    requires At(s, f, Read) && s.calls[f].cookie.Some?
  {
    var t := s.calls[f].cookie.value;
    match RT.Revoked(s.store, t, s.now)
    case Some(store) =>
      To(s, f, if s.calls[f].kind.Leaving? then Answered(None) else Exchanged).(store := store, revokedBy := s.revokedBy[t := f])
    case None => To(s, f, Answered(None))
  }

  /**
   * A refresh or sign-in sets the cookie, a refused refresh and a logout clear it; one sent without a cookie leaves it, and
   * so does an internal error.
   */
  function AfterArrive(s: State, f: Id): State
    requires f in s.calls && (s.calls[f].stage.Answered? || s.calls[f].stage.Errored?)
  {
    var call := s.calls[f];
    if call.stage.Errored? then To(s, f, Aborted).(gate := if s.gate == Some(f) then None else s.gate)
    else To(s, f, Arrived).(
      cookie := if call.stage.answer.None? && call.cookie.None? && !call.kind.Leaving? then s.cookie else call.stage.answer,
      gate := if s.gate == Some(f) then None else s.gate)
  }

  /** An internal error; a logout drops it and clears the cookie all the same. */
  function Failure(call: Call): Stage {
    if call.kind.Leaving? then Answered(None) else Errored
  }

  function Next(s: State, step: Step): State
    requires Enabled(s, step)
  {
    match step
    case Open(f, kind) => s.(calls := s.calls[f := Call(kind, s.cookie, Sent)], gate := if kind.Gated? then Some(f) else s.gate)
    case Check(f) => To(s, f, if Accepts(s, s.calls[f]) then Read else Answered(None))
    case Exchange(f) => AfterExchange(s, f)
    case Issue(f, token, user, expiresAt) =>
      var parent := if s.calls[f].kind.SigningIn? then None else s.calls[f].cookie;
      To(s, f, Answered(Some(token))).(store := RT.Issued(s.store, token, user, expiresAt, parent))
    case Arrive(f) => AfterArrive(s, f)
    case Fail(f) => To(s, f, Failure(s.calls[f]))
    case Lose(f) => s.(lost := s.lost + {f}, gate := if s.gate == Some(f) then None else s.gate)
    case Tick(to) => s.(now := to)
  }

  // ---- What every run keeps ----

  ghost predicate KnownTokens(s: State) {
    && (s.cookie.Some? ==> s.cookie.value in s.store)
    && (forall f :: f in s.calls && s.calls[f].cookie.Some? ==> s.calls[f].cookie.value in s.store)
    && forall f :: f in s.calls && s.calls[f].stage.Read? ==> !s.calls[f].kind.SigningIn?
  }

  /** The table knows what was revoked, and the call that did it had presented the token. */
  ghost predicate RevokedFits(s: State) {
    && (forall t :: t in s.store ==> (t in s.revokedBy <==> s.store[t].revokedAt.Some?))
    && forall t :: t in s.revokedBy ==>
         && t in s.store && s.revokedBy[t] in s.calls && s.calls[s.revokedBy[t]].cookie == Some(t)
         && !s.calls[s.revokedBy[t]].Awaits() && !s.calls[s.revokedBy[t]].kind.SigningIn?
  }

  /** A token on its way to the browser is in nobody's hands yet. */
  ghost predicate InTransit(s: State, f: Id, token: Id) {
    && token in s.store && token !in s.revokedBy && s.cookie != Some(token)
    && (forall g :: g in s.calls ==> s.calls[g].cookie != Some(token))
    && (forall g :: g in s.calls && g != f ==> s.calls[g].stage != Answered(Some(token)))
  }

  ghost predicate AnswersFit(s: State) {
    forall f :: f in s.calls && s.calls[f].stage.Answered? && s.calls[f].stage.answer.Some? ==> InTransit(s, f, s.calls[f].stage.answer.value)
  }

  /** The browser waits for this flight. */
  predicate Flying(s: State, f: Id) {
    f in s.calls && s.calls[f].kind.Gated? && !s.calls[f].stage.Over() && f !in s.lost
  }

  ghost predicate GateFits(s: State) {
    && (forall f: Id :: Flying(s, f) <==> s.gate == Some(f))
    && forall f :: f in s.lost ==> f in s.calls
  }

  /** The token was revoked by a flight that has come back: nobody presents it any more. */
  ghost predicate ReturnedBy(s: State, t: Id) {
    && t in s.revokedBy && s.revokedBy[t] in s.calls && s.revokedBy[t] !in s.lost
    && s.calls[s.revokedBy[t]].kind.Gated? && s.calls[s.revokedBy[t]].stage.Arrived?
  }

  ghost predicate ReturnedFits(s: State) {
    forall t: Id :: ReturnedBy(s, t) ==> s.cookie != Some(t) && forall f: Id :: Flying(s, f) && s.calls[f].Awaits() ==> s.calls[f].cookie != Some(t)
  }

  ghost predicate Inv(s: State) {
    KnownTokens(s) && RevokedFits(s) && AnswersFit(s) && GateFits(s) && ReturnedFits(s)
  }

  lemma OpenKeepsInv(s: State, f: Id, kind: Kind)
    requires Inv(s) && Enabled(s, Open(f, kind))
    ensures Inv(Next(s, Open(f, kind)))
  {
    var s' := Next(s, Open(f, kind));
    forall g | g in s'.calls && s'.calls[g].stage.Answered? && s'.calls[g].stage.answer.Some?
      ensures InTransit(s', g, s'.calls[g].stage.answer.value)
    {
      assert InTransit(s, g, s.calls[g].stage.answer.value);
    }
    forall g: Id ensures Flying(s', g) <==> s'.gate == Some(g) {
      assert Flying(s, g) <==> s.gate == Some(g);
    }
    forall t: Id | ReturnedBy(s', t) ensures ReturnedBy(s, t) {}
  }

  /** A step of the server on one call. */
  lemma MoveKeepsInv(s: State, f: Id, stage: Stage)
    requires Inv(s) && f in s.calls && !s.calls[f].stage.Over() && !stage.Over() && !stage.Sent?
    requires stage.Read? ==> s.calls[f].Awaits() && !s.calls[f].kind.SigningIn?
    requires stage.Answered? ==> stage.answer.None?
    ensures Inv(To(s, f, stage))
  {
    var s' := To(s, f, stage);
    forall g | g in s'.calls && s'.calls[g].stage.Answered? && s'.calls[g].stage.answer.Some?
      ensures InTransit(s', g, s'.calls[g].stage.answer.value)
    {
      assert InTransit(s, g, s.calls[g].stage.answer.value);
    }
    forall g: Id ensures Flying(s', g) <==> Flying(s, g) {}
    forall t: Id | ReturnedBy(s', t) ensures ReturnedBy(s, t) {}
  }

  /** The call presents a token that is not revoked, and revokes it. */
  function Revokes(s: State, f: Id, t: Id, stage: Stage): State
    requires f in s.calls && t in s.store
  {
    To(s, f, stage).(store := s.store[t := s.store[t].(revokedAt := Some(s.now))], revokedBy := s.revokedBy[t := f])
  }

  lemma RevokeKeepsAnswers(s: State, f: Id, t: Id, stage: Stage)
    requires Inv(s) && f in s.calls && s.calls[f].stage.Read? && s.calls[f].cookie == Some(t)
    requires stage.Exchanged? || stage == Answered(None)
    ensures AnswersFit(Revokes(s, f, t, stage))
  {
    var s' := Revokes(s, f, t, stage);
    forall g | g in s'.calls && s'.calls[g].stage.Answered? && s'.calls[g].stage.answer.Some?
      ensures InTransit(s', g, s'.calls[g].stage.answer.value)
    {
      assert InTransit(s, g, s.calls[g].stage.answer.value);
    }
  }

  lemma RevokeKeepsTables(s: State, f: Id, t: Id, stage: Stage)
    requires Inv(s) && f in s.calls && s.calls[f].stage.Read? && s.calls[f].cookie == Some(t)
    requires stage.Exchanged? || stage == Answered(None)
    ensures KnownTokens(Revokes(s, f, t, stage)) && RevokedFits(Revokes(s, f, t, stage))
  {
  }

  lemma RevokeKeepsInv(s: State, f: Id, t: Id, stage: Stage)
    requires Inv(s) && f in s.calls && s.calls[f].stage.Read? && s.calls[f].cookie == Some(t)
    requires stage.Exchanged? || stage == Answered(None)
    ensures Inv(Revokes(s, f, t, stage))
  {
    var s' := Revokes(s, f, t, stage);
    RevokeKeepsAnswers(s, f, t, stage);
    RevokeKeepsTables(s, f, t, stage);
    forall g: Id ensures Flying(s', g) <==> Flying(s, g) {}
    forall u: Id | ReturnedBy(s', u) ensures ReturnedBy(s, u) {}
  }

  lemma ExchangeKeepsInv(s: State, f: Id)
    requires Inv(s) && Enabled(s, Exchange(f))
    ensures Inv(AfterExchange(s, f))
  {
    var t := s.calls[f].cookie.value;
    if RT.Revoked(s.store, t, s.now).Some? {
      RevokeKeepsInv(s, f, t, if s.calls[f].kind.Leaving? then Answered(None) else Exchanged);
    } else {
      MoveKeepsInv(s, f, Answered(None));
    }
  }

  lemma IssueKeepsTables(s: State, step: Step)
    requires Inv(s) && Enabled(s, step) && step.Issue?
    ensures AnswersFit(Next(s, step)) && KnownTokens(Next(s, step)) && RevokedFits(Next(s, step))
  {
    var s' := Next(s, step);
    forall g | g in s'.calls && s'.calls[g].stage.Answered? && s'.calls[g].stage.answer.Some?
      ensures InTransit(s', g, s'.calls[g].stage.answer.value)
    {
      if g != step.f {
        assert InTransit(s, g, s.calls[g].stage.answer.value);
      }
    }
  }

  lemma IssueKeepsInv(s: State, step: Step)
    requires Inv(s) && Enabled(s, step) && step.Issue?
    ensures Inv(Next(s, step))
  {
    var s' := Next(s, step);
    IssueKeepsTables(s, step);
    forall g: Id ensures Flying(s', g) <==> Flying(s, g) {}
    forall t: Id | ReturnedBy(s', t) ensures ReturnedBy(s, t) {}
  }

  lemma ArriveKeepsAnswers(s: State, f: Id)
    requires Inv(s) && Enabled(s, Arrive(f))
    ensures AnswersFit(AfterArrive(s, f)) && KnownTokens(AfterArrive(s, f)) && RevokedFits(AfterArrive(s, f))
  {
    var s' := AfterArrive(s, f);
    forall g | g in s'.calls && s'.calls[g].stage.Answered? && s'.calls[g].stage.answer.Some?
      ensures InTransit(s', g, s'.calls[g].stage.answer.value)
    {
      assert InTransit(s, g, s.calls[g].stage.answer.value);
    }
    if s.calls[f].stage.Answered? && s.calls[f].stage.answer.Some? {
      assert InTransit(s, f, s.calls[f].stage.answer.value);
    }
  }

  lemma ArriveKeepsInv(s: State, f: Id)
    requires Inv(s) && Enabled(s, Arrive(f))
    ensures Inv(AfterArrive(s, f))
  {
    var s' := AfterArrive(s, f);
    ArriveKeepsAnswers(s, f);
    forall g: Id ensures Flying(s', g) <==> Flying(s, g) && g != f {}
    if s.calls[f].stage.Answered? && s.calls[f].stage.answer.Some? {
      assert InTransit(s, f, s.calls[f].stage.answer.value);
    }
    forall t: Id | ReturnedBy(s', t)
      ensures s'.cookie != Some(t) && forall g: Id :: Flying(s', g) && s'.calls[g].Awaits() ==> s'.calls[g].cookie != Some(t)
    {
      if s.revokedBy[t] != f {
        assert ReturnedBy(s, t);
      } else {
        assert Flying(s, f);
      }
    }
  }

  lemma LoseKeepsInv(s: State, f: Id)
    requires Inv(s) && Enabled(s, Lose(f))
    ensures Inv(Next(s, Lose(f)))
  {
    var s' := Next(s, Lose(f));
    forall g | g in s'.calls && s'.calls[g].stage.Answered? && s'.calls[g].stage.answer.Some?
      ensures InTransit(s', g, s'.calls[g].stage.answer.value)
    {
      assert InTransit(s, g, s.calls[g].stage.answer.value);
    }
    forall g: Id ensures Flying(s', g) <==> Flying(s, g) && g != f {}
    forall t: Id | ReturnedBy(s', t) ensures ReturnedBy(s, t) {}
  }

  lemma TickKeepsInv(s: State, to: Instant)
    requires Inv(s)
    ensures Inv(s.(now := to))
  {
    var s' := s.(now := to);
    forall g | g in s'.calls && s'.calls[g].stage.Answered? && s'.calls[g].stage.answer.Some?
      ensures InTransit(s', g, s'.calls[g].stage.answer.value)
    {
      assert InTransit(s, g, s.calls[g].stage.answer.value);
    }
    forall g: Id ensures Flying(s', g) <==> Flying(s, g) {}
    forall t: Id | ReturnedBy(s', t) ensures ReturnedBy(s, t) {}
  }

  lemma StepKeepsInv(s: State, step: Step)
    requires Inv(s) && Enabled(s, step)
    ensures Inv(Next(s, step))
  {
    match step {
      case Open(f, kind) => OpenKeepsInv(s, f, kind);
      case Check(f) => MoveKeepsInv(s, f, if Accepts(s, s.calls[f]) then Read else Answered(None));
      case Exchange(f) => ExchangeKeepsInv(s, f);
      case Issue(_, _, _, _) => IssueKeepsInv(s, step);
      case Arrive(f) => ArriveKeepsInv(s, f);
      case Fail(f) => MoveKeepsInv(s, f, Failure(s.calls[f]));
      case Lose(f) => LoseKeepsInv(s, f);
      case Tick(to) => TickKeepsInv(s, to);
    }
  }

  // ---- Runs ----

  predicate Start(s: State) {
    s.store == map[] && s.cookie.None? && s.calls == map[] && s.gate.None? && s.lost == {} && s.revokedBy == map[]
  }

  datatype Run = Run(states: seq<State>, steps: seq<Step>) {
    ghost predicate Valid() {
      && |states| == |steps| + 1 && Start(states[0])
      && forall k :: 0 <= k < |steps| ==> Enabled(states[k], steps[k]) && states[k + 1] == Next(states[k], steps[k])
    }
  }

  lemma {:induction false} RunKeepsInv(run: Run, k: nat)
    requires run.Valid() && k < |run.states|
    ensures Inv(run.states[k])
  {
    if k > 0 {
      RunKeepsInv(run, k - 1);
      StepKeepsInv(run.states[k - 1], run.steps[k - 1]);
    }
  }

  /** The token was revoked by a logout, by a refresh past the gate, or by a flight that failed or whose response never arrived. */
  predicate RevokedOutside(s: State, t: Id) {
    && t in s.revokedBy && s.revokedBy[t] in s.calls
    && match s.calls[s.revokedBy[t]].kind
       case Gated => s.revokedBy[t] in s.lost || s.calls[s.revokedBy[t]].stage.Errored? || s.calls[s.revokedBy[t]].stage.Aborted?
       case Ungated => true
       case Leaving => true
       case SigningIn => false
  }

  predicate HasExpired(s: State, t: Id) {
    t in s.store && s.store[t].expiresAt <= s.now
  }

  lemma RevokedSomehow(s: State, t: Id)
    requires RevokedFits(s) && t in s.store
    ensures s.store[t].revokedAt.Some? <==> t in s.revokedBy
    ensures t in s.revokedBy ==> RevokedOutside(s, t) || ReturnedBy(s, t) || Flying(s, s.revokedBy[t])
  {
  }

  lemma RevokedIsOutside(s: State, f: Id, t: Id)
    requires Inv(s) && Flying(s, f) && s.calls[f].Awaits() && s.calls[f].cookie == Some(t)
    ensures s.store[t].revokedAt.Some? <==> RevokedOutside(s, t)
  {
    RevokedSomehow(s, t);
  }

  /**
   * A flight behind the gate is refused exactly when it was sent without a cookie, or its cookie's token has expired
   * when the server reads it, or the token was revoked, before the read or before the exchange, by a logout, a refresh
   * past the gate, or a flight that failed on the server or whose response was lost. Flights whose responses arrive never get in each other's way.
   */
  lemma FlightRefusedIff(run: Run, k: nat, f: Id)
    requires run.Valid() && k < |run.steps| && Flying(run.states[k], f)
    ensures run.steps[k] == Check(f) ==>
      var call := run.states[k].calls[f];
      (At(run.states[k + 1], f, Answered(None)) <==>
        call.cookie.None? || HasExpired(run.states[k], call.cookie.value) || RevokedOutside(run.states[k], call.cookie.value))
    ensures run.steps[k] == Exchange(f) ==>
      (At(run.states[k + 1], f, Answered(None)) <==> RevokedOutside(run.states[k], run.states[k].calls[f].cookie.value))
  {
    RunKeepsInv(run, k);
    var s, step := run.states[k], run.steps[k];
    assert Enabled(s, step);
    if s.calls[f].Awaits() && s.calls[f].cookie.Some? {
      RevokedIsOutside(s, f, s.calls[f].cookie.value);
    }
  }

  /** Nobody has logged out or refreshed past the gate, no call has failed, and no response was lost. */
  ghost predicate AllInside(s: State) {
    && s.lost == {}
    && forall g :: g in s.calls ==>
         (s.calls[g].kind.Gated? || s.calls[g].kind.SigningIn?) && !s.calls[g].stage.Errored? && !s.calls[g].stage.Aborted?
  }

  /** With the gate alone, only a missing cookie and the token's expiry refuse a flight, and an exchange never fails. */
  lemma GateSuffices(run: Run, k: nat, f: Id)
    requires run.Valid() && k < |run.steps| && Flying(run.states[k], f) && AllInside(run.states[k])
    ensures run.steps[k] == Check(f) ==>
      var call := run.states[k].calls[f];
      (At(run.states[k + 1], f, Answered(None)) <==> call.cookie.None? || HasExpired(run.states[k], call.cookie.value))
    ensures run.steps[k] == Exchange(f) ==> At(run.states[k + 1], f, Exchanged)
  {
    FlightRefusedIff(run, k, f);
    assert Enabled(run.states[k], run.steps[k]);
  }

  function Last(run: Run): State
    requires run.states != []
  {
    run.states[|run.states| - 1]
  }

  lemma Extend(run: Run, step: Step) returns (longer: Run)
    requires run.Valid() && Enabled(Last(run), step)
    ensures longer.Valid() && Last(longer) == Next(Last(run), step)
  {
    longer := Run(run.states + [Next(Last(run), step)], run.steps + [step]);
    forall k | 0 <= k < |longer.steps|
      ensures Enabled(longer.states[k], longer.steps[k]) && longer.states[k + 1] == Next(longer.states[k], longer.steps[k])
    {
      if k < |run.steps| {
        assert longer.states[k] == run.states[k] && longer.states[k + 1] == run.states[k + 1] && longer.steps[k] == run.steps[k];
      }
    }
  }

  lemma SignedIn(user: Id, expiresAt: Instant) returns (run: Run)
    requires expiresAt > 0
    ensures run.Valid() && Last(run).now == 0 && Last(run).cookie == Some(1) && Last(run).gate.None? && Last(run).lost == {}
    ensures Last(run).store == map[1 := RT.Token(user, expiresAt, None, None, 1)] && Last(run).revokedBy == map[]
    ensures Last(run).calls == map[0 := Call(SigningIn, None, Arrived)]
  {
    run := Run([State(map[], None, map[], None, {}, map[], 0)], []);
    run := Extend(run, Open(0, SigningIn));
    run := Extend(run, Issue(0, 1, user, expiresAt));
    run := Extend(run, Arrive(0));
  }

  /**
   * The refresh of the sign-in callback page goes past the gate: it can consume the cookie of a flight under way, and
   * the flight is refused though nothing has expired and every response may still arrive.
   */
  lemma UngatedCallRefusesFlight(user: Id, expiresAt: Instant) returns (run: Run)
    requires expiresAt > 0
    ensures run.Valid() && Flying(Last(run), 2) && At(Last(run), 2, Answered(None)) && Last(run).lost == {}
    ensures Last(run).calls[2].cookie == Some(1) && !HasExpired(Last(run), 1) && RevokedOutside(Last(run), 1)
  {
    run := SignedIn(user, expiresAt);
    run := Extend(run, Open(1, Ungated));
    run := Extend(run, Open(2, Gated));
    run := Extend(run, Check(1));
    run := Extend(run, Exchange(1));
    run := Extend(run, Check(2));
  }
}
