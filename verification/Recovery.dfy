/** How a circuit closes again: by a probe, or by an answer to a call made before it opened. */
module Recovery {
  import opened Types
  import opened BackendState
  import opened Health
  import opened Registry
  import opened Scoring
  import opened Dispatcher
  import opened Proxy
  import opened Trace
  import opened Gateway
  import opened History

  /** The request waits for an answer of backend `i`. A stream being relayed does not: its end reports no success. */
  predicate Waits(r: Request, i: nat) { r.work.Calling? && r.work.at == Some(i) }

  predicate NoCaller(rs: seq<Request>, i: nat) {
    forall id :: 0 <= id < |rs| ==> !Waits(rs[id], i)
  }

  /** Not closed, and nobody is left whose answer could close it. */
  predicate Unprobed(s: State, i: nat) {
    i < |s.backends| && !s.backends[i].circuit.Closed? && NoCaller(s.requests, i)
  }

  /** A placement logs a dispatch on the backend it chooses and on no other, and closes no circuit. */
  lemma PlaceLogsItsDispatch(cfg: GatewayConfig, bs: seq<Backend>, cl: RequestClass, now: real, avoid: Option<string>, i: nat)
    requires i < |bs|
    ensures var pl := Place(cfg, bs, cl, now, avoid);
      && Dispatches(PlaceEvents(cfg, bs, cl, now, avoid, i)) == (if pl.target == Some(i) then 1 else 0)
      && (pl.backends[i].circuit.Closed? <==> bs[i].circuit.Closed?)
  {
    hide Place, Eligible, Dispatches;
    PlaceTakesOneEligibleSlot(cfg, bs, cl, now, avoid);
    var check := if Screened(bs[i], avoid) then [Event(now, Check)] else [];
    OneEvent(Event(now, Check));
    OneEvent(Event(now, Dispatch(cl)));
    DispatchesAdd(check, [Event(now, Dispatch(cl))]);
    assert check + [] == check;
  }

  lemma AssignNextUnprobed(cfg: GatewayConfig, s: State, i: nat)
    requires WellFormed(s) && s.phase.Holding? && s.phase.rest != [] && Unprobed(s, i)
    ensures var s' := AssignNext(cfg, s); Unprobed(s', i) || Dispatches(s'.logs[i]) > Dispatches(s.logs[i])
    ensures LogsGrow(s, AssignNext(cfg, s))
  {
    hide Place, PlaceEvents, TooOld, Dispatches;
    var r := s.requests[Head(s)];
    PlaceLogsItsDispatch(cfg, s.backends, r.cl, s.clock, None, i);
    DispatchesAdd(s.logs[i], VerdictEvents(cfg, s.backends, TicketOf(r), s.clock, i));
  }

  lemma MoreDispatches(s: State, s': State, i: nat)
    requires LogsGrow(s, s') && i < |s.logs|
    ensures Dispatches(s.logs[i]) <= Dispatches(s'.logs[i])
  {
    var suffix := s'.logs[i][|s.logs[i]|..];
    assert s'.logs[i] == s.logs[i] + suffix;
    DispatchesAdd(s.logs[i], suffix);
  }

  lemma {:induction false} AssignAllUnprobed(cfg: GatewayConfig, s: State, i: nat)
    requires WellFormed(s) && s.phase.Holding? && Unprobed(s, i)
    ensures var s' := AssignAll(cfg, s);
      |s'.logs| == |s.logs| && (Unprobed(s', i) || Dispatches(s'.logs[i]) > Dispatches(s.logs[i]))
    decreases |s.phase.rest|
  {
    hide Unprobed, AssignNext, Dispatches;
    IndexedLog(s, i);
    if s.phase.rest != [] {
      var s1 := AssignNext(cfg, s);
      AssignNextUnprobed(cfg, s, i);
      AssignAllGrows(cfg, s1);
      MoreDispatches(s1, AssignAll(cfg, s1), i);
      MoreDispatches(s, s1, i);
      if Unprobed(s1, i) {
        AssignAllUnprobed(cfg, s1, i);
      }
    }
  }

  lemma IndexedLog(s: State, i: nat)
    requires WellFormed(s) && Unprobed(s, i)
    ensures i < |s.logs|
  {
  }

  /** The return of a call that was made elsewhere: it may be retried here, which is a probe. */
  lemma ReturnUnprobed(cfg: GatewayConfig, s: State, id: nat, o: Outcome, i: nat)
    requires WellFormed(s) && Enabled(cfg, s, Return(id, o)) && Unprobed(s, i)
    ensures var s' := ReturnStep(cfg, s, id, o); Unprobed(s', i) || Dispatches(s'.logs[i]) > Dispatches(s.logs[i])
  {
    hide Resume, ReturnEvents, ReleasesTwice, Dispatches;
    var r := s.requests[id];
    assert r.work.at != Some(i);
    ReturnFromElsewhere(cfg, s.backends, r.work.at, r.cl, r.stream, r.work.attempts, o, s.clock, i);
    DispatchesAdd(s.logs[i], ReturnEvents(cfg, s.backends, r.work.at, r.cl, r.stream, r.work.attempts, o, s.clock, i));
  }

  lemma ReturnFromElsewhere(cfg: GatewayConfig, bs: seq<Backend>, at: Option<nat>, cl: RequestClass, stream: bool,
                            attempts: nat, o: Outcome, now: real, i: nat)
    requires i < |bs| && at != Some(i)
    ensures var res := Resume(cfg, bs, at, cl, stream, attempts, o, now);
      && (res.backends[i].circuit.Closed? <==> bs[i].circuit.Closed?)
      && (res.next == Retry(i) ==> Dispatches(ReturnEvents(cfg, bs, at, cl, stream, attempts, o, now, i)) > 0)
  {
    hide Resume, Place, PlaceEvents, WantsRetry, Avoid, Dispatches, AfterOutcome, AfterRelease;
    ResumeCases(cfg, bs, at, cl, stream, attempts, o, now);
    var rel := Released(Noted(bs, at, o, stream, cfg.health, now), at, cl);
    assert rel[i] == bs[i];
    PlaceLogsItsDispatch(cfg, rel, cl, now, Avoid(bs, at), i);
    var es := PlaceEvents(cfg, rel, cl, now, Avoid(bs, at), i);
    var none: seq<Event> := [];
    assert none + (none + es + none) == es;
  }

  /** Without a dispatch to it, and with nobody waiting for its answer, no step closes a circuit. */
  lemma StepUnprobed(cfg: GatewayConfig, s: State, a: Action, i: nat)
    requires WellFormed(s) && Enabled(cfg, s, a) && Unprobed(s, i)
    ensures var s' := Step(cfg, s, a);
      i < |s'.logs| == |s.logs| && (Unprobed(s', i) || Dispatches(s'.logs[i]) > Dispatches(s.logs[i]))
  {
    hide AssignAll, ReturnStep, Dispatches;
    StepGrows(cfg, s, a);
    match a
    case Assign => AssignAllUnprobed(cfg, s, i);
    case Return(id, o) => ReturnUnprobed(cfg, s, id, o, i);
    case _ =>
  }

  lemma {:induction false} RunUnprobed(cfg: GatewayConfig, s: State, acts: seq<Action>, i: nat)
    requires WellFormed(s) && Feasible(cfg, s, acts) && Unprobed(s, i)
    ensures var s' := Run(cfg, s, acts);
      i < |s'.logs| == |s.logs| && (Unprobed(s', i) || Dispatches(s'.logs[i]) > Dispatches(s.logs[i]))
    decreases |acts|
  {
    hide Step, Unprobed, Dispatches;
    IndexedLog(s, i);
    if acts != [] {
      var s1 := Step(cfg, s, acts[0]);
      StepUnprobed(cfg, s, acts[0], i);
      StepGrows(cfg, s, acts[0]);
      RunGrows(cfg, s1, acts[1..]);
      MoreDispatches(s, s1, i);
      MoreDispatches(s1, Run(cfg, s1, acts[1..]), i);
      if Unprobed(s1, i) {
        RunUnprobed(cfg, s1, acts[1..], i);
      }
    }
  }

  // ---------- the late answer ----------

  /** A run that closes the circuit of backend `i` without a single dispatch to it. */
  ghost predicate ClosesUnprobed(cfg: GatewayConfig, s: State, acts: seq<Action>, i: nat)
    requires WellFormed(s)
  {
    Feasible(cfg, s, acts) &&
    var s' := Run(cfg, s, acts);
    && i < |s'.backends| && i < |s.logs|
    && s'.backends[i].circuit.Closed?
    && Dispatches(s'.logs[i]) == Dispatches(s.logs[i])
  }

  /** Wait out the cooldown, sweep, and answer the call. */
  lemma LateAnswerCloses(cfg: GatewayConfig, s: State, i: nat, id: nat) returns (acts: seq<Action>)
    requires WellFormed(s) && i < |s.backends| && id < |s.requests|
    requires s.requests[id].work.Calling? && s.requests[id].work.at == Some(i)
    requires s.backends[i].circuit.Open? ==> s.backends[i].openedAt.Some?
    ensures ClosesUnprobed(cfg, s, acts, i)
  {
    hide Dispatches, Feasible, Run, CooledDown, ReleasesTwice, ReturnEvents, Resume;
    var b := s.backends[i];
    var wait := if b.circuit.Open? then b.openedAt.value + CooldownSec(cfg.health) - s.clock else 0.0;
    var pass, answer := Advance(if wait > 0.0 then wait else 0.0), Return(id, Headers(200, 0.0));
    var s1 := Step(cfg, s, pass);
    var s2 := Step(cfg, s1, Sweep);
    Waited(b, cfg.health, s1.clock);
    var r := s.requests[id];
    AnswerCloses(cfg, s2.backends, i, r.cl, r.stream, r.work.attempts, s2.clock);
    OneEvent(Event(s1.clock, Check));
    DispatchesAdd(s.logs[i], [Event(s1.clock, Check)]);
    DispatchesAdd(s2.logs[i], ReturnEvents(cfg, s2.backends, Some(i), r.cl, r.stream, r.work.attempts, Headers(200, 0.0), s2.clock, i));
    assert [pass] + [Sweep, answer] == [pass, Sweep, answer];
    RunOfTwo(cfg, s1, Sweep, answer);
    RunOfMore(cfg, s, pass, [Sweep, answer]);
    acts := [pass, Sweep, answer];
  }

  lemma Waited(b: Backend, h: HealthConfig, now: real)
    requires b.circuit.Open? ==> b.openedAt.Some? && now >= b.openedAt.value + CooldownSec(h)
    ensures !AfterCooldownCheck(b, h, now).circuit.Open?
  {
  }

  lemma AnswerCloses(cfg: GatewayConfig, bs: seq<Backend>, i: nat, cl: RequestClass, stream: bool, attempts: nat, now: real)
    requires i < |bs| && !bs[i].circuit.Open?
    ensures var o := Headers(200, 0.0);
      && Resume(cfg, bs, Some(i), cl, stream, attempts, o, now).backends[i].circuit.Closed?
      && Dispatches(ReturnEvents(cfg, bs, Some(i), cl, stream, attempts, o, now, i)) == 0
  {
    hide Place;
    var o := Headers(200, 0.0);
    ResumeCases(cfg, bs, Some(i), cl, stream, attempts, o, now);
    var es := OutcomeEvents(Some(i), o, stream, now, i);
    var rel := ReleaseEvents(Some(i), cl, now, i);
    OneEvent(es[0]);
    OneEvent(es[1]);
    OneEvent(rel[0]);
    assert es == [es[0]] + [es[1]] && rel == [rel[0]];
    DispatchesAdd([es[0]], [es[1]]);
    DispatchesAdd(es, rel);
    assert es + [] == es;
  }

  /**
   * A circuit that is not closed can close without any further dispatch to the backend if and only if, at
   * this moment, some request is still waiting for an answer of it: a probe under way or a late answer.
   */
  lemma ClosesWithoutDispatch(cfg: GatewayConfig, s: State, i: nat)
    requires WellFormed(s) && i < |s.backends| && !s.backends[i].circuit.Closed?
    requires s.backends[i].circuit.Open? ==> s.backends[i].openedAt.Some?
    ensures (forall acts :: !ClosesUnprobed(cfg, s, acts, i)) <==> NoCaller(s.requests, i)
  {
    hide Dispatches, Run, Feasible;
    if NoCaller(s.requests, i) {
      forall acts
        ensures !ClosesUnprobed(cfg, s, acts, i)
      {
        if Feasible(cfg, s, acts) {
          RunUnprobed(cfg, s, acts, i);
        }
      }
    } else {
      var id :| 0 <= id < |s.requests| && Waits(s.requests[id], i);
      var acts := LateAnswerCloses(cfg, s, i, id);
    }
  }

  // ---------- probes and calls made before the circuit opened ----------

  /** A call under way, against the opening time of its backend: it was made before the opening or after the cooldown. */
  predicate Dated(r: Request, b: Backend, clock: real, h: HealthConfig) {
    r.since <= clock
    && (b.openedAt.Some? ==> r.since <= b.openedAt.value || r.since >= b.openedAt.value + CooldownSec(h))
  }

  predicate CallsDated(s: State, h: HealthConfig) {
    forall id, i :: 0 <= id < |s.requests| && 0 <= i < |s.backends| && Waits(s.requests[id], i) ==>
      Dated(s.requests[id], s.backends[i], s.clock, h)
  }

  /** What the circuit fields of a backend say about the clock. */
  predicate Timely(b: Backend, clock: real, h: HealthConfig) {
    && (b.circuit.Closed? <==> b.openedAt.None?)
    && (b.openedAt.Some? ==> b.openedAt.value <= clock)
    && (b.circuit.HalfOpen? ==> b.openedAt.value + CooldownSec(h) <= clock)
  }

  predicate AllTimely(s: State, h: HealthConfig) {
    forall i :: 0 <= i < |s.backends| ==> Timely(s.backends[i], s.clock, h)
  }

  lemma HistoriedIsTimely(cfg: GatewayConfig, entries: seq<BackendEntry>, birth: real, s: State)
    requires SaneHealth(cfg.health) && Historied(cfg, Rows(entries), birth, s)
    ensures AllTimely(s, cfg.health)
  {
    hide Replay, Legal;
    var base, h := Rows(entries), cfg.health;
    forall i | 0 <= i < |s.backends|
      ensures Timely(s.backends[i], s.clock, h)
    {
      FreshRow(entries, i, h);
      assert Logged(base[i], s.logs[i], s.backends[i], h, birth, s.clock);
      CircuitStaysSound(base[i], s.logs[i], h, birth);
      OpenedInThePast(base[i], s.logs[i], h, birth);
      HalfOpenIsDue(base[i], s.logs[i], h, birth);
    }
  }

  /** A backend that passes the checks although its circuit has an opening time has waited out the cooldown. */
  lemma EligibleWhenDue(b: Backend, h: HealthConfig, now: real)
    requires Eligible(b, h, now) && Timely(b, now, h)
    ensures b.openedAt.Some? ==> now >= b.openedAt.value + CooldownSec(h)
  {
  }

  lemma PlaceKeepsOpening(cfg: GatewayConfig, bs: seq<Backend>, cl: RequestClass, now: real, avoid: Option<string>, i: nat)
    requires i < |bs|
    ensures Place(cfg, bs, cl, now, avoid).backends[i].openedAt == bs[i].openedAt
    ensures Place(cfg, bs, cl, now, avoid).target == Some(i) ==> Eligible(bs[i], cfg.health, now)
  {
    hide Place, Eligible;
    PlaceTakesOneEligibleSlot(cfg, bs, cl, now, avoid);
  }

  /** A returning call may clear or set an opening time, and goes on to an eligible backend that it leaves as it was. */
  lemma ReturnOpenings(cfg: GatewayConfig, bs: seq<Backend>, at: Option<nat>, cl: RequestClass, stream: bool,
                       attempts: nat, o: Outcome, now: real, i: nat)
    requires i < |bs|
    ensures var res := Resume(cfg, bs, at, cl, stream, attempts, o, now);
      && res.backends[i].openedAt in {bs[i].openedAt, None, Some(now)}
      && (res.next == Retry(i) ==> res.backends[i].openedAt == bs[i].openedAt && Eligible(bs[i], cfg.health, now))
  {
    hide Resume, Place, Eligible, WantsRetry;
    ResumeCases(cfg, bs, at, cl, stream, attempts, o, now);
    var rel := Released(Noted(bs, at, o, stream, cfg.health, now), at, cl);
    PlaceKeepsOpening(cfg, rel, cl, now, Avoid(bs, at), i);
    PlaceTakesOneEligibleSlot(cfg, rel, cl, now, Avoid(bs, at));
    OthersUntouched(bs, at, o, cl, stream, cfg.health, now, i);
  }

  lemma StaysDated(r: Request, b: Backend, b': Backend, clock: real, clock': real, h: HealthConfig)
    requires Dated(r, b, clock, h) && clock <= clock'
    requires b'.openedAt in {b.openedAt, None, Some(clock)}
    ensures Dated(r, b', clock', h)
  {
  }

  lemma AssignNextDated(cfg: GatewayConfig, s: State)
    requires WellFormed(s) && s.phase.Holding? && s.phase.rest != []
    requires AllTimely(s, cfg.health) && CallsDated(s, cfg.health)
    ensures CallsDated(AssignNext(cfg, s), cfg.health)
  {
    hide Place, VerdictEvents, TooOld, Eligible, Dated, Timely;
    var s', h := AssignNext(cfg, s), cfg.health;
    var r := s.requests[Head(s)];
    forall id, i | 0 <= id < |s'.requests| && 0 <= i < |s'.backends| && Waits(s'.requests[id], i)
      ensures Dated(s'.requests[id], s'.backends[i], s'.clock, h)
    {
      PlaceKeepsOpening(cfg, s.backends, r.cl, s.clock, None, i);
      if s'.requests[id].work == s.requests[id].work && s'.requests[id].since == s.requests[id].since {
        StaysDated(s.requests[id], s.backends[i], s'.backends[i], s.clock, s.clock, h);
        SameDate(s.requests[id], s'.requests[id], s'.backends[i], s.clock, h);
      } else {
        NewCallIsDated(s'.requests[id], s.backends[i], s'.backends[i], s.clock, h);
      }
    }
  }

  lemma NewCallIsDated(r: Request, b: Backend, b': Backend, clock: real, h: HealthConfig)
    requires Eligible(b, h, clock) && Timely(b, clock, h) && r.since == clock && b'.openedAt == b.openedAt
    ensures Dated(r, b', clock, h)
  {
    hide Eligible;
    EligibleWhenDue(b, h, clock);
  }

  lemma {:induction false} AssignAllDated(cfg: GatewayConfig, entries: seq<BackendEntry>, birth: real, s: State)
    requires SaneHealth(cfg.health) && WellFormed(s) && s.phase.Holding?
    requires Historied(cfg, Rows(entries), birth, s) && CallsDated(s, cfg.health)
    ensures CallsDated(AssignAll(cfg, s), cfg.health)
    decreases |s.phase.rest|
  {
    hide AssignNext, Historied, CallsDated, AllTimely;
    if s.phase.rest != [] {
      HistoriedIsTimely(cfg, entries, birth, s);
      AssignNextDated(cfg, s);
      AssignNextHistoried(cfg, Rows(entries), birth, s);
      AssignAllDated(cfg, entries, birth, AssignNext(cfg, s));
    }
  }

  lemma ReturnDated(cfg: GatewayConfig, s: State, id: nat, o: Outcome)
    requires WellFormed(s) && Enabled(cfg, s, Return(id, o))
    requires AllTimely(s, cfg.health) && CallsDated(s, cfg.health)
    ensures CallsDated(ReturnStep(cfg, s, id, o), cfg.health)
  {
    hide Resume, ReturnEvents, ReleasesTwice, Eligible, Dated, Timely;
    var s', r, h := ReturnStep(cfg, s, id, o), s.requests[id], cfg.health;
    forall k, i | 0 <= k < |s'.requests| && 0 <= i < |s'.backends| && Waits(s'.requests[k], i)
      ensures Dated(s'.requests[k], s'.backends[i], s'.clock, h)
    {
      ReturnOpenings(cfg, s.backends, r.work.at, r.cl, r.stream, r.work.attempts, o, s.clock, i);
      if k == id {
        NewCallIsDated(s'.requests[k], s.backends[i], s'.backends[i], s.clock, h);
      } else {
        StaysDated(s.requests[k], s.backends[i], s'.backends[i], s.clock, s.clock, h);
      }
    }
  }

  /** The steps that start no call. */
  lemma OtherStepsDated(cfg: GatewayConfig, s: State, a: Action)
    requires WellFormed(s) && Enabled(cfg, s, a) && CallsDated(s, cfg.health)
    requires !a.Assign? && !a.Return?
    ensures CallsDated(Step(cfg, s, a), cfg.health)
  {
    hide Dated, CooledDown;
    var s', h := Step(cfg, s, a), cfg.health;
    forall id, i | 0 <= id < |s'.requests| && 0 <= i < |s'.backends| && Waits(s'.requests[id], i)
      ensures Dated(s'.requests[id], s'.backends[i], s'.clock, h)
    {
      assert id < |s.requests| && Waits(s.requests[id], i) && s'.requests[id].since == s.requests[id].since;
      StaysDated(s.requests[id], s.backends[i], s'.backends[i], s.clock, s'.clock, h);
      SameDate(s.requests[id], s'.requests[id], s'.backends[i], s'.clock, h);
    }
  }

  lemma SameDate(r: Request, r': Request, b: Backend, clock: real, h: HealthConfig)
    requires r.since == r'.since && Dated(r, b, clock, h)
    ensures Dated(r', b, clock, h)
  {
  }

  lemma {:induction false} RunDated(cfg: GatewayConfig, entries: seq<BackendEntry>, birth: real, s: State, acts: seq<Action>)
    requires SaneHealth(cfg.health) && WellFormed(s) && Feasible(cfg, s, acts)
    requires Historied(cfg, Rows(entries), birth, s) && CallsDated(s, cfg.health)
    ensures CallsDated(Run(cfg, s, acts), cfg.health)
    decreases |acts|
  {
    hide Step, Historied, CallsDated, AllTimely;
    if acts != [] {
      StepHistoried(cfg, Rows(entries), birth, s, acts[0]);
      StepDated(cfg, entries, birth, s, acts[0]);
      RunDated(cfg, entries, birth, Step(cfg, s, acts[0]), acts[1..]);
    }
  }

  /** Every step keeps each call under way older than the opening of its backend, or younger by a cooldown. */
  lemma StepDated(cfg: GatewayConfig, entries: seq<BackendEntry>, birth: real, s: State, a: Action)
    requires SaneHealth(cfg.health) && WellFormed(s) && Enabled(cfg, s, a)
    requires Historied(cfg, Rows(entries), birth, s) && CallsDated(s, cfg.health)
    ensures CallsDated(Step(cfg, s, a), cfg.health)
  {
    hide Historied, CallsDated, AllTimely, AssignAll, ReturnStep;
    match a
    case Assign => AssignAllDated(cfg, entries, birth, s);
    case Return(id, o) =>
      HistoriedIsTimely(cfg, entries, birth, s);
      ReturnDated(cfg, s, id, o);
    case _ => OtherStepsDated(cfg, s, a);
  }

  // ---------- no call is made between the opening and the end of the cooldown ----------

  /** The circuit is open since `t0` and its cooldown is not over, or that end has passed. */
  predicate Barred(b: Backend, t0: real, clock: real, h: HealthConfig) {
    clock >= t0 + CooldownSec(h) || (b.circuit.Open? && b.openedAt == Some(t0))
  }

  /** The calls of backend `i` made before `limit` that are under way later were under way already. */
  predicate NoNewCalls(s: State, s': State, i: nat, limit: real) {
    forall id :: 0 <= id < |s'.requests| && Waits(s'.requests[id], i) && s'.requests[id].since < limit ==>
      id < |s.requests| && Waits(s.requests[id], i) && s.requests[id].since == s'.requests[id].since
  }

  lemma BarredIsClosedToAll(b: Backend, t0: real, now: real, h: HealthConfig)
    requires Barred(b, t0, now, h) && now < t0 + CooldownSec(h)
    ensures !Eligible(b, h, now) && AfterCooldownCheck(b, h, now) == b
  {
  }

  /** What the code does to a barred backend leaves it barred. */
  lemma StaysBarred(b: Backend, t0: real, now: real, h: HealthConfig, o: Outcome, stream: bool, cl: RequestClass)
    requires Barred(b, t0, now, h)
    ensures Barred(AfterCooldownCheck(b, h, now), t0, now, h)
    ensures Barred(AfterOutcome(b, o, stream, h, now), t0, now, h)
    ensures Barred(AfterRelease(b, cl), t0, now, h)
    ensures Barred(TakeSlot(b, cl, now), t0, now, h)
  {
  }

  lemma PlaceStaysBarred(cfg: GatewayConfig, bs: seq<Backend>, cl: RequestClass, now: real, avoid: Option<string>, i: nat, t0: real)
    requires i < |bs| && Barred(bs[i], t0, now, cfg.health)
    ensures var pl := Place(cfg, bs, cl, now, avoid);
      && Barred(pl.backends[i], t0, now, cfg.health)
      && (pl.target == Some(i) ==> now >= t0 + CooldownSec(cfg.health))
  {
    hide Place, Eligible, CooledDown, Barred, TakeSlot;
    PlaceTakesOneEligibleSlot(cfg, bs, cl, now, avoid);
    StaysBarred(bs[i], t0, now, cfg.health, Transport, false, cl);
    StaysBarred(AfterCooldownCheck(bs[i], cfg.health, now), t0, now, cfg.health, Transport, false, cl);
    if now < t0 + CooldownSec(cfg.health) {
      BarredIsClosedToAll(bs[i], t0, now, cfg.health);
    }
  }

  lemma AssignNextBarred(cfg: GatewayConfig, s: State, i: nat, t0: real)
    requires WellFormed(s) && s.phase.Holding? && s.phase.rest != []
    requires i < |s.backends| && Barred(s.backends[i], t0, s.clock, cfg.health)
    ensures var s' := AssignNext(cfg, s);
      && i < |s'.backends| && Barred(s'.backends[i], t0, s'.clock, cfg.health)
      && NoNewCalls(s, s', i, t0 + CooldownSec(cfg.health))
  {
    hide Place, VerdictEvents, TooOld, Barred, CooldownSec;
    PlaceStaysBarred(cfg, s.backends, s.requests[Head(s)].cl, s.clock, None, i, t0);
  }

  lemma {:induction false} AssignAllBarred(cfg: GatewayConfig, s: State, i: nat, t0: real)
    requires WellFormed(s) && s.phase.Holding?
    requires i < |s.backends| && Barred(s.backends[i], t0, s.clock, cfg.health)
    ensures var s' := AssignAll(cfg, s);
      && i < |s'.backends| && Barred(s'.backends[i], t0, s'.clock, cfg.health)
      && NoNewCalls(s, s', i, t0 + CooldownSec(cfg.health))
    decreases |s.phase.rest|
  {
    hide AssignNext, Barred, CooldownSec;
    if s.phase.rest != [] {
      AssignNextBarred(cfg, s, i, t0);
      AssignAllBarred(cfg, AssignNext(cfg, s), i, t0);
    }
  }

  lemma ReturnBarred(cfg: GatewayConfig, s: State, id: nat, o: Outcome, i: nat, t0: real)
    requires WellFormed(s) && Enabled(cfg, s, Return(id, o))
    requires i < |s.backends| && Barred(s.backends[i], t0, s.clock, cfg.health)
    ensures var s' := ReturnStep(cfg, s, id, o);
      && i < |s'.backends| && Barred(s'.backends[i], t0, s'.clock, cfg.health)
      && NoNewCalls(s, s', i, t0 + CooldownSec(cfg.health))
  {
    hide Resume, ReturnEvents, ReleasesTwice, Barred, CooldownSec, Place, WantsRetry, AfterOutcome, AfterRelease;
    var r, bs, h, now := s.requests[id], s.backends, cfg.health, s.clock;
    ResumeCases(cfg, bs, r.work.at, r.cl, r.stream, r.work.attempts, o, now);
    var noted := Noted(bs, r.work.at, o, r.stream, h, now);
    var rel := Released(noted, r.work.at, r.cl);
    StaysBarred(bs[i], t0, now, h, o, r.stream, r.cl);
    StaysBarred(noted[i], t0, now, h, o, r.stream, r.cl);
    var pl := Place(cfg, rel, r.cl, now, Avoid(bs, r.work.at));
    PlaceStaysBarred(cfg, rel, r.cl, now, Avoid(bs, r.work.at), i, t0);
    StaysBarred(pl.backends[i], t0, now, h, o, r.stream, r.cl);
  }

  lemma StepBarred(cfg: GatewayConfig, s: State, a: Action, i: nat, t0: real)
    requires WellFormed(s) && Enabled(cfg, s, a)
    requires i < |s.backends| && Barred(s.backends[i], t0, s.clock, cfg.health)
    ensures var s' := Step(cfg, s, a);
      && i < |s'.backends| && Barred(s'.backends[i], t0, s'.clock, cfg.health)
      && NoNewCalls(s, s', i, t0 + CooldownSec(cfg.health))
  {
    hide AssignAll, ReturnStep, CooldownSec;
    match a
    case Assign => AssignAllBarred(cfg, s, i, t0);
    case Return(id, o) => ReturnBarred(cfg, s, id, o, i, t0);
    case Sweep => StaysBarred(s.backends[i], t0, s.clock, cfg.health, Transport, false, SmallChat);
    case _ =>
  }

  lemma {:induction false} RunBarred(cfg: GatewayConfig, s: State, acts: seq<Action>, i: nat, t0: real)
    requires WellFormed(s) && Feasible(cfg, s, acts)
    requires i < |s.backends| && Barred(s.backends[i], t0, s.clock, cfg.health)
    ensures var s' := Run(cfg, s, acts);
      && i < |s'.backends| && Barred(s'.backends[i], t0, s'.clock, cfg.health)
      && NoNewCalls(s, s', i, t0 + CooldownSec(cfg.health))
    decreases |acts|
  {
    hide Step, Barred, CooldownSec;
    if acts != [] {
      StepBarred(cfg, s, acts[0], i, t0);
      RunBarred(cfg, Step(cfg, s, acts[0]), acts[1..], i, t0);
    }
  }

  // ---------- closing by something other than a probe ----------

  /** A call that the checks let through after the cooldown of the opening at `t0`. */
  predicate IsProbe(r: Request, t0: real, h: HealthConfig) { r.since >= t0 + CooldownSec(h) }

  /** After `acts`, with the circuit of backend `i` still as it opened at `t0`, a call that is no probe is answered. */
  ghost predicate AnsweredByOther(cfg: GatewayConfig, s: State, acts: seq<Action>, id: nat, o: Outcome, i: nat, t0: real)
    requires WellFormed(s)
  {
    Feasible(cfg, s, acts) &&
    var s' := Run(cfg, s, acts);
    && Enabled(cfg, s', Return(id, o)) && Waits(s'.requests[id], i)
    && !IsProbe(s'.requests[id], t0, cfg.health)
    && i < |s'.backends| && !s'.backends[i].circuit.Closed? && s'.backends[i].openedAt == Some(t0)
  }

  /** That answer closes the circuit. */
  ghost predicate ClosesByOther(cfg: GatewayConfig, s: State, acts: seq<Action>, id: nat, o: Outcome, i: nat, t0: real)
    requires WellFormed(s)
  {
    AnsweredByOther(cfg, s, acts, id, o, i, t0) &&
    var s' := Step(cfg, Run(cfg, s, acts), Return(id, o));
    i < |s'.backends| && s'.backends[i].circuit.Closed?
  }

  /** It opens the circuit, half-open until then, anew: the cooldown starts over and the probes are forgotten. */
  ghost predicate ReopensByOther(cfg: GatewayConfig, s: State, acts: seq<Action>, id: nat, o: Outcome, i: nat, t0: real)
    requires WellFormed(s)
  {
    AnsweredByOther(cfg, s, acts, id, o, i, t0) &&
    var s' := Run(cfg, s, acts);
    var s'' := Step(cfg, s', Return(id, o));
    && s'.backends[i].circuit.HalfOpen?
    && i < |s''.backends| && s''.backends[i].circuit.Open? && s''.backends[i].openedAt == Some(s'.clock)
    && s''.backends[i].probes == 0
  }

  /** Somebody still waits for an answer to a call made no later than `t0`. */
  predicate StaleCall(s: State, i: nat, t0: real) {
    exists id :: 0 <= id < |s.requests| && Waits(s.requests[id], i) && s.requests[id].since <= t0
  }

  /** Wait out the cooldown and sweep; then the late answer closes the circuit, and a late failure opens it anew. */
  lemma StaleAnswerCloses(cfg: GatewayConfig, s: State, i: nat, id: nat, t0: real) returns (acts: seq<Action>)
    requires WellFormed(s) && SaneHealth(cfg.health) && i < |s.backends| && id < |s.requests|
    requires Waits(s.requests[id], i) && s.requests[id].since <= t0
    requires !s.backends[i].circuit.Closed? && s.backends[i].openedAt == Some(t0)
    ensures ClosesByOther(cfg, s, acts, id, Headers(200, 0.0), i, t0)
    ensures ReopensByOther(cfg, s, acts, id, Transport, i, t0)
  {
    hide Feasible, Run, ReleasesTwice, ReturnEvents, Resume;
    var wait, r := t0 + CooldownSec(cfg.health) - s.clock, s.requests[id];
    var pass := Advance(if wait > 0.0 then wait else 0.0);
    var s1 := Step(cfg, s, pass);
    var s2 := Step(cfg, s1, Sweep);
    Waited(s.backends[i], cfg.health, s1.clock);
    AnswerCloses(cfg, s2.backends, i, r.cl, r.stream, r.work.attempts, s2.clock);
    FailureReopens(cfg, s2.backends, i, r.cl, r.stream, r.work.attempts, s2.clock);
    RunOfTwo(cfg, s, pass, Sweep);
    acts := [pass, Sweep];
  }

  lemma FailureReopens(cfg: GatewayConfig, bs: seq<Backend>, i: nat, cl: RequestClass, stream: bool, attempts: nat, now: real)
    requires i < |bs| && bs[i].circuit.HalfOpen?
    ensures var b := Resume(cfg, bs, Some(i), cl, stream, attempts, Transport, now).backends[i];
      b.circuit.Open? && b.openedAt == Some(now) && b.probes == 0
  {
    hide Resume, Place, WantsRetry, Eligible;
    ResumeCases(cfg, bs, Some(i), cl, stream, attempts, Transport, now);
    OthersUntouched(bs, Some(i), Transport, cl, stream, cfg.health, now, i);
    var rel := Released(Noted(bs, Some(i), Transport, stream, cfg.health, now), Some(i), cl);
    PlaceTakesOneEligibleSlot(cfg, rel, cl, now, Avoid(bs, Some(i)));
  }

  /** In a run: the circuit is barred to new calls, and the calls under way made after the opening are probes. */
  lemma StaleOrProbe(cfg: GatewayConfig, entries: seq<BackendEntry>, birth: real, before: seq<Action>, i: nat, t0: real)
    requires SaneHealth(cfg.health) && Feasible(cfg, Start(entries, birth), before)
    requires var s := Run(cfg, Start(entries, birth), before);
      i < |s.backends| && !s.backends[i].circuit.Closed? && s.backends[i].openedAt == Some(t0)
    ensures var s := Run(cfg, Start(entries, birth), before);
      && Barred(s.backends[i], t0, s.clock, cfg.health)
      && forall id :: 0 <= id < |s.requests| && Waits(s.requests[id], i) ==>
        s.requests[id].since <= t0 || IsProbe(s.requests[id], t0, cfg.health)
  {
    hide Run, Feasible, Historied;
    var s := Run(cfg, Start(entries, birth), before);
    StartHistoried(cfg, entries, birth);
    RunHistoried(cfg, Rows(entries), birth, Start(entries, birth), before);
    HistoriedIsTimely(cfg, entries, birth, s);
    RunDated(cfg, entries, birth, Start(entries, birth), before);
    forall id | 0 <= id < |s.requests| && Waits(s.requests[id], i)
      ensures s.requests[id].since <= t0 || IsProbe(s.requests[id], t0, cfg.health)
    {
      assert Dated(s.requests[id], s.backends[i], s.clock, cfg.health);
    }
  }

  /**
   * A circuit that opened at `t0` can be closed by the answer to a call other than a probe if and only if,
   * at this moment, somebody still waits for an answer to a call made before it opened. This holds of open
   * and of half-open circuits, in every state of every run.
   */
  lemma ClosesOnlyByProbe(cfg: GatewayConfig, entries: seq<BackendEntry>, birth: real, before: seq<Action>, i: nat, t0: real)
    requires SaneHealth(cfg.health) && Feasible(cfg, Start(entries, birth), before)
    requires var s := Run(cfg, Start(entries, birth), before);
      i < |s.backends| && !s.backends[i].circuit.Closed? && s.backends[i].openedAt == Some(t0)
    ensures var s := Run(cfg, Start(entries, birth), before);
      (forall acts, id, o :: !ClosesByOther(cfg, s, acts, id, o, i, t0)) <==> !StaleCall(s, i, t0)
  {
    hide Run, Feasible, Step, AnsweredByOther, Barred, IsProbe;
    var s := Run(cfg, Start(entries, birth), before);
    StaleOrProbe(cfg, entries, birth, before, i, t0);
    if StaleCall(s, i, t0) {
      var id :| 0 <= id < |s.requests| && Waits(s.requests[id], i) && s.requests[id].since <= t0;
      var acts := StaleAnswerCloses(cfg, s, i, id, t0);
    } else {
      forall acts, id, o
        ensures !ClosesByOther(cfg, s, acts, id, o, i, t0)
      {
        OnlyStaleCallsAnswer(cfg, s, acts, id, o, i, t0);
      }
    }
  }

  /** The same of opening it anew by a failure: it is a probe's unless a call made before the opening still waits. */
  lemma ReopensOnlyByProbe(cfg: GatewayConfig, entries: seq<BackendEntry>, birth: real, before: seq<Action>, i: nat, t0: real)
    requires SaneHealth(cfg.health) && Feasible(cfg, Start(entries, birth), before)
    requires var s := Run(cfg, Start(entries, birth), before);
      i < |s.backends| && !s.backends[i].circuit.Closed? && s.backends[i].openedAt == Some(t0)
    ensures var s := Run(cfg, Start(entries, birth), before);
      (forall acts, id, o :: !ReopensByOther(cfg, s, acts, id, o, i, t0)) <==> !StaleCall(s, i, t0)
  {
    hide Run, Feasible, Step, AnsweredByOther, Barred, IsProbe;
    var s := Run(cfg, Start(entries, birth), before);
    StaleOrProbe(cfg, entries, birth, before, i, t0);
    if StaleCall(s, i, t0) {
      var id :| 0 <= id < |s.requests| && Waits(s.requests[id], i) && s.requests[id].since <= t0;
      var acts := StaleAnswerCloses(cfg, s, i, id, t0);
    } else {
      forall acts, id, o
        ensures !ReopensByOther(cfg, s, acts, id, o, i, t0)
      {
        OnlyStaleCallsAnswer(cfg, s, acts, id, o, i, t0);
      }
    }
  }

  lemma OnlyStaleCallsAnswer(cfg: GatewayConfig, s: State, acts: seq<Action>, id: nat, o: Outcome, i: nat, t0: real)
    requires WellFormed(s) && i < |s.backends| && Barred(s.backends[i], t0, s.clock, cfg.health)
    requires forall id :: 0 <= id < |s.requests| && Waits(s.requests[id], i) ==> IsProbe(s.requests[id], t0, cfg.health)
    ensures !AnsweredByOther(cfg, s, acts, id, o, i, t0)
  {
    hide Run, Feasible, Step, Barred, CooldownSec;
    if Feasible(cfg, s, acts) {
      RunBarred(cfg, s, acts, i, t0);
    }
  }
}
