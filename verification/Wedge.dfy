/** Backends that no run dispatches to again, and the probe results that make them so. */
module Wedge {
  import opened Types
  import opened BackendState
  import opened Health
  import opened Registry
  import opened Dispatcher
  import opened Proxy
  import opened Trace
  import opened Gateway
  import opened History
  import opened Slots

  /** Shut out for a reason that only an outcome of a request in flight could lift. */
  predicate Stuck(b: Backend, h: HealthConfig) {
    || b.drained
    || b.errorRate > h.maxErrorRate
    || (b.circuit.HalfOpen? && b.probes >= h.halfOpenMaxInflight)
  }

  predicate NoHolder(rs: seq<Request>, i: nat) {
    forall id :: 0 <= id < |rs| ==> !Holds(rs[id], i)
  }

  /** Shut out, with nobody left whose outcome could change that. */
  predicate Wedged(cfg: GatewayConfig, s: State, i: nat) {
    i < |s.backends| && Stuck(s.backends[i], cfg.health) && NoHolder(s.requests, i)
  }

  lemma StuckIsNotEligible(b: Backend, h: HealthConfig, now: real)
    requires Stuck(b, h)
    ensures !Eligible(b, h, now) && Stuck(AfterCooldownCheck(b, h, now), h)
  {
  }

  /** A placement neither chooses a stuck backend nor unsticks it. */
  lemma PlaceLeavesStuck(cfg: GatewayConfig, bs: seq<Backend>, cl: RequestClass, now: real, avoid: Option<string>, i: nat)
    requires i < |bs| && Stuck(bs[i], cfg.health)
    ensures var pl := Place(cfg, bs, cl, now, avoid);
      pl.target != Some(i) && Stuck(pl.backends[i], cfg.health)
    ensures Dispatches(PlaceEvents(cfg, bs, cl, now, avoid, i)) == 0
  {
    hide Place, Eligible, CooledDown, Stuck;
    PlaceTakesOneEligibleSlot(cfg, bs, cl, now, avoid);
    StuckIsNotEligible(bs[i], cfg.health, now);
    OneEvent(Event(now, Check));
  }

  lemma NoDispatchIn(log: seq<Event>, es: seq<Event>)
    requires Dispatches(es) == 0
    ensures Dispatches(log + es) == Dispatches(log)
  {
    CountConcat(log, es, IsDispatch);
  }

  lemma AssignNextWedged(cfg: GatewayConfig, s: State, i: nat)
    requires WellFormed(s) && s.phase.Holding? && s.phase.rest != [] && Wedged(cfg, s, i)
    ensures var s' := AssignNext(cfg, s); Wedged(cfg, s', i) && Dispatches(s'.logs[i]) == Dispatches(s.logs[i])
  {
    hide Place, PlaceEvents, TooOld, Stuck, Dispatches;
    var r := s.requests[Head(s)];
    PlaceLeavesStuck(cfg, s.backends, r.cl, s.clock, None, i);
    OneEvent(Event(s.clock, Check));
    NoDispatchIn(s.logs[i], VerdictEvents(cfg, s.backends, TicketOf(r), s.clock, i));
  }

  lemma {:induction false} AssignAllWedged(cfg: GatewayConfig, s: State, i: nat)
    requires WellFormed(s) && s.phase.Holding? && Wedged(cfg, s, i)
    ensures var s' := AssignAll(cfg, s); Wedged(cfg, s', i) && Dispatches(s'.logs[i]) == Dispatches(s.logs[i])
    decreases |s.phase.rest|
  {
    hide Wedged, AssignNext, Dispatches;
    if s.phase.rest != [] {
      AssignNextWedged(cfg, s, i);
      AssignAllWedged(cfg, AssignNext(cfg, s), i);
    }
  }

  /** The return of a call that was made elsewhere. */
  lemma ReturnWedged(cfg: GatewayConfig, s: State, id: nat, o: Outcome, i: nat)
    requires WellFormed(s) && Enabled(cfg, s, Return(id, o)) && Wedged(cfg, s, i)
    ensures var s' := ReturnStep(cfg, s, id, o); Wedged(cfg, s', i) && Dispatches(s'.logs[i]) == Dispatches(s.logs[i])
  {
    hide Resume, ReturnEvents, ReleasesTwice, Stuck, Dispatches;
    var r := s.requests[id];
    assert !Holds(r, i);
    ReturnElsewhere(cfg, s.backends, r.work.at, r.cl, r.stream, r.work.attempts, o, s.clock, i);
    NoDispatchIn(s.logs[i], ReturnEvents(cfg, s.backends, r.work.at, r.cl, r.stream, r.work.attempts, o, s.clock, i));
  }

  lemma ReturnElsewhere(cfg: GatewayConfig, bs: seq<Backend>, at: Option<nat>, cl: RequestClass, stream: bool,
                        attempts: nat, o: Outcome, now: real, i: nat)
    requires i < |bs| && at != Some(i) && Stuck(bs[i], cfg.health)
    ensures var res := Resume(cfg, bs, at, cl, stream, attempts, o, now);
      res.next != Retry(i) && Stuck(res.backends[i], cfg.health)
    ensures Dispatches(ReturnEvents(cfg, bs, at, cl, stream, attempts, o, now, i)) == 0
  {
    hide Resume, Place, PlaceEvents, WantsRetry, Stuck, Avoid, Dispatches, AfterOutcome, AfterRelease;
    ResumeCases(cfg, bs, at, cl, stream, attempts, o, now);
    var rel := Released(Noted(bs, at, o, stream, cfg.health, now), at, cl);
    assert rel[i] == bs[i];
    PlaceLeavesStuck(cfg, rel, cl, now, Avoid(bs, at), i);
    OneEvent(Event(now, Check));
    var es := PlaceEvents(cfg, rel, cl, now, Avoid(bs, at), i);
    var none: seq<Event> := [];
    assert none + (none + es + none) == es && none + none == none;
  }

  /** No step dispatches to a wedged backend, and no step unwedges it. */
  lemma StepWedged(cfg: GatewayConfig, s: State, a: Action, i: nat)
    requires WellFormed(s) && Enabled(cfg, s, a) && Wedged(cfg, s, i)
    ensures var s' := Step(cfg, s, a); Wedged(cfg, s', i) && Dispatches(s'.logs[i]) == Dispatches(s.logs[i])
  {
    hide AssignAll, ReturnStep, Stuck, Dispatches, CooledDown;
    match a
    case Assign => AssignAllWedged(cfg, s, i);
    case Return(id, o) => ReturnWedged(cfg, s, id, o, i);
    case Sweep =>
      StuckIsNotEligible(s.backends[i], cfg.health, s.clock);
      OneEvent(Event(s.clock, Check));
      NoDispatchIn(s.logs[i], [Event(s.clock, Check)]);
    case StreamEnd(id, _) =>
      assert !Holds(s.requests[id], i);
      assert s.logs[i] + [] == s.logs[i];
    case _ =>
  }

  /** Absorbing: a wedged backend is never dispatched to again, on any continuation. */
  lemma {:induction false} WedgedForever(cfg: GatewayConfig, s: State, acts: seq<Action>, i: nat)
    requires WellFormed(s) && Feasible(cfg, s, acts) && Wedged(cfg, s, i)
    ensures var s' := Run(cfg, s, acts); Wedged(cfg, s', i) && Dispatches(s'.logs[i]) == Dispatches(s.logs[i])
    decreases |acts|
  {
    hide Step, Wedged, Dispatches;
    if acts != [] {
      StepWedged(cfg, s, acts[0], i);
      WedgedForever(cfg, Step(cfg, s, acts[0]), acts[1..], i);
    }
  }

  // ---------- how a probe ends ----------

  /** The error rate after the outcome of a probe. */
  function RateAfter(b: Backend, o: Outcome): real {
    if Succeeded(o) then 0.85 * b.errorRate else 0.25 + 0.75 * b.errorRate
  }

  /** An answer below 500 that is an error: it is reported neither as a success nor as a failure. */
  predicate ClientError(o: Outcome) { o.Headers? && 400 <= o.code < 500 }

  lemma ProbeOutcome(b: Backend, o: Outcome, cl: RequestClass, stream: bool, h: HealthConfig, now: real)
    requires b.circuit.HalfOpen? && b.probes >= h.halfOpenMaxInflight
    ensures var b' := AfterRelease(AfterOutcome(b, o, stream, h, now), cl);
      && (Stuck(b', h) <==> b.drained || ClientError(o) || RateAfter(b, o) > h.maxErrorRate)
      && b'.name == b.name
      && AfterRelease(b', cl).(inflight := 0, largeInflight := 0) == b'.(inflight := 0, largeInflight := 0)
  {
  }

  lemma SoleHolderGone(rs: seq<Request>, id: nat, r: Request, i: nat)
    requires id < |rs| && !Holds(r, i)
    requires forall j :: 0 <= j < |rs| && j != id ==> !Holds(rs[j], i)
    ensures NoHolder(rs[id := r], i)
  {
  }

  /**
   * A half-open backend whose whole probe budget is out, on a probe that returns with no other request in
   * flight there: it is wedged afterwards if and only if it is drained, the probe was answered with a 4xx,
   * or the probe leaves the error rate above the cap.
   */
  lemma ProbeDecides(cfg: GatewayConfig, s: State, id: nat, o: Outcome, i: nat)
    requires WellFormed(s) && Enabled(cfg, s, Return(id, o)) && s.requests[id].work.at == Some(i) && i < |s.backends|
    requires s.backends[i].circuit.HalfOpen? && s.backends[i].probes >= cfg.health.halfOpenMaxInflight
    requires forall j :: 0 <= j < |s.requests| && j != id ==> !Holds(s.requests[j], i)
    requires !(s.requests[id].stream && Succeeded(o))
    ensures Wedged(cfg, Step(cfg, s, Return(id, o)), i) <==>
      s.backends[i].drained || ClientError(o) || RateAfter(s.backends[i], o) > cfg.health.maxErrorRate
  {
    hide Resume, ReturnEvents, ReleasesTwice, Stuck, NoHolder, ClientError;
    var r, b := s.requests[id], s.backends[i];
    var s' := Step(cfg, s, Return(id, o));
    ReturnHere(cfg, s.backends, r.cl, r.stream, r.work.attempts, o, s.clock, i);
    ProbeOutcome(b, o, r.cl, r.stream, cfg.health, s.clock);
    SoleHolderGone(s.requests, id, s'.requests[id], i);
    var b' := AfterRelease(AfterOutcome(b, o, r.stream, cfg.health, s.clock), r.cl);
    StuckIgnoresSlots(s'.backends[i], b', cfg.health);
  }

  /** So one probe answered with a 4xx takes the backend out for good. */
  lemma ClientErrorWedges(cfg: GatewayConfig, s: State, id: nat, o: Outcome, i: nat, acts: seq<Action>)
    requires WellFormed(s) && Enabled(cfg, s, Return(id, o)) && s.requests[id].work.at == Some(i) && i < |s.backends|
    requires s.backends[i].circuit.HalfOpen? && s.backends[i].probes >= cfg.health.halfOpenMaxInflight
    requires forall j :: 0 <= j < |s.requests| && j != id ==> !Holds(s.requests[j], i)
    requires ClientError(o) && Feasible(cfg, Step(cfg, s, Return(id, o)), acts)
    ensures var s' := Step(cfg, s, Return(id, o));
      i < |s'.logs| == |Run(cfg, s', acts).logs| && Dispatches(Run(cfg, s', acts).logs[i]) == Dispatches(s'.logs[i])
  {
    hide Step, Run, Feasible, Dispatches;
    ProbeDecides(cfg, s, id, o, i);
    WedgedForever(cfg, Step(cfg, s, Return(id, o)), acts, i);
    RunGrows(cfg, Step(cfg, s, Return(id, o)), acts);
  }

  lemma StuckIgnoresSlots(b: Backend, b': Backend, h: HealthConfig)
    requires b.(inflight := 0, largeInflight := 0) == b'.(inflight := 0, largeInflight := 0)
    ensures Stuck(b, h) == Stuck(b', h)
  {
    assert b.drained == b.(inflight := 0, largeInflight := 0).drained == b'.drained;
    assert b.errorRate == b.(inflight := 0, largeInflight := 0).errorRate == b'.errorRate;
    assert b.circuit == b.(inflight := 0, largeInflight := 0).circuit == b'.circuit;
    assert b.probes == b.(inflight := 0, largeInflight := 0).probes == b'.probes;
  }

  /** The backend a call returns from is not the one it is retried on, and only loses slots. */
  lemma ReturnHere(cfg: GatewayConfig, bs: seq<Backend>, cl: RequestClass, stream: bool, attempts: nat, o: Outcome, now: real, i: nat)
    requires i < |bs| && !(stream && Succeeded(o))
    ensures var res := Resume(cfg, bs, Some(i), cl, stream, attempts, o, now);
      && res.next != Retry(i) && !res.next.OpenStream?
      && res.backends[i].(inflight := 0, largeInflight := 0)
         == AfterRelease(AfterOutcome(bs[i], o, stream, cfg.health, now), cl).(inflight := 0, largeInflight := 0)
  {
    hide Resume, Place, WantsRetry, AfterOutcome, Eligible;
    ResumeCases(cfg, bs, Some(i), cl, stream, attempts, o, now);
    OthersUntouched(bs, Some(i), o, cl, stream, cfg.health, now, i);
    var rel := Released(Noted(bs, Some(i), o, stream, cfg.health, now), Some(i), cl);
    PlaceTakesOneEligibleSlot(cfg, rel, cl, now, Avoid(bs, Some(i)));
  }
}
