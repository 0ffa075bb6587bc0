/** Every dispatch in a backend's log is accounted for: the assignment of one request, or one retry. */
module Accounting {
  import opened Types
  import opened BackendState
  import opened Registry
  import opened Dispatcher
  import opened Proxy
  import opened Trace
  import opened Gateway
  import opened Recovery

  /** The requests that the scheduler assigned to backend `i`. */
  function AssignedTo(rs: seq<Request>, i: nat): nat {
    if rs == [] then 0 else AssignedTo(rs[..|rs| - 1], i) + (if rs[|rs| - 1].fate == Assigned(i) then 1 else 0)
  }

  lemma {:induction false} AssignedUpdate(rs: seq<Request>, id: nat, r: Request, i: nat)
    requires id < |rs|
    ensures AssignedTo(rs[id := r], i)
            == AssignedTo(rs, i) - (if rs[id].fate == Assigned(i) then 1 else 0) + (if r.fate == Assigned(i) then 1 else 0)
  {
    var n := |rs| - 1;
    if id < n {
      assert rs[id := r][..n] == rs[..n][id := r];
      AssignedUpdate(rs[..n], id, r, i);
    } else {
      assert rs[id := r][..n] == rs[..n];
    }
  }

  /** The backend that a step retries a call on. */
  function RetriedOn(cfg: GatewayConfig, s: State, a: Action): Option<nat>
    requires WellFormed(s) && Enabled(cfg, s, a)
  {
    if !a.Return? then None
    else
      var r := s.requests[a.id];
      var next := Resume(cfg, s.backends, r.work.at, r.cl, r.stream, r.work.attempts, a.outcome, s.clock).next;
      if next.Retry? then Some(next.target) else None
  }

  /** How many dispatches to backend `i` the ticks of a run log, and how many its retries. */
  function ByTicks(cfg: GatewayConfig, s: State, acts: seq<Action>, i: nat): int
    requires WellFormed(s) && Feasible(cfg, s, acts) && i < |s.logs|
    decreases |acts|
  {
    if acts == [] then 0
    else
      var s' := Step(cfg, s, acts[0]);
      if i < |s'.logs| then
        (if acts[0].Assign? then Dispatches(s'.logs[i]) - Dispatches(s.logs[i]) else 0) + ByTicks(cfg, s', acts[1..], i)
      else 0
  }

  function ByRetries(cfg: GatewayConfig, s: State, acts: seq<Action>, i: nat): nat
    requires WellFormed(s) && Feasible(cfg, s, acts)
    decreases |acts|
  {
    if acts == [] then 0
    else (if RetriedOn(cfg, s, acts[0]) == Some(i) then 1 else 0) + ByRetries(cfg, Step(cfg, s, acts[0]), acts[1..], i)
  }

  /** What a step adds to the log and to the assigned requests of backend `i`. */
  predicate Accounted(cfg: GatewayConfig, s: State, s': State, i: nat, retried: bool) {
    && i < |s.logs| == |s'.logs|
    && Dispatches(s'.logs[i]) - Dispatches(s.logs[i])
       == AssignedTo(s'.requests, i) - AssignedTo(s.requests, i) + (if retried then 1 else 0)
  }

  lemma AssignNextAccounted(cfg: GatewayConfig, s: State, i: nat)
    requires WellFormed(s) && s.phase.Holding? && s.phase.rest != [] && i < |s.backends|
    ensures Accounted(cfg, s, AssignNext(cfg, s), i, false)
  {
    hide Place, PlaceEvents, TooOld, Dispatches;
    var s', id := AssignNext(cfg, s), Head(s);
    var r := s.requests[id];
    PlaceLogsItsDispatch(cfg, s.backends, r.cl, s.clock, None, i);
    DispatchesAdd(s.logs[i], VerdictEvents(cfg, s.backends, TicketOf(r), s.clock, i));
    OneEvent(Event(s.clock, Check));
    AssignedUpdate(s.requests, id, s'.requests[id], i);
  }

  lemma {:induction false} AssignAllAccounted(cfg: GatewayConfig, s: State, i: nat)
    requires WellFormed(s) && s.phase.Holding? && i < |s.backends|
    ensures Accounted(cfg, s, AssignAll(cfg, s), i, false)
    decreases |s.phase.rest|
  {
    hide AssignNext, Dispatches;
    if s.phase.rest != [] {
      AssignNextAccounted(cfg, s, i);
      AssignAllAccounted(cfg, AssignNext(cfg, s), i);
    }
  }

  /** The events of a returning call contain a dispatch exactly where it is retried. */
  lemma ReturnLogsItsRetry(cfg: GatewayConfig, bs: seq<Backend>, at: Option<nat>, cl: RequestClass, stream: bool,
                           attempts: nat, o: Outcome, now: real, i: nat)
    requires i < |bs|
    ensures Dispatches(ReturnEvents(cfg, bs, at, cl, stream, attempts, o, now, i))
            == if Resume(cfg, bs, at, cl, stream, attempts, o, now).next == Retry(i) then 1 else 0
  {
    hide Resume, Place, PlaceEvents, WantsRetry, Avoid, Dispatches, OutcomeEvents, ReleaseEvents;
    ResumeCases(cfg, bs, at, cl, stream, attempts, o, now);
    var rel := Released(Noted(bs, at, o, stream, cfg.health, now), at, cl);
    var outcome, release := OutcomeEvents(at, o, stream, now, i), ReleaseEvents(at, cl, now, i);
    var place := PlaceEvents(cfg, rel, cl, now, Avoid(bs, at), i);
    var none: seq<Event> := [];
    OneEvent(Event(now, Check));
    NoDispatchNoted(at, o, stream, now, i);
    NoDispatchReleased(at, cl, now, i);
    PlaceLogsItsDispatch(cfg, rel, cl, now, Avoid(bs, at), i);
    DispatchesAdd(release, place);
    DispatchesAdd(release + place, release);
    DispatchesAdd(release + place, none);
    DispatchesAdd(outcome, release + place + release);
    DispatchesAdd(outcome, release + place + none);
    DispatchesAdd(outcome, release);
    DispatchesAdd(outcome, none);
  }

  lemma NoDispatchNoted(at: Option<nat>, o: Outcome, stream: bool, now: real, i: nat)
    ensures Dispatches(OutcomeEvents(at, o, stream, now, i)) == 0
  {
    hide Dispatches;
    var es := OutcomeEvents(at, o, stream, now, i);
    OneEvent(Event(now, Check));
    if es != [] {
      OneEvent(es[0]);
      assert |es| == 1 ==> es == [es[0]];
      if |es| == 2 {
        OneEvent(es[1]);
        DispatchesAdd([es[0]], [es[1]]);
        assert es == [es[0]] + [es[1]];
      }
    }
  }

  lemma NoDispatchReleased(at: Option<nat>, cl: RequestClass, now: real, i: nat)
    ensures Dispatches(ReleaseEvents(at, cl, now, i)) == 0
  {
    hide Dispatches;
    OneEvent(Event(now, Release(cl)));
  }

  lemma ReturnAccounted(cfg: GatewayConfig, s: State, id: nat, o: Outcome, i: nat)
    requires WellFormed(s) && Enabled(cfg, s, Return(id, o)) && i < |s.backends|
    ensures Accounted(cfg, s, ReturnStep(cfg, s, id, o), i, RetriedOn(cfg, s, Return(id, o)) == Some(i))
  {
    hide Resume, ReturnEvents, ReleasesTwice, Dispatches;
    var r, s' := s.requests[id], ReturnStep(cfg, s, id, o);
    ReturnLogsItsRetry(cfg, s.backends, r.work.at, r.cl, r.stream, r.work.attempts, o, s.clock, i);
    DispatchesAdd(s.logs[i], ReturnEvents(cfg, s.backends, r.work.at, r.cl, r.stream, r.work.attempts, o, s.clock, i));
    AssignedUpdate(s.requests, id, s'.requests[id], i);
  }

  lemma StreamEndAccounted(cfg: GatewayConfig, s: State, id: nat, e2eMs: real, i: nat)
    requires WellFormed(s) && Enabled(cfg, s, StreamEnd(id, e2eMs)) && i < |s.backends|
    ensures Accounted(cfg, s, StreamEndStep(s, id, e2eMs), i, false)
  {
    hide Dispatches;
    var r, s' := s.requests[id], StreamEndStep(s, id, e2eMs);
    var good, rel := Event(s.clock, GoodSample(None, e2eMs)), Event(s.clock, Release(r.cl));
    OneEvent(good);
    OneEvent(rel);
    DispatchesAdd([good], [rel]);
    assert [good] + [rel] == [good, rel];
    DispatchesAdd(s.logs[i], if r.work.at == Some(i) then [good, rel] else []);
    AssignedUpdate(s.requests, id, s'.requests[id], i);
  }

  /** Each step: the dispatches it logs are the requests it assigns, and its retry. */
  lemma StepAccounted(cfg: GatewayConfig, s: State, a: Action, i: nat)
    requires WellFormed(s) && Enabled(cfg, s, a) && i < |s.backends|
    ensures Accounted(cfg, s, Step(cfg, s, a), i, RetriedOn(cfg, s, a) == Some(i))
  {
    hide AssignAll, ReturnStep, StreamEndStep, Dispatches, FallbackOr, Resume;
    var s' := Step(cfg, s, a);
    match a
    case Arrive(_, _) => assert s'.requests[..|s.requests|] == s.requests;
    case Sweep =>
      OneEvent(Event(s.clock, Check));
      DispatchesAdd(s.logs[i], [Event(s.clock, Check)]);
    case Assign => AssignAllAccounted(cfg, s, i);
    case TimeOut(id) => AssignedUpdate(s.requests, id, s'.requests[id], i);
    case Wake(id) => AssignedUpdate(s.requests, id, s'.requests[id], i);
    case Return(id, o) => ReturnAccounted(cfg, s, id, o, i);
    case StreamEnd(id, e2e) => StreamEndAccounted(cfg, s, id, e2e, i);
    case _ =>
  }

  lemma {:induction false} RunAccounted(cfg: GatewayConfig, s: State, acts: seq<Action>, i: nat)
    requires WellFormed(s) && Feasible(cfg, s, acts) && i < |s.logs|
    ensures var s' := Run(cfg, s, acts);
      && |s'.logs| == |s.logs|
      && ByTicks(cfg, s, acts, i) == AssignedTo(s'.requests, i) - AssignedTo(s.requests, i)
      && Dispatches(s'.logs[i]) - Dispatches(s.logs[i]) == ByTicks(cfg, s, acts, i) + ByRetries(cfg, s, acts, i)
    decreases |acts|
  {
    hide Step, Dispatches, AssignedTo;
    if acts != [] {
      var s' := Step(cfg, s, acts[0]);
      StepAccounted(cfg, s, acts[0], i);
      NoOtherAssigns(cfg, s, acts[0], i);
      RunAccounted(cfg, s', acts[1..], i);
    }
  }

  /** Only ticks assign, and they retry nothing. */
  lemma NoOtherAssigns(cfg: GatewayConfig, s: State, a: Action, i: nat)
    requires WellFormed(s) && Enabled(cfg, s, a) && i < |s.backends|
    ensures a.Assign? ==> RetriedOn(cfg, s, a) == None
    ensures !a.Assign? ==> AssignedTo(Step(cfg, s, a).requests, i) == AssignedTo(s.requests, i)
  {
    hide AssignAll, FallbackOr, Resume, ReturnEvents, ReleasesTwice, Refreshed;
    var s' := Step(cfg, s, a);
    match a
    case Arrive(_, _) => assert s'.requests[..|s.requests|] == s.requests;
    case TimeOut(id) => AssignedUpdate(s.requests, id, s'.requests[id], i);
    case Wake(id) => AssignedUpdate(s.requests, id, s'.requests[id], i);
    case Return(id, _) => AssignedUpdate(s.requests, id, s'.requests[id], i);
    case StreamEnd(id, _) => AssignedUpdate(s.requests, id, s'.requests[id], i);
    case _ =>
  }

  /**
   * On every run, for every backend: the dispatches logged by ticks are as many as the requests whose future
   * resolved to it, and all other dispatches are retries, one each.
   */
  lemma DispatchesAccounted(cfg: GatewayConfig, entries: seq<BackendEntry>, birth: real, acts: seq<Action>, i: nat)
    requires Feasible(cfg, Start(entries, birth), acts) && i < |Rows(entries)|
    ensures var start := Start(entries, birth);
      var s := Run(cfg, start, acts);
      && i < |s.logs|
      && ByTicks(cfg, start, acts, i) == AssignedTo(s.requests, i)
      && Dispatches(s.logs[i]) == AssignedTo(s.requests, i) + ByRetries(cfg, start, acts, i)
  {
    hide Run, Feasible, Dispatches, ByTicks, ByRetries;
    OneEvent(Event(birth, Check));
    RunAccounted(cfg, Start(entries, birth), acts, i);
  }
}
