/**
 * The gateway as a transition system. A step is the code that one task runs between two suspensions;
 * steps of different requests, the scheduler and the clock interleave freely.
 *
 * The scheduling tick is split at its two queue operations (pop, assign, put back), so that the results
 * also hold if other tasks ran in between; `AtomicTicks` describes the runs in which none does.
 */
module Gateway {
  import opened Types
  import opened BackendState
  import opened Registry
  import opened Admission
  import opened Dispatcher
  import opened Proxy
  import opened Trace

  /** The dispatch outcome of a request: the state of its future, or the refusal of a full queue. */
  datatype Fate = Waiting | Assigned(backend: nat) | Aged | TimedOut | Refused

  datatype Answer = Served(reply: Reply) | QueueFull | QueueAge | NoBackend | StreamClosed

  /** What the handler of a request is doing. `at` is the registered backend called, None for the fallback. */
  datatype Work =
    | Suspended
    | Calling(at: Option<nat>, attempts: nat)
    | Relaying(at: Option<nat>)
    | Finished(answer: Answer)

  /** `since` is history: when the backend now called was taken for this request. */
  datatype Request = Request(cl: RequestClass, stream: bool, arrived: real, fate: Fate, work: Work, since: real)

  /** Where the scheduler is in its tick: between ticks, or holding a popped batch. */
  datatype Phase = Between | Holding(kept: seq<nat>, rest: seq<nat>)

  /**
   * A request is known by its arrival number. `logs` and `extra` are history: the events of each backend,
   * and how often each was given a slot back for which no second one had been taken.
   */
  datatype State = State(
    clock: real,
    backends: seq<Backend>,
    requests: seq<Request>,
    queue: seq<nat>,
    phase: Phase,
    logs: seq<seq<Event>>,
    extra: seq<nat>)

  datatype Action =
    | Arrive(cl: RequestClass, stream: bool)
    | Sweep
    | Pop
    | Assign
    | PutBack
    | TimeOut(id: nat)
    | Wake(id: nat)
    | Return(id: nat, outcome: Outcome)
    | StreamEnd(id: nat, e2eMs: real)
    | Advance(dt: real)

  /** The requests not yet disposed of by the scheduler, in the order in which it will look at them. */
  function Line(s: State): seq<nat> {
    match s.phase
    case Between => s.queue
    case Holding(kept, rest) => kept + rest + s.queue
  }

  predicate WellFormed(s: State) {
    && |s.logs| == |s.extra| == |s.backends|
    && (forall k :: 0 <= k < |Line(s)| ==> Line(s)[k] < |s.requests|)
  }

  /** After a refusal or a scheduling failure the handler turns to the fallback, or answers. */
  function FallbackOr(cfg: GatewayConfig, answer: Answer): Work {
    if !cfg.fallback.enabled then Finished(answer)
    else if !cfg.fallback.keySet then Finished(Served(FallbackUnavailable))
    else Calling(None, 1)
  }

  function TicketOf(r: Request): Ticket {
    Ticket(!r.fate.Waiting?, r.arrived, r.cl)
  }

  function AfterVerdict(r: Request, v: Verdict, now: real): Request {
    match v
    case Expired => r.(fate := Aged)
    case Dispatched(p) => r.(fate := Assigned(p), work := Calling(Some(p), 1), since := now)
    case _ => r
  }

  // ---------- the events behind each change of a backend ----------

  function PlaceEvents(cfg: GatewayConfig, bs: seq<Backend>, cl: RequestClass, now: real, avoid: Option<string>, i: nat): seq<Event>
    requires i < |bs|
  {
    (if Screened(bs[i], avoid) then [Event(now, Check)] else [])
    + (if Place(cfg, bs, cl, now, avoid).target == Some(i) then [Event(now, Dispatch(cl))] else [])
  }

  function VerdictEvents(cfg: GatewayConfig, bs: seq<Backend>, t: Ticket, now: real, i: nat): seq<Event>
    requires i < |bs|
  {
    if t.done || TooOld(cfg, t, now) then [] else PlaceEvents(cfg, bs, t.cl, now, None, i)
  }

  function OutcomeEvents(at: Option<nat>, o: Outcome, stream: bool, now: real, i: nat): seq<Event> {
    if at != Some(i) then []
    else if Succeeded(o) then
      [Event(now, Success), Event(now, GoodSample(Some(if stream then o.ms else MinReal(o.ms, 10000.0)), o.ms))]
    else if Faulted(o) then [Event(now, Failure), Event(now, BadSample)]
    else [Event(now, BadSample)]
  }

  function ReleaseEvents(at: Option<nat>, cl: RequestClass, now: real, i: nat): seq<Event> {
    if at == Some(i) then [Event(now, Release(cl))] else []
  }

  function ReturnEvents(cfg: GatewayConfig, bs: seq<Backend>, at: Option<nat>, cl: RequestClass, stream: bool,
                        attempts: nat, o: Outcome, now: real, i: nat): seq<Event>
    requires i < |bs|
  {
    var release := ReleaseEvents(at, cl, now, i);
    OutcomeEvents(at, o, stream, now, i)
    + (if Succeeded(o) then (if stream then [] else release)
       else if WantsRetry(cfg, stream, attempts, o) then
         var rel := Released(Noted(bs, at, o, stream, cfg.health, now), at, cl);
         release + PlaceEvents(cfg, rel, cl, now, Avoid(bs, at), i)
         + (if ReleasesTwice(cfg, bs, at, cl, stream, attempts, o, now) then release else [])
       else release)
  }

  // ---------- the steps ----------

  /** The request the tick looks at next. */
  function Head(s: State): (id: nat)
    requires WellFormed(s) && s.phase.Holding? && s.phase.rest != []
    ensures id == s.phase.rest[0] && id < |s.requests|
  {
    assert Line(s)[|s.phase.kept|] == s.phase.rest[0];
    s.phase.rest[0]
  }

  /** The next request of the held batch. */
  function AssignNext(cfg: GatewayConfig, s: State): (s': State)
    requires WellFormed(s) && s.phase.Holding? && s.phase.rest != []
    ensures WellFormed(s') && s'.phase.Holding? && |s'.phase.rest| == |s.phase.rest| - 1
  {
    var id, rest := Head(s), s.phase.rest[1..];
    var t := TicketOf(s.requests[id]);
    var (bs, v) := AssignOne(cfg, s.backends, t, s.clock);
    var kept := if v.Requeued? then s.phase.kept + [id] else s.phase.kept;
    var s' := s.(backends := bs,
       requests := s.requests[id := AfterVerdict(s.requests[id], v, s.clock)],
       phase := Holding(kept, rest),
       logs := seq(|s.logs|, i requires 0 <= i < |s.logs| && |s.logs| == |s.backends| =>
         s.logs[i] + VerdictEvents(cfg, s.backends, t, s.clock, i)));
    LineAfterAssign(s, s', v.Requeued?);
    s'
  }

  lemma LineAfterAssign(s: State, s': State, kept: bool)
    requires s.phase.Holding? && s.phase.rest != []
    requires s'.phase == Holding(if kept then s.phase.kept + [s.phase.rest[0]] else s.phase.kept, s.phase.rest[1..])
    requires s'.queue == s.queue
    ensures kept ==> Line(s') == Line(s)
    ensures !kept ==> Line(s') == Line(s)[..|s.phase.kept|] + Line(s)[|s.phase.kept| + 1..]
  {
  }

  /** The for loop of the tick: it never suspends, so the clock stands still. */
  function AssignAll(cfg: GatewayConfig, s: State): (s': State)
    requires WellFormed(s) && s.phase.Holding?
    ensures WellFormed(s') && s'.phase.Holding? && s'.phase.rest == []
    decreases |s.phase.rest|
  {
    if s.phase.rest == [] then s else AssignAll(cfg, AssignNext(cfg, s))
  }

  predicate Enabled(cfg: GatewayConfig, s: State, a: Action) {
    match a
    case Arrive(_, _) => true
    case Sweep => true
    case Pop => s.phase.Between?
    case Assign => s.phase.Holding? && s.phase.rest != []
    case PutBack => s.phase.Holding? && s.phase.rest == []
    case TimeOut(id) =>
      id < |s.requests| && s.requests[id].fate.Waiting? && TooOld(cfg, TicketOf(s.requests[id]), s.clock)
    case Wake(id) =>
      id < |s.requests| && s.requests[id].work.Suspended? && (s.requests[id].fate.Aged? || s.requests[id].fate.TimedOut?)
    case Return(id, _) => id < |s.requests| && s.requests[id].work.Calling?
    case StreamEnd(id, _) => id < |s.requests| && s.requests[id].work.Relaying?
    case Advance(dt) => dt >= 0.0
  }

  function ArriveStep(cfg: GatewayConfig, s: State, cl: RequestClass, stream: bool): State {
    if |s.queue| >= cfg.scheduler.queueMaxSize then
      s.(requests := s.requests + [Request(cl, stream, s.clock, Refused, FallbackOr(cfg, QueueFull), s.clock)])
    else
      s.(requests := s.requests + [Request(cl, stream, s.clock, Waiting, Suspended, s.clock)],
         queue := s.queue + [|s.requests|])
  }

  lemma LineAfterArrival(cfg: GatewayConfig, s: State, cl: RequestClass, stream: bool)
    requires WellFormed(s)
    ensures WellFormed(ArriveStep(cfg, s, cl, stream))
    ensures Line(ArriveStep(cfg, s, cl, stream))
            == Line(s) + (if |s.queue| >= cfg.scheduler.queueMaxSize then [] else [|s.requests|])
  {
    var s' := ArriveStep(cfg, s, cl, stream);
    assert Line(s') == Line(s) + (if |s.queue| >= cfg.scheduler.queueMaxSize then [] else [|s.requests|]);
    forall k | 0 <= k < |Line(s')|
      ensures Line(s')[k] < |s'.requests|
    {
      assert k < |Line(s)| ==> Line(s')[k] == Line(s)[k];
    }
  }

  function SweepStep(cfg: GatewayConfig, s: State): (s': State)
    requires WellFormed(s)
    ensures Line(s') == Line(s) && WellFormed(s')
  {
    s.(backends := Refreshed(s.backends, cfg.health, s.clock, None),
       logs := seq(|s.logs|, i requires 0 <= i < |s.logs| => s.logs[i] + [Event(s.clock, Check)]))
  }

  function PopStep(cfg: GatewayConfig, s: State): State {
    var n := BatchSize(|s.queue|, cfg.scheduler.dispatchBatchSize);
    if n == 0 then s else s.(queue := s.queue[n..], phase := Holding([], s.queue[..n]))
  }

  lemma LineAfterPop(cfg: GatewayConfig, s: State)
    requires s.phase.Between?
    ensures Line(PopStep(cfg, s)) == Line(s)
  {
  }

  function PutBackStep(s: State): State
    requires s.phase.Holding?
  {
    s.(queue := s.phase.kept + s.queue, phase := Between)
  }

  function TimeOutStep(s: State, id: nat): State
    requires id < |s.requests|
  {
    s.(requests := s.requests[id := s.requests[id].(fate := TimedOut)])
  }

  function WakeStep(cfg: GatewayConfig, s: State, id: nat): State
    requires id < |s.requests|
  {
    var r := s.requests[id];
    s.(requests := s.requests[id := r.(work := FallbackOr(cfg, if r.fate.Aged? then NoBackend else QueueAge))])
  }

  function AfterNext(w: Work, next: Next): Work
    requires w.Calling?
  {
    match next
    case Retry(p) => Calling(Some(p), w.attempts + 1)
    case OpenStream(_) => Relaying(w.at)
    case Answer(reply) => Finished(Served(reply))
  }

  function AfterReturn(r: Request, next: Next, now: real): Request
    requires r.work.Calling?
  {
    r.(work := AfterNext(r.work, next), since := if next.Retry? then now else r.since)
  }

  function ReturnStep(cfg: GatewayConfig, s: State, id: nat, o: Outcome): State
    requires WellFormed(s) && id < |s.requests| && s.requests[id].work.Calling?
  {
    var r, bs, now := s.requests[id], s.backends, s.clock;
    var at, n := r.work.at, r.work.attempts;
    var res := Resume(cfg, bs, at, r.cl, r.stream, n, o, now);
    s.(backends := res.backends,
       requests := s.requests[id := AfterReturn(r, res.next, now)],
       logs := seq(|s.logs|, i requires 0 <= i < |s.logs| && |s.logs| == |bs| =>
         s.logs[i] + ReturnEvents(cfg, bs, at, r.cl, r.stream, n, o, now, i)),
       extra := if at.Some? && at.value < |s.extra| && ReleasesTwice(cfg, bs, at, r.cl, r.stream, n, o, now)
                then s.extra[at.value := s.extra[at.value] + 1] else s.extra)
  }

  function StreamEndStep(s: State, id: nat, e2eMs: real): State
    requires WellFormed(s) && id < |s.requests| && s.requests[id].work.Relaying?
  {
    var r, now := s.requests[id], s.clock;
    s.(backends := AfterStreamEnd(s.backends, r.work.at, r.cl, e2eMs),
       requests := s.requests[id := r.(work := Finished(StreamClosed))],
       logs := seq(|s.logs|, i requires 0 <= i < |s.logs| =>
         s.logs[i] + (if r.work.at == Some(i) then [Event(now, GoodSample(None, e2eMs)), Event(now, Release(r.cl))] else [])))
  }

  function Step(cfg: GatewayConfig, s: State, a: Action): (s': State)
    requires WellFormed(s) && Enabled(cfg, s, a)
    ensures WellFormed(s')
  {
    match a
    case Arrive(cl, stream) => LineAfterArrival(cfg, s, cl, stream); ArriveStep(cfg, s, cl, stream)
    case Sweep => SweepStep(cfg, s)
    case Pop => LineAfterPop(cfg, s); SameLine(s, PopStep(cfg, s)); PopStep(cfg, s)
    case Assign => AssignAll(cfg, s)
    case PutBack => assert Line(PutBackStep(s)) == Line(s); SameLine(s, PutBackStep(s)); PutBackStep(s)
    case TimeOut(id) => SameLine(s, TimeOutStep(s, id)); TimeOutStep(s, id)
    case Wake(id) => SameLine(s, WakeStep(cfg, s, id)); WakeStep(cfg, s, id)
    case Return(id, o) => SameLine(s, ReturnStep(cfg, s, id, o)); ReturnStep(cfg, s, id, o)
    case StreamEnd(id, e2e) => SameLine(s, StreamEndStep(s, id, e2e)); StreamEndStep(s, id, e2e)
    case Advance(dt) => SameLine(s, AdvanceStep(s, dt)); AdvanceStep(s, dt)
  }

  function AdvanceStep(s: State, dt: real): State {
    s.(clock := s.clock + dt)
  }

  lemma SameLine(s: State, s': State)
    requires WellFormed(s) && Line(s') == Line(s) && |s'.requests| == |s.requests|
    requires |s'.logs| == |s'.extra| == |s'.backends|
    ensures WellFormed(s')
  {
    hide Line;
  }

  // ---------- runs ----------

  function Start(entries: seq<BackendEntry>, now: real): State {
    var bs := Rows(entries);
    State(now, bs, [], [], Between, seq(|bs|, i => []), seq(|bs|, i => 0))
  }

  /** The actions can be taken one after the other. */
  predicate Feasible(cfg: GatewayConfig, s: State, acts: seq<Action>)
    requires WellFormed(s)
    decreases |acts|
  {
    acts == [] || (Enabled(cfg, s, acts[0]) && Feasible(cfg, Step(cfg, s, acts[0]), acts[1..]))
  }

  function Run(cfg: GatewayConfig, s: State, acts: seq<Action>): (s': State)
    requires WellFormed(s) && Feasible(cfg, s, acts)
    ensures WellFormed(s')
    decreases |acts|
  {
    if acts == [] then s else Run(cfg, Step(cfg, s, acts[0]), acts[1..])
  }

  /** A run is its first step and the run of the rest. */
  lemma RunOfMore(cfg: GatewayConfig, s: State, a: Action, rest: seq<Action>)
    requires WellFormed(s) && Enabled(cfg, s, a) && Feasible(cfg, Step(cfg, s, a), rest)
    ensures Feasible(cfg, s, [a] + rest) && Run(cfg, s, [a] + rest) == Run(cfg, Step(cfg, s, a), rest)
  {
    hide Step, Enabled;
    assert ([a] + rest)[0] == a && ([a] + rest)[1..] == rest;
  }

  lemma RunOfTwo(cfg: GatewayConfig, s: State, a: Action, b: Action)
    requires WellFormed(s) && Enabled(cfg, s, a) && Enabled(cfg, Step(cfg, s, a), b)
    ensures Feasible(cfg, s, [a, b]) && Run(cfg, s, [a, b]) == Step(cfg, Step(cfg, s, a), b)
  {
    hide Step, Enabled;
    var s1 := Step(cfg, s, a);
    assert Feasible(cfg, Step(cfg, s1, b), []);
    RunOfMore(cfg, s1, b, []);
    RunOfMore(cfg, s, a, [b]);
    assert [a] + [b] == [a, b];
  }

  /** One run after another. */
  lemma {:induction false} RunConcat(cfg: GatewayConfig, s: State, acts: seq<Action>, more: seq<Action>)
    requires WellFormed(s) && Feasible(cfg, s, acts) && Feasible(cfg, Run(cfg, s, acts), more)
    ensures Feasible(cfg, s, acts + more) && Run(cfg, s, acts + more) == Run(cfg, Run(cfg, s, acts), more)
    decreases |acts|
  {
    hide Step, Enabled;
    if acts == [] {
      assert acts + more == more;
    } else {
      assert (acts + more)[0] == acts[0] && (acts + more)[1..] == acts[1..] + more;
      RunConcat(cfg, Step(cfg, s, acts[0]), acts[1..], more);
    }
  }
}
