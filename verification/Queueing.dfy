/** Queue order, exactly-once resolution, no overtaking and queue depth, over all runs. */
module Queueing {
  import opened Types
  import opened BackendState
  import opened Registry
  import opened Admission
  import opened Dispatcher
  import opened Proxy
  import opened Gateway

  /** Strictly increasing, so also free of duplicates. */
  predicate Ascending(line: seq<nat>) {
    forall a, b :: 0 <= a < b < |line| ==> line[a] < line[b]
  }

  /**
   * The line holds, in order of arrival and once each, every request whose future is pending; the others
   * in it are requests that timed out while waiting.
   */
  ghost predicate LineSound(s: State) {
    && Ascending(Line(s))
    && (forall k :: 0 <= k < |Line(s)| ==>
      Line(s)[k] < |s.requests| && (s.requests[Line(s)[k]].fate.Waiting? || s.requests[Line(s)[k]].fate.TimedOut?))
    && (forall id: nat :: id < |s.requests| && s.requests[id].fate.Waiting? ==> id in Line(s))
  }

  /** The fallback is enabled and its key is set. */
  predicate CallsFallback(cfg: GatewayConfig) { cfg.fallback.enabled && cfg.fallback.keySet }

  /** Which handlers may be in which state, given the fate of their future. */
  predicate WorkSound(cfg: GatewayConfig, n: nat, r: Request) {
    && (r.fate.Waiting? ==> r.work.Suspended?)
    && (r.work.Suspended? ==> r.fate.Waiting? || r.fate.Aged? || r.fate.TimedOut?)
    && (r.fate.Assigned? ==> r.fate.backend < n)
    && (r.work.Calling? ==>
      && 1 <= r.work.attempts <= cfg.retry.maxAttempts
      && (r.work.at.None? ==> r.work.attempts == 1 && CallsFallback(cfg) && !r.fate.Assigned?)
      && (r.work.at.Some? ==> r.work.at.value < n && (r.fate.Assigned? || (CallsFallback(cfg) && r.work.attempts >= 2))))
    && (r.work.Relaying? && r.work.at.Some? ==>
      r.work.at.value < n && (r.fate.Assigned? || (CallsFallback(cfg) && cfg.retry.maxAttempts >= 2)))
  }

  /** A request is only assigned once no earlier arrival is still waiting. */
  predicate NoOvertaking(s: State) {
    forall a, b :: 0 <= a < b < |s.requests| && s.requests[b].fate.Assigned? ==> !s.requests[a].fate.Waiting?
  }

  predicate ArrivalsOrdered(s: State) {
    && (forall a, b :: 0 <= a < b < |s.requests| ==> s.requests[a].arrived <= s.requests[b].arrived)
    && (forall a :: 0 <= a < |s.requests| ==> s.requests[a].arrived <= s.clock)
  }

  ghost predicate Orderly(cfg: GatewayConfig, s: State) {
    && WellFormed(s) && LineSound(s) && NoOvertaking(s) && ArrivalsOrdered(s)
    && (forall id :: 0 <= id < |s.requests| ==> WorkSound(cfg, |s.backends|, s.requests[id]))
  }

  /** Between steps a tick has either looked at none of its batch or at all of it. */
  predicate Steady(s: State) {
    s.phase.Holding? && s.phase.rest != [] ==> s.phase.kept == []
  }

  // ---------- the tick ----------

  /** Once a request has been put back, nothing is eligible for the rest of the tick. */
  predicate Blocked(cfg: GatewayConfig, s: State) {
    s.phase.Holding? && s.phase.kept != [] ==> FreeCapacity(s.backends, cfg.health, s.clock) == 0
  }

  lemma LineShrinks(line: seq<nat>, k: nat)
    requires Ascending(line) && k < |line|
    ensures var rest := line[..k] + line[k + 1..];
      Ascending(rest) && forall id :: id in rest <==> id in line && id != line[k]
  {
    var rest := line[..k] + line[k + 1..];
    forall id | id in line && id != line[k]
      ensures id in rest
    {
      var a :| 0 <= a < |line| && line[a] == id;
      assert rest[if a < k then a else a - 1] == id;
    }
  }

  /** With nobody put back so far, the request the tick looks at arrived before every other one waiting. */
  lemma HeadIsFirst(s: State)
    requires WellFormed(s) && LineSound(s)
    requires s.phase.Holding? && s.phase.kept == [] && s.phase.rest != []
    ensures forall a: nat :: a < Head(s) && a < |s.requests| ==> !s.requests[a].fate.Waiting?
  {
    assert Line(s)[0] == Head(s);
  }

  /** What one turn of the tick does to the line, the requests and the free capacity. */
  lemma AssignNextEffect(cfg: GatewayConfig, s: State)
    requires WellFormed(s) && s.phase.Holding? && s.phase.rest != []
    ensures var s', id := AssignNext(cfg, s), Head(s);
      var v := AssignOne(cfg, s.backends, TicketOf(s.requests[id]), s.clock).1;
      && s'.requests == s.requests[id := AfterVerdict(s.requests[id], v, s.clock)]
      && |s'.backends| == |s.backends| && s'.clock == s.clock
      && (v.Dispatched? ==> v.target < |s.backends|)
      && (v.Skipped? <==> !s.requests[id].fate.Waiting?)
      && |s.phase.kept| < |Line(s)| && id == Line(s)[|s.phase.kept|]
      && Line(s') == (if v.Requeued? then Line(s) else Line(s)[..|s.phase.kept|] + Line(s)[|s.phase.kept| + 1..])
      && s'.phase.kept == (if v.Requeued? then s.phase.kept + [id] else s.phase.kept)
      && (v.Dispatched? ==> FreeCapacity(s.backends, cfg.health, s.clock) > 0)
      && (v.Requeued? ==> FreeCapacity(s.backends, cfg.health, s.clock) == 0)
      && FreeCapacity(s'.backends, cfg.health, s.clock) <= FreeCapacity(s.backends, cfg.health, s.clock)
  {
    hide Place, FreeCapacity, VerdictEvents, TooOld;
    var s', id := AssignNext(cfg, s), Head(s);
    var t := TicketOf(s.requests[id]);
    PlaceSpendsOne(cfg, s.backends, t.cl, s.clock);
    LineAfterAssign(s, s', AssignOne(cfg, s.backends, t, s.clock).1.Requeued?);
  }

  /** A verdict on the request at position `k` of the line, which leaves the line unless it is put back. */
  lemma VerdictKeepsLine(s: State, s': State, k: nat, v: Verdict)
    requires LineSound(s) && WellFormed(s') && k < |Line(s)|
    requires var id := Line(s)[k];
      && id < |s.requests| && s'.requests == s.requests[id := AfterVerdict(s.requests[id], v, s.clock)]
      && (v.Skipped? <==> !s.requests[id].fate.Waiting?)
    requires Line(s') == (if v.Requeued? then Line(s) else Line(s)[..k] + Line(s)[k + 1..])
    ensures LineSound(s')
  {
    hide Line, WellFormed, Ascending;
    var line, line' := Line(s), Line(s');
    LineShrinks(line, k);
    forall m | 0 <= m < |line'|
      ensures line'[m] < |s'.requests| && (s'.requests[line'[m]].fate.Waiting? || s'.requests[line'[m]].fate.TimedOut?)
    {
      assert line'[m] in line' && line'[m] in line;
      InLine(s, line'[m]);
    }
  }

  lemma InLine(s: State, id: nat)
    requires LineSound(s) && id in Line(s)
    ensures id < |s.requests| && (s.requests[id].fate.Waiting? || s.requests[id].fate.TimedOut?)
  {
    hide Line, Ascending;
    var k :| 0 <= k < |Line(s)| && Line(s)[k] == id;
  }

  lemma VerdictKeepsOrder(s: State, s': State, id: nat, v: Verdict)
    requires NoOvertaking(s) && ArrivalsOrdered(s) && id < |s.requests| && s'.clock == s.clock
    requires s'.requests == s.requests[id := AfterVerdict(s.requests[id], v, s.clock)]
    requires v.Dispatched? ==> forall a :: 0 <= a < id ==> !s.requests[a].fate.Waiting?
    ensures NoOvertaking(s') && ArrivalsOrdered(s')
  {
  }

  lemma AssignNextOrderly(cfg: GatewayConfig, s: State)
    requires Orderly(cfg, s) && Blocked(cfg, s) && cfg.retry.maxAttempts >= 1
    requires s.phase.Holding? && s.phase.rest != []
    ensures var s' := AssignNext(cfg, s); Orderly(cfg, s') && Blocked(cfg, s')
    ensures var s' := AssignNext(cfg, s); |s'.requests| == |s.requests| && |s'.backends| == |s.backends|
  {
    hide AssignNext, AssignOne, AfterVerdict, FreeCapacity, LineSound, NoOvertaking, ArrivalsOrdered, WorkSound, TicketOf, Line;
    var s', id := AssignNext(cfg, s), Head(s);
    var v := AssignOne(cfg, s.backends, TicketOf(s.requests[id]), s.clock).1;
    AssignNextEffect(cfg, s);
    VerdictKeepsLine(s, s', |s.phase.kept|, v);
    if s.phase.kept == [] {
      HeadIsFirst(s);
    }
    VerdictKeepsOrder(s, s', id, v);
    VerdictKeepsWork(cfg, |s.backends|, s.requests[id], v, s.clock);
  }

  lemma VerdictKeepsWork(cfg: GatewayConfig, n: nat, r: Request, v: Verdict, now: real)
    requires WorkSound(cfg, n, r) && cfg.retry.maxAttempts >= 1
    requires v.Dispatched? ==> v.target < n
    requires v.Skipped? || r.fate.Waiting?
    ensures WorkSound(cfg, n, AfterVerdict(r, v, now))
  {
  }

  lemma {:induction false} AssignAllOrderly(cfg: GatewayConfig, s: State)
    requires Orderly(cfg, s) && Blocked(cfg, s) && cfg.retry.maxAttempts >= 1 && s.phase.Holding?
    ensures Orderly(cfg, AssignAll(cfg, s))
    decreases |s.phase.rest|
  {
    hide LineSound, NoOvertaking, ArrivalsOrdered, WorkSound, Blocked, AssignNext;
    if s.phase.rest != [] {
      AssignNextOrderly(cfg, s);
      AssignAllOrderly(cfg, AssignNext(cfg, s));
    }
  }

  // ---------- the other steps ----------

  lemma ArriveOrderly(cfg: GatewayConfig, s: State, cl: RequestClass, stream: bool)
    requires Orderly(cfg, s) && cfg.retry.maxAttempts >= 1
    ensures Orderly(cfg, ArriveStep(cfg, s, cl, stream))
  {
    hide WorkSound, FallbackOr, LineSound, Line, NoOvertaking, ArrivalsOrdered;
    var s' := ArriveStep(cfg, s, cl, stream);
    LineAfterArrival(cfg, s, cl, stream);
    ArrivalKeepsWork(cfg, |s.backends|, s'.requests[|s.requests|]);
    ArrivalKeepsLine(cfg, s, cl, stream);
    ArrivalKeepsOrder(s, s', s'.requests[|s.requests|]);
  }

  lemma ArrivalKeepsOrder(s: State, s': State, r: Request)
    requires NoOvertaking(s) && ArrivalsOrdered(s)
    requires s'.requests == s.requests + [r] && s'.clock == s.clock == r.arrived && !r.fate.Assigned?
    ensures NoOvertaking(s') && ArrivalsOrdered(s')
  {
  }

  lemma ArrivalKeepsWork(cfg: GatewayConfig, n: nat, r: Request)
    requires cfg.retry.maxAttempts >= 1
    requires (r.fate.Waiting? && r.work.Suspended?) || (r.fate.Refused? && r.work == FallbackOr(cfg, QueueFull))
    ensures WorkSound(cfg, n, r)
  {
  }

  lemma ArrivalKeepsLine(cfg: GatewayConfig, s: State, cl: RequestClass, stream: bool)
    requires WellFormed(s) && LineSound(s)
    ensures LineSound(ArriveStep(cfg, s, cl, stream))
  {
    hide FallbackOr;
    var s' := ArriveStep(cfg, s, cl, stream);
    LineAfterArrival(cfg, s, cl, stream);
    forall id: nat | id < |s'.requests| && s'.requests[id].fate.Waiting?
      ensures id in Line(s')
    {
      assert id < |s.requests| ==> id in Line(s);
      assert id == |s.requests| ==> Line(s')[|Line(s)|] == id;
    }
  }

  /** A step that leaves the line and the futures alone, apart from a wait that times out. */
  lemma SameLineOrderly(cfg: GatewayConfig, s: State, s': State)
    requires Orderly(cfg, s) && WellFormed(s') && Line(s') == Line(s)
    requires |s'.requests| == |s.requests| && |s'.backends| == |s.backends| && s.clock <= s'.clock
    requires forall id :: 0 <= id < |s.requests| ==>
      var r, r' := s.requests[id], s'.requests[id];
      && r'.arrived == r.arrived
      && (r'.fate == r.fate || (r.fate.Waiting? && r'.fate.TimedOut?))
      && (r' == r || WorkSound(cfg, |s.backends|, r'))
    ensures Orderly(cfg, s')
  {
    hide WorkSound, Line, Ascending;
  }

  lemma PopOrderly(cfg: GatewayConfig, s: State)
    requires Orderly(cfg, s) && s.phase.Between?
    ensures Orderly(cfg, PopStep(cfg, s)) && Blocked(cfg, PopStep(cfg, s))
  {
    hide FreeCapacity, LineSound, NoOvertaking, ArrivalsOrdered, WorkSound;
    LineAfterPop(cfg, s);
    SameLine(s, PopStep(cfg, s));
    SameLineOrderly(cfg, s, PopStep(cfg, s));
  }

  lemma PutBackOrderly(cfg: GatewayConfig, s: State)
    requires Orderly(cfg, s) && s.phase.Holding? && s.phase.rest == []
    ensures Orderly(cfg, PutBackStep(s))
  {
    hide LineSound, NoOvertaking, ArrivalsOrdered, WorkSound;
    assert Line(PutBackStep(s)) == Line(s);
    SameLine(s, PutBackStep(s));
    SameLineOrderly(cfg, s, PutBackStep(s));
  }

  /** A step of one handler that leaves the line alone. */
  lemma HandlerOrderly(cfg: GatewayConfig, s: State, s': State, id: nat, r: Request)
    requires Orderly(cfg, s) && WellFormed(s') && id < |s.requests|
    requires s'.requests == s.requests[id := r] && s'.clock == s.clock
    requires s'.phase == s.phase && s'.queue == s.queue
    requires |s'.backends| == |s.backends|
    requires r.arrived == s.requests[id].arrived
    requires r.fate == s.requests[id].fate || (s.requests[id].fate.Waiting? && r.fate.TimedOut?)
    requires WorkSound(cfg, |s.backends|, r)
    ensures Orderly(cfg, s')
  {
    hide LineSound, NoOvertaking, ArrivalsOrdered, WorkSound;
    assert Line(s') == Line(s);
    SameLineOrderly(cfg, s, s');
  }

  lemma ReturnKeepsWork(cfg: GatewayConfig, bs: seq<Backend>, r: Request, o: Outcome, now: real)
    requires WorkSound(cfg, |bs|, r) && r.work.Calling?
    ensures var res := Resume(cfg, bs, r.work.at, r.cl, r.stream, r.work.attempts, o, now);
      WorkSound(cfg, |bs|, AfterReturn(r, res.next, now))
  {
    hide Resume;
    ResumeEnds(cfg, bs, r.work.at, r.cl, r.stream, r.work.attempts, o, now);
  }

  /** Every step keeps the line in order and nobody overtaken. */
  lemma StepOrderly(cfg: GatewayConfig, s: State, a: Action)
    requires Orderly(cfg, s) && Steady(s) && Enabled(cfg, s, a) && cfg.retry.maxAttempts >= 1
    ensures Orderly(cfg, Step(cfg, s, a)) && Steady(Step(cfg, s, a))
  {
    hide AssignAll, Resume, ReturnEvents, ReleasesTwice, Refreshed, LineSound, NoOvertaking, ArrivalsOrdered, FreeCapacity;
    var s' := Step(cfg, s, a);
    match a
    case Arrive(cl, stream) => ArriveOrderly(cfg, s, cl, stream);
    case Sweep => SameLineOrderly(cfg, s, s');
    case Pop => PopOrderly(cfg, s);
    case Assign => AssignAllOrderly(cfg, s);
    case PutBack => PutBackOrderly(cfg, s);
    case TimeOut(id) => HandlerOrderly(cfg, s, s', id, s.requests[id].(fate := TimedOut));
    case Wake(id) => HandlerOrderly(cfg, s, s', id, s'.requests[id]);
    case Return(id, o) =>
      ReturnKeepsWork(cfg, s.backends, s.requests[id], o, s.clock);
      HandlerOrderly(cfg, s, s', id, s'.requests[id]);
    case StreamEnd(id, e2e) => HandlerOrderly(cfg, s, s', id, s.requests[id].(work := Finished(StreamClosed)));
    case Advance(dt) => SameLineOrderly(cfg, s, s');
  }

  lemma StartOrderly(cfg: GatewayConfig, entries: seq<BackendEntry>, now: real)
    ensures Orderly(cfg, Start(entries, now)) && Steady(Start(entries, now))
  {
  }

  lemma {:induction false} RunOrderly(cfg: GatewayConfig, s: State, acts: seq<Action>)
    requires Orderly(cfg, s) && Steady(s) && Feasible(cfg, s, acts) && cfg.retry.maxAttempts >= 1
    ensures Orderly(cfg, Run(cfg, s, acts)) && Steady(Run(cfg, s, acts))
    decreases |acts|
  {
    hide Step, LineSound, NoOvertaking, ArrivalsOrdered, WorkSound, Steady;
    if acts != [] {
      StepOrderly(cfg, s, acts[0]);
      RunOrderly(cfg, Step(cfg, s, acts[0]), acts[1..]);
    }
  }

  // ---------- what follows for runs ----------

  /**
   * No overtaking, on every run: whenever a request has been assigned a backend by the scheduler, every
   * earlier arrival has been assigned, expired, timed out or refused.
   */
  lemma NobodyIsOvertaken(cfg: GatewayConfig, entries: seq<BackendEntry>, now: real, acts: seq<Action>, a: nat, b: nat)
    requires cfg.retry.maxAttempts >= 1 && Feasible(cfg, Start(entries, now), acts)
    requires var s := Run(cfg, Start(entries, now), acts);
      a < b < |s.requests| && s.requests[b].fate.Assigned?
    ensures !Run(cfg, Start(entries, now), acts).requests[a].fate.Waiting?
  {
    hide Run, Feasible, LineSound, ArrivalsOrdered, WorkSound;
    StartOrderly(cfg, entries, now);
    RunOrderly(cfg, Start(entries, now), acts);
  }

  /** A later state of the same requests: what is settled stays settled, and what was asked stays as asked. */
  predicate Continues(s: State, s': State) {
    && |s.requests| <= |s'.requests|
    && forall id :: 0 <= id < |s.requests| ==>
      var r, r' := s.requests[id], s'.requests[id];
      && r'.cl == r.cl && r'.stream == r.stream && r'.arrived == r.arrived
      && (!r.fate.Waiting? ==> r'.fate == r.fate)
  }

  lemma {:induction false} AssignAllContinues(cfg: GatewayConfig, s: State)
    requires WellFormed(s) && s.phase.Holding?
    ensures Continues(s, AssignAll(cfg, s))
    decreases |s.phase.rest|
  {
    hide Place, VerdictEvents, TooOld;
    if s.phase.rest != [] {
      AssignAllContinues(cfg, AssignNext(cfg, s));
    }
  }

  lemma StepContinues(cfg: GatewayConfig, s: State, a: Action)
    requires WellFormed(s) && Enabled(cfg, s, a)
    ensures Continues(s, Step(cfg, s, a))
  {
    hide AssignAll, FallbackOr, Resume, ReturnEvents, ReleasesTwice, Refreshed;
    if a.Assign? {
      AssignAllContinues(cfg, s);
    }
  }

  /** Every dispatch outcome is final: on no continuation does a settled future change. */
  lemma {:induction false} FatesAreFinal(cfg: GatewayConfig, s: State, acts: seq<Action>)
    requires WellFormed(s) && Feasible(cfg, s, acts)
    ensures Continues(s, Run(cfg, s, acts))
    decreases |acts|
  {
    hide Step;
    if acts != [] {
      StepContinues(cfg, s, acts[0]);
      FatesAreFinal(cfg, Step(cfg, s, acts[0]), acts[1..]);
    }
  }

  /** A request that holds, or is about to give back, a slot of a registered backend. */
  predicate HoldsSlot(r: Request) {
    (r.work.Calling? || r.work.Relaying?) && r.work.at.Some?
  }

  /**
   * On every run: a request leaves the line only by being resolved, is in it at most once, and has a slot
   * only if the scheduler assigned it one or a failed call to the fallback was retried on a registered backend.
   */
  lemma ResolvedExactlyOnce(cfg: GatewayConfig, entries: seq<BackendEntry>, now: real, acts: seq<Action>, id: nat)
    requires cfg.retry.maxAttempts >= 1 && Feasible(cfg, Start(entries, now), acts)
    requires id < |Run(cfg, Start(entries, now), acts).requests|
    ensures var s := Run(cfg, Start(entries, now), acts);
      var r := s.requests[id];
      && (r.fate.Waiting? ==> id in Line(s) && r.work.Suspended?)
      && (id in Line(s) ==> r.fate.Waiting? || r.fate.TimedOut?)
      && (forall a, b :: 0 <= a < b < |Line(s)| ==> Line(s)[a] < Line(s)[b])
      && (r.fate.Assigned? ==> !r.work.Suspended?)
      && (HoldsSlot(r) ==> r.fate.Assigned? || (CallsFallback(cfg) && cfg.retry.maxAttempts >= 2))
  {
    hide Run, Feasible;
    StartOrderly(cfg, entries, now);
    RunOrderly(cfg, Start(entries, now), acts);
  }

  /** What a tick puts back is still waiting and below its age limit. */
  ghost predicate KeptYoung(cfg: GatewayConfig, s: State) {
    s.phase.Holding? ==> forall k :: 0 <= k < |s.phase.kept| ==>
      s.phase.kept[k] < |s.requests| && Live(cfg, TicketOf(s.requests[s.phase.kept[k]]), s.clock)
  }

  lemma AssignNextKeepsYoung(cfg: GatewayConfig, s: State)
    requires WellFormed(s) && s.phase.Holding? && s.phase.rest != [] && Ascending(Line(s)) && KeptYoung(cfg, s)
    ensures KeptYoung(cfg, AssignNext(cfg, s)) && Ascending(Line(AssignNext(cfg, s)))
  {
    hide AssignOne, VerdictEvents, AfterVerdict, Live, TicketOf;
    var s', id, n := AssignNext(cfg, s), Head(s), |s.phase.kept|;
    var r := s.requests[id];
    var v := AssignOne(cfg, s.backends, TicketOf(r), s.clock).1;
    RequeuedIsLive(cfg, s.backends, r, s.clock);
    forall k | 0 <= k < n
      ensures s.phase.kept[k] != id
    {
      assert Line(s)[k] == s.phase.kept[k] && Line(s)[n] == id;
    }
    LineAfterAssign(s, s', v.Requeued?);
    if !v.Requeued? {
      LineShrinks(Line(s), n);
    }
  }

  lemma RequeuedIsLive(cfg: GatewayConfig, bs: seq<Backend>, r: Request, now: real)
    ensures var v := AssignOne(cfg, bs, TicketOf(r), now).1;
      v.Requeued? ==> Live(cfg, TicketOf(r), now) && AfterVerdict(r, v, now) == r
  {
    hide Place;
  }

  /** A tick leaves no request of its batch waiting beyond the age limit. */
  lemma {:induction false} TickLeavesNoneTooOld(cfg: GatewayConfig, s: State)
    requires WellFormed(s) && s.phase.Holding? && Ascending(Line(s)) && KeptYoung(cfg, s)
    ensures KeptYoung(cfg, AssignAll(cfg, s))
    decreases |s.phase.rest|
  {
    hide AssignNext, KeptYoung, Ascending;
    if s.phase.rest != [] {
      AssignNextKeepsYoung(cfg, s);
      TickLeavesNoneTooOld(cfg, AssignNext(cfg, s));
    }
  }

  // ---------- the tick is the pass the scheduler runs ----------

  function TicketsOf(rs: seq<Request>, ids: seq<nat>): (ts: seq<Ticket>)
    requires forall k :: 0 <= k < |ids| ==> ids[k] < |rs|
    ensures |ts| == |ids| && forall k :: 0 <= k < |ids| ==> ts[k] == TicketOf(rs[ids[k]])
  {
    seq(|ids|, k requires 0 <= k < |ids| && ids[k] < |rs| => TicketOf(rs[ids[k]]))
  }

  lemma {:induction false} KeptFromFront(ids: seq<nat>, vs: seq<Verdict>)
    requires |ids| == |vs| > 0
    ensures Kept(ids, vs) == (if vs[0].Requeued? then [ids[0]] else []) + Kept(ids[1..], vs[1..])
  {
    var n := |ids| - 1;
    if n == 0 {
      assert ids[..0] == [] && vs[..0] == [] && ids[1..] == [] && vs[1..] == [];
    } else {
      KeptFromFront(ids[..n], vs[..n]);
      assert ids[..n][1..] == ids[1..][..n - 1] && vs[..n][1..] == vs[1..][..n - 1];
    }
  }

  predicate BatchReady(s: State) {
    WellFormed(s) && s.phase.Holding? && Ascending(s.phase.rest)
    && forall k :: 0 <= k < |s.phase.rest| ==> s.phase.rest[k] < |s.requests|
  }

  /** The first request of a batch, and the batch that remains. */
  lemma BatchNext(cfg: GatewayConfig, s: State)
    requires BatchReady(s) && s.phase.rest != []
    ensures var s1, ids := AssignNext(cfg, s), s.phase.rest;
      var ts := TicketsOf(s.requests, ids);
      var (bs1, v) := AssignOne(cfg, s.backends, ts[0], s.clock);
      && BatchReady(s1) && s1.phase.rest == ids[1..] && s1.clock == s.clock && s1.backends == bs1
      && s1.requests == s.requests[ids[0] := AfterVerdict(s.requests[ids[0]], v, s.clock)]
      && s1.phase.kept == s.phase.kept + (if v.Requeued? then [ids[0]] else [])
      && TicketsOf(s1.requests, ids[1..]) == ts[1..]
      && (var (bs, vs) := Pass(cfg, s.backends, ts, s.clock);
          vs[0] == v && (bs, vs[1..]) == Pass(cfg, bs1, ts[1..], s.clock))
  {
    hide AssignOne, VerdictEvents, AfterVerdict, TicketOf;
    assert Head(s) == s.phase.rest[0];
  }

  lemma {:induction false} TickRegistry(cfg: GatewayConfig, s: State)
    requires BatchReady(s)
    ensures var (bs, vs) := Pass(cfg, s.backends, TicketsOf(s.requests, s.phase.rest), s.clock);
      AssignAll(cfg, s).backends == bs && AssignAll(cfg, s).phase.kept == s.phase.kept + Kept(s.phase.rest, vs)
    decreases |s.phase.rest|
  {
    hide AssignOne, AssignNext, Kept, TicketOf, Ascending, Pass;
    EmptyPass<nat>(cfg, s.backends, s.clock);
    if s.phase.rest != [] {
      var s1, ids := AssignNext(cfg, s), s.phase.rest;
      BatchNext(cfg, s);
      TickRegistry(cfg, s1);
      var vs := Pass(cfg, s.backends, TicketsOf(s.requests, ids), s.clock).1;
      KeptFromFront(ids, vs);
      assert s1.phase.kept + Kept(ids[1..], vs[1..])
          == s.phase.kept + ((if vs[0].Requeued? then [ids[0]] else []) + Kept(ids[1..], vs[1..]));
    } else {
      assert s.phase.kept + [] == s.phase.kept;
    }
  }

  lemma {:induction false} TickRequests(cfg: GatewayConfig, s: State)
    requires BatchReady(s)
    ensures var ids, s' := s.phase.rest, AssignAll(cfg, s);
      var vs := Pass(cfg, s.backends, TicketsOf(s.requests, ids), s.clock).1;
      && |s'.requests| == |s.requests|
      && (forall k :: 0 <= k < |ids| ==> s'.requests[ids[k]] == AfterVerdict(s.requests[ids[k]], vs[k], s.clock))
      && (forall id: nat :: id < |s.requests| && id !in ids ==> s'.requests[id] == s.requests[id])
    decreases |s.phase.rest|
  {
    hide AssignOne, AssignNext, AfterVerdict, TicketOf, Pass;
    if s.phase.rest != [] {
      var s1, ids := AssignNext(cfg, s), s.phase.rest;
      BatchNext(cfg, s);
      TickRequests(cfg, s1);
      var s', vs := AssignAll(cfg, s), Pass(cfg, s.backends, TicketsOf(s.requests, ids), s.clock).1;
      forall k | 0 <= k < |ids|
        ensures s'.requests[ids[k]] == AfterVerdict(s.requests[ids[k]], vs[k], s.clock)
      {
        if k > 0 {
          assert ids[k] == ids[1..][k - 1] && vs[k] == vs[1..][k - 1];
        }
      }
    }
  }

  /** The tick of the transition system is `Pass`, the specification that `DispatchTick` is proved against. */
  lemma TickIsPass(cfg: GatewayConfig, s: State)
    requires BatchReady(s)
    ensures var ids, s' := s.phase.rest, AssignAll(cfg, s);
      var (bs, vs) := Pass(cfg, s.backends, TicketsOf(s.requests, ids), s.clock);
      && s'.backends == bs
      && s'.phase.kept == s.phase.kept + Kept(ids, vs)
      && |s'.requests| == |s.requests|
      && (forall k :: 0 <= k < |ids| ==> s'.requests[ids[k]] == AfterVerdict(s.requests[ids[k]], vs[k], s.clock))
      && (forall id: nat :: id < |s.requests| && id !in ids ==> s'.requests[id] == s.requests[id])
  {
    hide AssignAll, AfterVerdict, TicketOf, Pass, Kept;
    TickRegistry(cfg, s);
    TickRequests(cfg, s);
  }

  lemma OrderlyBatchIsReady(cfg: GatewayConfig, s: State)
    requires Orderly(cfg, s) && Steady(s) && s.phase.Holding? && s.phase.rest != []
    ensures BatchReady(s)
    ensures forall a, b :: 0 <= a < b < |s.phase.rest| ==>
      s.requests[s.phase.rest[a]].arrived <= s.requests[s.phase.rest[b]].arrived
  {
    hide WorkSound, NoOvertaking;
    assert forall k :: 0 <= k < |s.phase.rest| ==> Line(s)[k] == s.phase.rest[k];
  }

  /** In every tick of every run the waiting requests of the batch split into three blocks: expired, dispatched, put back. */
  lemma TickSplitsInThree(cfg: GatewayConfig, entries: seq<BackendEntry>, now: real, acts: seq<Action>, i: nat, j: nat)
    requires cfg.retry.maxAttempts >= 1 && Feasible(cfg, Start(entries, now), acts)
    requires var s := Run(cfg, Start(entries, now), acts); s.phase.Holding? && i < j < |s.phase.rest|
    ensures var s := Run(cfg, Start(entries, now), acts);
      && BatchReady(s)
      && var ts := TicketsOf(s.requests, s.phase.rest);
         !ts[i].done && !ts[j].done ==>
           var vs := Pass(cfg, s.backends, ts, s.clock).1; Rank(vs[i]) <= Rank(vs[j])
  {
    hide Run, Feasible, Pass, LineSound, NoOvertaking, ArrivalsOrdered, WorkSound;
    StartOrderly(cfg, entries, now);
    RunOrderly(cfg, Start(entries, now), acts);
    var s := Run(cfg, Start(entries, now), acts);
    OrderlyBatchIsReady(cfg, s);
    var ts := TicketsOf(s.requests, s.phase.rest);
    if !ts[i].done && !ts[j].done {
      BatchSplitsInThree(cfg, s.backends, ts, s.clock, i, j);
    }
  }

  /**
   * In every tick of every run, a request that is assigned goes to the backend that is cheapest when its turn
   * comes: in the registry as the requests before it in the batch have left it.
   */
  lemma TicksPickCheapest(cfg: GatewayConfig, entries: seq<BackendEntry>, now: real, acts: seq<Action>, k: nat)
    requires cfg.retry.maxAttempts >= 1 && Feasible(cfg, Start(entries, now), acts)
    requires var s := Run(cfg, Start(entries, now), acts); s.phase.Holding? && k < |s.phase.rest|
    ensures var s := Run(cfg, Start(entries, now), acts);
      && BatchReady(s)
      && var ts, id := TicketsOf(s.requests, s.phase.rest), s.phase.rest[k];
         var s' := AssignAll(cfg, s);
         id < |s'.requests| && (s.requests[id].fate.Waiting? && s'.requests[id].fate.Assigned? ==>
           Cheapest(cfg, Pass(cfg, s.backends, ts[..k], s.clock).0, ts[k].cl, s.clock, None, s'.requests[id].fate.backend))
  {
    hide Run, Feasible, Pass, LineSound, NoOvertaking, ArrivalsOrdered, WorkSound, Cheapest, AssignAll, TicketOf, Kept;
    StartOrderly(cfg, entries, now);
    RunOrderly(cfg, Start(entries, now), acts);
    var s := Run(cfg, Start(entries, now), acts);
    OrderlyBatchIsReady(cfg, s);
    TickIsPass(cfg, s);
    VerdictIsCheapest(cfg, s.backends, TicketsOf(s.requests, s.phase.rest), s.clock, k);
  }

  // ---------- depth ----------

  function MaxSize(cfg: GatewayConfig): nat { Max(0, cfg.scheduler.queueMaxSize) }

  function MaxBatch(cfg: GatewayConfig): nat { Max(0, cfg.scheduler.dispatchBatchSize) }

  /** With arrivals between a pop and the matching put-back the queue can exceed its bound, by a batch at most. */
  predicate DepthBounded(cfg: GatewayConfig, s: State) {
    match s.phase
    case Between => |s.queue| <= MaxSize(cfg) + MaxBatch(cfg)
    case Holding(kept, rest) => |s.queue| <= MaxSize(cfg) && |kept| + |rest| <= MaxBatch(cfg)
  }

  lemma {:induction false} AssignAllDepth(cfg: GatewayConfig, s: State)
    requires WellFormed(s) && s.phase.Holding?
    ensures var s' := AssignAll(cfg, s);
      s'.queue == s.queue && |s'.phase.kept| <= |s.phase.kept| + |s.phase.rest|
    decreases |s.phase.rest|
  {
    hide AssignOne, VerdictEvents, AfterVerdict;
    if s.phase.rest != [] {
      AssignAllDepth(cfg, AssignNext(cfg, s));
    }
  }

  lemma StepDepth(cfg: GatewayConfig, s: State, a: Action)
    requires WellFormed(s) && Enabled(cfg, s, a) && DepthBounded(cfg, s)
    ensures DepthBounded(cfg, Step(cfg, s, a))
  {
    hide AssignAll, FallbackOr, Resume, ReturnEvents, ReleasesTwice, Refreshed;
    if a.Assign? {
      AssignAllDepth(cfg, s);
    }
  }

  lemma {:induction false} QueueDepthOnRuns(cfg: GatewayConfig, s: State, acts: seq<Action>)
    requires WellFormed(s) && DepthBounded(cfg, s) && Feasible(cfg, s, acts)
    ensures DepthBounded(cfg, Run(cfg, s, acts))
    ensures |Run(cfg, s, acts).queue| <= MaxSize(cfg) + MaxBatch(cfg)
    decreases |acts|
  {
    hide Step;
    if acts != [] {
      StepDepth(cfg, s, acts[0]);
      QueueDepthOnRuns(cfg, Step(cfg, s, acts[0]), acts[1..]);
    }
  }

  /** No other task runs between the pop of a tick and its put-back. */
  predicate AtomicTicks(cfg: GatewayConfig, s: State, acts: seq<Action>)
    requires WellFormed(s) && Feasible(cfg, s, acts)
    decreases |acts|
  {
    acts == [] ||
      ((s.phase.Holding? ==> acts[0].Assign? || acts[0].PutBack?) && AtomicTicks(cfg, Step(cfg, s, acts[0]), acts[1..]))
  }

  lemma StepKeepsTheBound(cfg: GatewayConfig, s: State, a: Action)
    requires WellFormed(s) && Enabled(cfg, s, a) && |Line(s)| <= MaxSize(cfg)
    requires s.phase.Holding? ==> a.Assign? || a.PutBack?
    ensures |Line(Step(cfg, s, a))| <= MaxSize(cfg)
  {
    hide AssignAll, FallbackOr, Resume, ReturnEvents, ReleasesTwice, Refreshed;
    if a.Assign? {
      AssignAllDepth(cfg, s);
    }
  }

  /** With atomic ticks the queue, even together with the batch in hand, never exceeds its configured size. */
  lemma {:induction false} AtomicTicksKeepTheBound(cfg: GatewayConfig, s: State, acts: seq<Action>)
    requires WellFormed(s) && |Line(s)| <= MaxSize(cfg)
    requires Feasible(cfg, s, acts) && AtomicTicks(cfg, s, acts)
    ensures |Run(cfg, s, acts).queue| <= |Line(Run(cfg, s, acts))| <= MaxSize(cfg)
    decreases |acts|
  {
    hide Step;
    if acts != [] {
      StepKeepsTheBound(cfg, s, acts[0]);
      AtomicTicksKeepTheBound(cfg, Step(cfg, s, acts[0]), acts[1..]);
    }
  }
}
