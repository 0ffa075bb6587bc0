/** Runs built on purpose: serving one request, serving until nothing is free, and clearing the queue. */
module Schedules {
  import opened Types
  import opened Dispatcher
  import opened Gateway

  /** The queue has a place, a tick takes a request, and a request does not expire on arrival. */
  predicate Obliging(cfg: GatewayConfig) {
    cfg.scheduler.queueMaxSize >= 1 && cfg.scheduler.dispatchBatchSize >= 1 && cfg.scheduler.queueMaxAgeMs > 0
  }

  /** Between two ticks, with nobody in the queue. */
  predicate Quiet(s: State) { WellFormed(s) && s.phase.Between? && s.queue == [] }

  function Serving(cl: RequestClass, stream: bool): seq<Action> { [Arrive(cl, stream), Pop, Assign, PutBack] }

  /** The state after a request of class `cl` arrived and was assigned to backend `p`. */
  predicate Assigns(cfg: GatewayConfig, s: State, s': State, cl: RequestClass, stream: bool, p: nat) {
    && WellFormed(s) && WellFormed(s')
    && p < |s.backends| == |s'.backends|
    && Place(cfg, s.backends, cl, s.clock, None).target == Some(p)
    && s'.backends == Place(cfg, s.backends, cl, s.clock, None).backends
    && s'.requests == s.requests + [Request(cl, stream, s.clock, Assigned(p), Calling(Some(p), 1), s.clock)]
    && s'.clock == s.clock && s'.phase == s.phase && s'.queue == s.queue && s'.extra == s.extra
    && forall i :: 0 <= i < |s.logs| ==> s'.logs[i] == s.logs[i] + PlaceEvents(cfg, s.backends, cl, s.clock, None, i)
  }

  /** A request in hand, with room for it: it is assigned. */
  lemma AssignTheOne(cfg: GatewayConfig, s: State, cl: RequestClass)
    requires WellFormed(s) && s.phase.Holding? && s.phase.kept == [] && |s.phase.rest| == 1
    requires var r := s.requests[Head(s)]; r.fate.Waiting? && r.cl == cl && !TooOld(cfg, TicketOf(r), s.clock)
    requires FreeCapacity(s.backends, cfg.health, s.clock) > 0
    ensures var s', pl := AssignAll(cfg, s), Place(cfg, s.backends, cl, s.clock, None);
      && pl.target.Some? && s'.backends == pl.backends && |s'.backends| == |s.backends|
      && s'.requests == s.requests[Head(s) := AfterVerdict(s.requests[Head(s)], Dispatched(pl.target.value), s.clock)]
      && s'.phase == Holding([], []) && s'.clock == s.clock && s'.queue == s.queue && s'.extra == s.extra
      && |s'.logs| == |s.logs|
      && forall i :: 0 <= i < |s.logs| ==> s'.logs[i] == s.logs[i] + PlaceEvents(cfg, s.backends, cl, s.clock, None, i)
  {
    hide Place, PlaceEvents, FreeCapacity, TooOld, AfterVerdict;
    PlaceSpendsOne(cfg, s.backends, cl, s.clock);
    var s1 := AssignNext(cfg, s);
    assert s1.phase == Holding([], []);
    assert AssignAll(cfg, s1) == s1;
  }

  /** A request arrives in a quiet gateway with free capacity, and a tick serves it. */
  lemma ServeOne(cfg: GatewayConfig, s: State, cl: RequestClass, stream: bool) returns (s': State, p: nat)
    requires Obliging(cfg) && Quiet(s) && FreeCapacity(s.backends, cfg.health, s.clock) > 0
    ensures Feasible(cfg, s, Serving(cl, stream)) && s' == Run(cfg, s, Serving(cl, stream))
    ensures Assigns(cfg, s, s', cl, stream, p)
  {
    hide Place, PlaceEvents, FreeCapacity, AssignAll, Feasible, Run;
    var n := |s.requests|;
    var s1 := Step(cfg, s, Arrive(cl, stream));
    assert s1.queue == [n];
    var s2 := Step(cfg, s1, Pop);
    assert s2.phase == Holding([], [n]) && s2.queue == [];
    AssignTheOne(cfg, s2, cl);
    p := Place(cfg, s.backends, cl, s.clock, None).target.value;
    var s3 := Step(cfg, s2, Assign);
    s' := Step(cfg, s3, PutBack);
    assert s'.queue == [];
    RunOfFour(cfg, s, Arrive(cl, stream), Pop, Assign, PutBack);
  }

  lemma RunOfFour(cfg: GatewayConfig, s: State, a: Action, b: Action, c: Action, d: Action)
    requires WellFormed(s) && Enabled(cfg, s, a) && Enabled(cfg, Step(cfg, s, a), b)
    requires Enabled(cfg, Step(cfg, Step(cfg, s, a), b), c)
    requires Enabled(cfg, Step(cfg, Step(cfg, Step(cfg, s, a), b), c), d)
    ensures Feasible(cfg, s, [a, b, c, d])
    ensures Run(cfg, s, [a, b, c, d]) == Step(cfg, Step(cfg, Step(cfg, Step(cfg, s, a), b), c), d)
  {
    hide Step, Enabled, Feasible, Run;
    assert [b] + [c, d] == [b, c, d] && [a] + [b, c, d] == [a, b, c, d];
    var s1 := Step(cfg, s, a);
    RunOfTwo(cfg, Step(cfg, s1, b), c, d);
    RunOfMore(cfg, s1, b, [c, d]);
    RunOfMore(cfg, s, a, [b, c, d]);
  }

  // ---------- clearing the queue ----------

  /** Nobody in the batch is waiting and young enough. */
  predicate DeadBatch(cfg: GatewayConfig, s: State) {
    WellFormed(s) && s.phase.Holding? && s.phase.kept == []
    && forall k :: 0 <= k < |s.phase.rest| ==>
      s.phase.rest[k] < |s.requests| && !Live(cfg, TicketOf(s.requests[s.phase.rest[k]]), s.clock)
  }

  /** Same requests, except that some have expired. */
  predicate OnlyAged(s: State, s': State) {
    && s'.backends == s.backends && s'.logs == s.logs && s'.extra == s.extra && s'.clock == s.clock
    && |s'.requests| == |s.requests|
    && forall id :: 0 <= id < |s.requests| ==>
      s'.requests[id] == s.requests[id] || (s.requests[id].fate.Waiting? && s'.requests[id] == s.requests[id].(fate := Aged))
  }

  lemma AssignNextDead(cfg: GatewayConfig, s: State)
    requires DeadBatch(cfg, s) && s.phase.rest != []
    ensures var s' := AssignNext(cfg, s);
      DeadBatch(cfg, s') && OnlyAged(s, s') && s'.queue == s.queue && s'.phase.rest == s.phase.rest[1..]
  {
    hide Place, PlaceEvents, TooOld;
    var s' := AssignNext(cfg, s);
    assert s.requests[s.phase.rest[0]] == s.requests[Head(s)];
    assert forall i :: 0 <= i < |s.logs| ==> s'.logs[i] == s.logs[i] + [] == s.logs[i];
    assert s'.logs == s.logs;
  }

  lemma {:induction false} AssignAllDead(cfg: GatewayConfig, s: State)
    requires DeadBatch(cfg, s)
    ensures var s' := AssignAll(cfg, s);
      OnlyAged(s, s') && s'.queue == s.queue && s'.phase == Holding([], [])
    decreases |s.phase.rest|
  {
    hide AssignNext, Live, TicketOf;
    if s.phase.rest != [] {
      AssignNextDead(cfg, s);
      AssignAllDead(cfg, AssignNext(cfg, s));
    }
  }

  /** Everyone in the queue is resolved or too old. */
  predicate DeadQueue(cfg: GatewayConfig, s: State) {
    WellFormed(s) && s.phase.Between?
    && forall k :: 0 <= k < |s.queue| ==>
      s.queue[k] < |s.requests| && !Live(cfg, TicketOf(s.requests[s.queue[k]]), s.clock)
  }

  /** Ticks clear such a queue without touching a backend. */
  lemma {:induction false} ClearQueue(cfg: GatewayConfig, s: State) returns (acts: seq<Action>)
    requires Obliging(cfg) && DeadQueue(cfg, s)
    ensures Feasible(cfg, s, acts) && Quiet(Run(cfg, s, acts)) && OnlyAged(s, Run(cfg, s, acts))
    decreases |s.queue|
  {
    hide AssignAll, Feasible, Run, Live;
    acts := [];
    RunOfNone(cfg, s);
    if s.queue != [] {
      var s1 := Step(cfg, s, Pop);
      assert DeadBatch(cfg, s1) by {
        assert forall k :: 0 <= k < |s1.phase.rest| ==> s1.phase.rest[k] == s.queue[k];
      }
      AssignAllDead(cfg, s1);
      var s2 := Step(cfg, s1, Assign);
      var s3 := Step(cfg, s2, PutBack);
      StillDead(cfg, s, s3);
      var more := ClearQueue(cfg, s3);
      RunOfMore(cfg, s2, PutBack, more);
      RunOfMore(cfg, s1, Assign, [PutBack] + more);
      RunOfMore(cfg, s, Pop, [Assign] + ([PutBack] + more));
      acts := [Pop] + ([Assign] + ([PutBack] + more));
    }
  }

  lemma RunOfNone(cfg: GatewayConfig, s: State)
    requires WellFormed(s)
    ensures Feasible(cfg, s, []) && Run(cfg, s, []) == s
  {
  }

  lemma StillDead(cfg: GatewayConfig, s: State, s': State)
    requires DeadQueue(cfg, s) && WellFormed(s') && s'.phase.Between? && OnlyAged(s, s')
    requires |s'.queue| <= |s.queue| && s'.queue == s.queue[|s.queue| - |s'.queue|..]
    ensures DeadQueue(cfg, s')
  {
    hide TooOld;
    forall k | 0 <= k < |s'.queue|
      ensures s'.queue[k] < |s'.requests| && !Live(cfg, TicketOf(s'.requests[s'.queue[k]]), s'.clock)
    {
      assert s'.queue[k] == s.queue[k + |s.queue| - |s'.queue|];
    }
  }
}
