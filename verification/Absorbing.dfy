/** The exact set of backends that no continuation dispatches to again, among those that serve nobody. */
module Absorbing {
  import opened Types
  import opened BackendState
  import opened Health
  import opened Registry
  import opened Dispatcher
  import opened Trace
  import opened Gateway
  import opened History
  import opened Queueing
  import opened Slots
  import opened Wedge
  import opened Recovery
  import opened Schedules

  /** Some continuation dispatches to backend `i`. */
  ghost predicate DispatchedLater(cfg: GatewayConfig, s: State, acts: seq<Action>, i: nat)
    requires WellFormed(s)
  {
    Feasible(cfg, s, acts) &&
    var s' := Run(cfg, s, acts);
    i < |s.logs| == |s'.logs| && Dispatches(s'.logs[i]) > Dispatches(s.logs[i])
  }

  /** Eligible now or, if its circuit is open, once the cooldown has run out. */
  predicate Ready(b: Backend, h: HealthConfig) {
    && !b.drained && b.errorRate <= h.maxErrorRate && b.inflight < b.hardLimit && h.halfOpenMaxInflight > 0
    && (b.circuit.HalfOpen? ==> b.probes < h.halfOpenMaxInflight)
    && (b.circuit.Open? ==> b.openedAt.Some?)
  }

  lemma ReadyAfterCheck(b: Backend, h: HealthConfig, now: real)
    requires Ready(b, h)
    ensures Ready(AfterCooldownCheck(b, h, now), h)
  {
  }

  lemma ReadyInTime(b: Backend, h: HealthConfig, now: real)
    requires Ready(b, h) && (b.circuit.Open? ==> now >= b.openedAt.value + CooldownSec(h))
    ensures Eligible(b, h, now)
  {
  }

  lemma Concatenate(cfg: GatewayConfig, s: State, acts: seq<Action>, more: seq<Action>, i: nat)
    requires WellFormed(s) && Feasible(cfg, s, acts) && i < |s.logs|
    requires DispatchedLater(cfg, Run(cfg, s, acts), more, i)
    ensures DispatchedLater(cfg, s, acts + more, i)
  {
    hide Run, Feasible, Dispatches;
    RunConcat(cfg, s, acts, more);
    RunGrows(cfg, s, acts);
    MoreDispatches(s, Run(cfg, s, acts), i);
  }

  // ---------- serving until it is the backend's turn ----------

  /** Each request served elsewhere uses up free capacity, so sooner or later one goes to the backend. */
  lemma {:induction false} ServeUntil(cfg: GatewayConfig, s: State, i: nat) returns (acts: seq<Action>)
    requires Obliging(cfg) && Quiet(s) && i < |s.backends| && Eligible(s.backends[i], cfg.health, s.clock)
    ensures DispatchedLater(cfg, s, acts, i)
    decreases FreeCapacity(s.backends, cfg.health, s.clock)
  {
    hide Place, PlaceEvents, FreeCapacity, Eligible, Capacity, Run, Feasible, Dispatches, CooledDown;
    var bs, h, now := s.backends, cfg.health, s.clock;
    NoFreeCapacity(bs, h, now);
    var s', p := ServeOne(cfg, s, SmallChat, false);
    acts := Serving(SmallChat, false);
    PlaceLogsItsDispatch(cfg, bs, SmallChat, now, None, i);
    DispatchesAdd(s.logs[i], PlaceEvents(cfg, bs, SmallChat, now, None, i));
    if p != i {
      PlaceSpendsOne(cfg, bs, SmallChat, now);
      PlaceTakesOneEligibleSlot(cfg, bs, SmallChat, now, None);
      CheckTwice(bs[i], h, now);
      var more := ServeUntil(cfg, s', i);
      Concatenate(cfg, s, acts, more, i);
      acts := acts + more;
    }
  }

  // ---------- getting there ----------

  lemma AssignNextReady(cfg: GatewayConfig, s: State, i: nat)
    requires WellFormed(s) && s.phase.Holding? && s.phase.rest != []
    requires i < |s.backends| && Ready(s.backends[i], cfg.health)
    ensures var s' := AssignNext(cfg, s);
      && |s'.backends| == |s.backends| && LogsGrow(s, s')
      && (Ready(s'.backends[i], cfg.health) || Dispatches(s'.logs[i]) > Dispatches(s.logs[i]))
  {
    hide Place, PlaceEvents, TooOld, Dispatches, Ready, CooledDown;
    var r := s.requests[Head(s)];
    PlaceLogsItsDispatch(cfg, s.backends, r.cl, s.clock, None, i);
    PlaceTakesOneEligibleSlot(cfg, s.backends, r.cl, s.clock, None);
    ReadyAfterCheck(s.backends[i], cfg.health, s.clock);
    DispatchesAdd(s.logs[i], VerdictEvents(cfg, s.backends, TicketOf(r), s.clock, i));
  }

  lemma {:induction false} AssignAllReady(cfg: GatewayConfig, s: State, i: nat)
    requires WellFormed(s) && s.phase.Holding? && i < |s.backends| && Ready(s.backends[i], cfg.health)
    ensures var s' := AssignAll(cfg, s);
      && |s'.logs| == |s.logs| && |s'.backends| == |s.backends|
      && (Ready(s'.backends[i], cfg.health) || Dispatches(s'.logs[i]) > Dispatches(s.logs[i]))
    decreases |s.phase.rest|
  {
    hide AssignNext, Ready, Dispatches;
    if s.phase.rest != [] {
      var s1 := AssignNext(cfg, s);
      AssignNextReady(cfg, s, i);
      AssignAllGrows(cfg, s1);
      AssignAllKeepsCount(cfg, s1);
      MoreDispatches(s1, AssignAll(cfg, s1), i);
      MoreDispatches(s, s1, i);
      if Ready(s1.backends[i], cfg.health) {
        AssignAllReady(cfg, s1, i);
      }
    }
  }

  /** The tick under way, if any, runs to its end. */
  lemma FinishTick(cfg: GatewayConfig, s: State, i: nat) returns (acts: seq<Action>)
    requires WellFormed(s) && i < |s.backends| && Ready(s.backends[i], cfg.health)
    ensures Feasible(cfg, s, acts)
    ensures var s' := Run(cfg, s, acts);
      && s'.phase.Between? && |s'.backends| == |s.backends| && |s'.logs| == |s.logs|
      && (Ready(s'.backends[i], cfg.health) || DispatchedLater(cfg, s, acts, i))
  {
    hide AssignAll, Ready, Dispatches, Feasible, Run;
    RunOfNone(cfg, s);
    if s.phase.Between? {
      acts := [];
    } else if s.phase.rest == [] {
      acts := [PutBack];
      var s' := Step(cfg, s, PutBack);
      RunOfNone(cfg, s');
      RunOfMore(cfg, s, PutBack, []);
      assert [PutBack] + [] == acts;
    } else {
      acts := [Assign, PutBack];
      AssignAllReady(cfg, s, i);
      RunOfTwo(cfg, s, Assign, PutBack);
    }
  }

  /** The state once the queue is too old and the cooldown over. */
  lemma WaitItOut(cfg: GatewayConfig, s: State, i: nat) returns (dt: real)
    requires Orderly(cfg, s) && s.phase.Between? && i < |s.backends| && Ready(s.backends[i], cfg.health)
    ensures Enabled(cfg, s, Advance(dt))
    ensures var s' := Step(cfg, s, Advance(dt));
      && DeadQueue(cfg, s') && s'.backends == s.backends && s'.logs == s.logs
      && Eligible(s.backends[i], cfg.health, s'.clock)
  {
    hide Eligible, NoOvertaking, WorkSound, Ascending;
    var b := s.backends[i];
    var age := cfg.scheduler.queueMaxAgeMs as real / 1000.0;
    var due := if b.circuit.Open? then b.openedAt.value + CooldownSec(cfg.health) - s.clock else 0.0;
    dt := if age > due then age else due;
    dt := if dt > 0.0 then dt else 0.0;
    var s' := Step(cfg, s, Advance(dt));
    ReadyInTime(b, cfg.health, s'.clock);
    forall k | 0 <= k < |s'.queue|
      ensures s'.queue[k] < |s'.requests| && !Live(cfg, TicketOf(s'.requests[s'.queue[k]]), s'.clock)
    {
      assert Line(s)[k] == s.queue[k];
      assert s.requests[s.queue[k]].arrived <= s.clock;
    }
  }

  /** A ready backend is dispatched to on some continuation. */
  lemma Revive(cfg: GatewayConfig, s: State, i: nat) returns (acts: seq<Action>)
    requires Obliging(cfg) && Orderly(cfg, s) && Steady(s) && cfg.retry.maxAttempts >= 1
    requires i < |s.backends| && Ready(s.backends[i], cfg.health)
    ensures DispatchedLater(cfg, s, acts, i)
  {
    hide Orderly, Ready, Eligible, Dispatches, Feasible, Run, Step, DeadQueue;
    assert WellFormed(s) by { OrderlyIsWellFormed(cfg, s); }
    acts := FinishTick(cfg, s, i);
    var s1 := Run(cfg, s, acts);
    if Ready(s1.backends[i], cfg.health) {
      RunOrderly(cfg, s, acts);
      var dt := WaitItOut(cfg, s1, i);
      var s2 := Step(cfg, s1, Advance(dt));
      var clear := ClearQueue(cfg, s2);
      var s3 := Run(cfg, s2, clear);
      var serve := ServeUntil(cfg, s3, i);
      Concatenate(cfg, s2, clear, serve, i);
      RunOfMore(cfg, s1, Advance(dt), clear + serve);
      Concatenate(cfg, s, acts, [Advance(dt)] + (clear + serve), i);
      acts := acts + ([Advance(dt)] + (clear + serve));
    }
  }

  lemma OrderlyIsWellFormed(cfg: GatewayConfig, s: State)
    requires Orderly(cfg, s)
    ensures WellFormed(s)
  {
  }

  /** In a run, a backend that serves nobody and is not stuck is ready. */
  lemma NotStuckIsReady(cfg: GatewayConfig, entries: seq<BackendEntry>, birth: real, before: seq<Action>, i: nat)
    requires SaneHealth(cfg.health) && cfg.retry.maxAttempts >= 1 && cfg.health.halfOpenMaxInflight > 0
    requires Feasible(cfg, Start(entries, birth), before)
    requires var s := Run(cfg, Start(entries, birth), before);
      && i < |s.backends| && s.backends[i].hardLimit > 0 && NoHolder(s.requests, i)
      && !Stuck(s.backends[i], cfg.health)
    ensures Ready(Run(cfg, Start(entries, birth), before).backends[i], cfg.health)
  {
    hide Run, Feasible, DispatchesInWindow;
    var s := Run(cfg, Start(entries, birth), before);
    SlotConservation(cfg, entries, birth, before, i, false);
    BackendsStaySound(cfg, entries, birth, before, i);
    NobodyHolds(s.requests, i);
  }

  lemma {:induction false} NobodyHolds(rs: seq<Request>, i: nat)
    requires NoHolder(rs, i)
    ensures Holders(rs, i, false) == 0
  {
    if rs != [] {
      NobodyHolds(rs[..|rs| - 1], i);
    }
  }

  /**
   * A backend that serves nobody is never dispatched to again, on any continuation, if and only if it is
   * stuck: drained, over the error cap, or half-open with its probe budget spent.
   */
  lemma WedgedExactly(cfg: GatewayConfig, entries: seq<BackendEntry>, birth: real, before: seq<Action>, i: nat)
    requires SaneHealth(cfg.health) && cfg.retry.maxAttempts >= 1 && cfg.health.halfOpenMaxInflight > 0 && Obliging(cfg)
    requires Feasible(cfg, Start(entries, birth), before)
    requires var s := Run(cfg, Start(entries, birth), before);
      i < |s.backends| && s.backends[i].hardLimit > 0 && NoHolder(s.requests, i)
    ensures var s := Run(cfg, Start(entries, birth), before);
      (forall acts :: !DispatchedLater(cfg, s, acts, i)) <==> Stuck(s.backends[i], cfg.health)
  {
    hide Run, Feasible, Stuck, NoHolder, Dispatches, Orderly, Ready;
    var s := Run(cfg, Start(entries, birth), before);
    if Stuck(s.backends[i], cfg.health) {
      forall acts
        ensures !DispatchedLater(cfg, s, acts, i)
      {
        if Feasible(cfg, s, acts) {
          WedgedForever(cfg, s, acts, i);
        }
      }
    } else {
      NotStuckIsReady(cfg, entries, birth, before, i);
      StartOrderly(cfg, entries, birth);
      RunOrderly(cfg, Start(entries, birth), before);
      var acts := Revive(cfg, s, i);
    }
  }
}
