/** Concrete runs that show which stronger claims the code does not meet. */
module Witness {
  import opened Types
  import opened BackendState
  import opened Health
  import opened Registry
  import opened Scoring
  import opened Dispatcher
  import opened Proxy
  import opened Gateway
  import opened History
  import opened Queueing
  import opened Slots
  import opened Schedules
  import opened Limits
  import opened Wedge
  import opened Recovery

  const ENTRY := BackendEntry("gpu-node-1", 1, 2, false)

  const ROUTING := RoutingConfig(8.0, 0.04, 0.03, 0.02, 100.0, 20.0, 15.0, 2.0, 0.55)

  /** The default health and retry settings. */
  const HEALTH := HealthConfig(5, 15000, 1, 0.35)

  const RETRY := RetryConfig(2, [502, 503, 504])

  const NO_FALLBACK := GatewayConfig(SchedulerConfig(10, 2000, 10), ROUTING, HEALTH, RETRY,
                                     FallbackConfig(false, "openai-fallback", false))

  /** A queue of one place, served one request at a time. */
  const TINY_QUEUE := NO_FALLBACK.(scheduler := SchedulerConfig(1, 2000, 1))

  /** A circuit that opens at the first failure. */
  const BRITTLE := NO_FALLBACK.(health := HEALTH.(consecutiveFailuresOpen := 1))

  lemma OneRow(entry: BackendEntry)
    ensures Rows([entry]) == [FromEntry(entry)]
  {
    assert [entry][..0] == [];
  }

  /** Without backends a tick puts its only request back. */
  lemma NothingToAssign(s: State)
    requires WellFormed(s) && s.phase == Holding([], [0]) && s.backends == [] && 0 < |s.requests|
    requires s.requests[0].fate.Waiting? && s.requests[0].arrived == s.clock
    ensures var s' := AssignAll(TINY_QUEUE, s); s'.phase == Holding([0], []) && s'.queue == s.queue
  {
    hide Place, VerdictEvents;
    PlaceTakesOneEligibleSlot(TINY_QUEUE, s.backends, s.requests[0].cl, s.clock, None);
    var s' := AssignNext(TINY_QUEUE, s);
    assert s'.phase == Holding([0], []);
    assert AssignAll(TINY_QUEUE, s') == s';
  }

  /**
   * With a suspension between pop and put-back the queue can exceed its size, by as much as
   * `QueueDepthOnRuns` allows: one place, a batch of one, no backend, and two requests in the queue.
   */
  lemma QueueBoundCanBeExceeded()
    ensures var acts := [Arrive(SmallChat, false), Pop, Arrive(SmallChat, false), Assign, PutBack];
      && Feasible(TINY_QUEUE, Start([], 0.0), acts)
      && |Run(TINY_QUEUE, Start([], 0.0), acts).queue| == 2 == MaxSize(TINY_QUEUE) + MaxBatch(TINY_QUEUE)
  {
    hide AssignAll, Feasible, Run;
    var s0, arrive := Start([], 0.0), Arrive(SmallChat, false);
    var s1 := Step(TINY_QUEUE, s0, arrive);
    var s2 := Step(TINY_QUEUE, s1, Pop);
    assert s2.phase == Holding([], [0]) && s2.queue == [];
    var s3 := Step(TINY_QUEUE, s2, arrive);
    assert s3.phase == Holding([], [0]) && s3.queue == [1];
    NothingToAssign(s3);
    var s4 := Step(TINY_QUEUE, s3, Assign);
    var s5 := Step(TINY_QUEUE, s4, PutBack);
    assert [arrive] + [Pop, arrive, Assign, PutBack] == [arrive, Pop, arrive, Assign, PutBack];
    assert [Pop] + [arrive, Assign, PutBack] == [Pop, arrive, Assign, PutBack];
    assert [arrive] + [Assign, PutBack] == [arrive, Assign, PutBack];
    RunOfTwo(TINY_QUEUE, s3, Assign, PutBack);
    RunOfMore(TINY_QUEUE, s2, arrive, [Assign, PutBack]);
    RunOfMore(TINY_QUEUE, s1, Pop, [arrive, Assign, PutBack]);
    RunOfMore(TINY_QUEUE, s0, arrive, [Pop, arrive, Assign, PutBack]);
  }

  /** A request to which the scheduler assigned nothing holds a slot of a registered backend. */
  ghost predicate TakesUnassigned(cfg: GatewayConfig, entries: seq<BackendEntry>, now: real, acts: seq<Action>, id: nat) {
    Feasible(cfg, Start(entries, now), acts)
    && var rs := Run(cfg, Start(entries, now), acts).requests;
       id < |rs| && HoldsSlot(rs[id]) && !rs[id].fate.Assigned?
  }

  /** A failed call to the fallback is retried on a registered backend with a free slot. */
  lemma FallbackFallsBack(cfg: GatewayConfig, s: State)
    requires WellFormed(s) && CallsFallback(cfg) && cfg.retry.maxAttempts >= 2
    requires FreeCapacity(s.backends, cfg.health, s.clock) > 0
    requires |s.requests| == 1 && s.requests[0].work == Calling(None, 1) && !s.requests[0].stream
    ensures Enabled(cfg, s, Return(0, Transport))
    ensures var rs := Step(cfg, s, Return(0, Transport)).requests;
      |rs| == 1 && HoldsSlot(rs[0]) && rs[0].fate == s.requests[0].fate
  {
    hide Resume, Place, ReturnEvents, ReleasesTwice, FreeCapacity;
    var bs, r := s.backends, s.requests[0];
    PlaceSpendsOne(cfg, bs, r.cl, s.clock);
    ResumeCases(cfg, bs, None, r.cl, false, 1, Transport, s.clock);
    assert Resume(cfg, bs, None, r.cl, false, 1, Transport, s.clock).next.Retry?;
  }

  /** An idle registry has free capacity as soon as some row has room. */
  lemma RoomIsCapacity(cfg: GatewayConfig, entries: seq<BackendEntry>, i: nat, now: real)
    requires cfg.health.maxErrorRate >= 0.0 && i < |Rows(entries)| && Room(Rows(entries)[i]) > 0
    ensures FreeCapacity(Rows(entries), cfg.health, now) > 0
  {
    hide FreeCapacity;
    FreshRow(entries, i, cfg.health);
    NoFreeCapacity(Rows(entries), cfg.health, now);
  }

  /** A refused or timed out request whose fallback call fails is retried past everyone in the queue. */
  lemma UnassignedCanTakeASlot(cfg: GatewayConfig, entries: seq<BackendEntry>, i: nat) returns (acts: seq<Action>)
    requires CallsFallback(cfg) && cfg.retry.maxAttempts >= 2 && cfg.health.maxErrorRate >= 0.0
    requires i < |Rows(entries)| && Room(Rows(entries)[i]) > 0
    ensures TakesUnassigned(cfg, entries, 0.0, acts, 0)
  {
    hide Resume, ReturnEvents, ReleasesTwice, Feasible, Run, Rows, FreeCapacity, Room;
    var arrive, back := Arrive(SmallChat, false), Return(0, Transport);
    var s0 := Start(entries, 0.0);
    var s1 := Step(cfg, s0, arrive);
    if cfg.scheduler.queueMaxSize <= 0 {
      RoomIsCapacity(cfg, entries, i, s1.clock);
      FallbackFallsBack(cfg, s1);
      acts := [arrive, back];
      RunOfTwo(cfg, s0, arrive, back);
    } else {
      var age := cfg.scheduler.queueMaxAgeMs as real / 1000.0;
      var wait := Advance(if age > 0.0 then age else 0.0);
      var s2 := Step(cfg, s1, wait);
      var s3 := Step(cfg, s2, TimeOut(0));
      var s4 := Step(cfg, s3, Wake(0));
      RoomIsCapacity(cfg, entries, i, s4.clock);
      FallbackFallsBack(cfg, s4);
      RunOfFour(cfg, s1, wait, TimeOut(0), Wake(0), back);
      RunOfMore(cfg, s0, arrive, [wait, TimeOut(0), Wake(0), back]);
      acts := [arrive] + [wait, TimeOut(0), Wake(0), back];
    }
  }

  /**
   * Slots go to requests the scheduler assigned, and to no others, in every run of a configuration if and
   * only if it cannot call a fallback, cannot retry, or has no backend that takes requests.
   */
  lemma OnlyAssignedHoldSlots(cfg: GatewayConfig, entries: seq<BackendEntry>)
    requires SaneHealth(cfg.health) && cfg.retry.maxAttempts >= 1 && cfg.health.maxErrorRate >= 0.0
    ensures (forall now, acts, id :: !TakesUnassigned(cfg, entries, now, acts, id))
            <==> !CallsFallback(cfg) || cfg.retry.maxAttempts < 2 || forall i :: 0 <= i < |Rows(entries)| ==> Room(Rows(entries)[i]) == 0
  {
    hide TakesUnassigned, Run, Feasible, Room;
    if i :| CallsFallback(cfg) && cfg.retry.maxAttempts >= 2 && 0 <= i < |Rows(entries)| && Room(Rows(entries)[i]) > 0 {
      var acts := UnassignedCanTakeASlot(cfg, entries, i);
    } else {
      forall now, acts, id
        ensures !TakesUnassigned(cfg, entries, now, acts, id)
      {
        NotTaken(cfg, entries, now, acts, id);
      }
    }
  }

  lemma NotTaken(cfg: GatewayConfig, entries: seq<BackendEntry>, now: real, acts: seq<Action>, id: nat)
    requires SaneHealth(cfg.health) && cfg.retry.maxAttempts >= 1
    requires !CallsFallback(cfg) || cfg.retry.maxAttempts < 2 || forall i :: 0 <= i < |Rows(entries)| ==> Room(Rows(entries)[i]) == 0
    ensures !TakesUnassigned(cfg, entries, now, acts, id)
  {
    hide Run, Feasible, Line, Holders, Room;
    if TakesUnassigned(cfg, entries, now, acts, id) {
      ResolvedExactlyOnce(cfg, entries, now, acts, id);
      NobodyServed(cfg, entries, now, acts, id);
    }
  }

  /** Where no backend has room nobody holds a slot. */
  lemma NobodyServed(cfg: GatewayConfig, entries: seq<BackendEntry>, now: real, acts: seq<Action>, id: nat)
    requires SaneHealth(cfg.health) && cfg.retry.maxAttempts >= 1 && Feasible(cfg, Start(entries, now), acts)
    requires forall i :: 0 <= i < |Rows(entries)| ==> Room(Rows(entries)[i]) == 0
    requires id < |Run(cfg, Start(entries, now), acts).requests|
    ensures !HoldsSlot(Run(cfg, Start(entries, now), acts).requests[id])
  {
    hide Run, Feasible, Holders, Room, LineSound, NoOvertaking, ArrivalsOrdered, Historied;
    var start := Start(entries, now);
    var s := Run(cfg, start, acts);
    StartOrderly(cfg, entries, now);
    RunOrderly(cfg, start, acts);
    StartHistoried(cfg, entries, now);
    RunHistoried(cfg, Rows(entries), now, start, acts);
    SameCount(cfg, entries, now, s);
    assert WorkSound(cfg, |s.backends|, s.requests[id]);
    if HoldsSlot(s.requests[id]) {
      var i := s.requests[id].work.at.value;
      HoldersWithinRoom(cfg, entries, now, acts, i);
      HoldersCoverOne(s.requests, id, i, false);
    }
  }

  // ---------- one backend, one call at a time ----------

  /** The only backend after a connection error that nobody else can retry: its slot is given back twice. */
  function FailedAlone(b: Backend, h: HealthConfig, now: real): Backend {
    AfterUpdateFailure(AfterFailure(b, h, now)).(inflight := Max(0, b.inflight - 2))
  }

  lemma NobodyElse(cfg: GatewayConfig, b: Backend, now: real)
    requires cfg.retry.maxAttempts >= 2
    ensures var res := Resume(cfg, [b], Some(0), SmallChat, false, 1, Transport, now);
      res.backends == [FailedAlone(b, cfg.health, now)] && res.next == Answer(Unreachable)
  {
    hide Place, Eligible, AfterFailure;
    FailureKeepsRest(b, cfg.health, now);
    var rel := Released(Noted([b], Some(0), Transport, false, cfg.health, now), Some(0), SmallChat);
    PlaceTakesOneEligibleSlot(cfg, rel, SmallChat, now, Avoid([b], Some(0)));
    ResumeCases(cfg, [b], Some(0), SmallChat, false, 1, Transport, now);
  }

  /** A first call of the only backend. */
  predicate IsCall(r: Request) { r.cl == SmallChat && !r.stream && r.work == Calling(Some(0), 1) }

  lemma FailTheCall(cfg: GatewayConfig, s: State, id: nat) returns (s': State)
    requires cfg.retry.maxAttempts >= 2 && Quiet(s) && |s.backends| == 1 && id < |s.requests| && IsCall(s.requests[id])
    ensures Feasible(cfg, s, [Return(id, Transport)]) && s' == Run(cfg, s, [Return(id, Transport)])
    ensures Quiet(s') && s'.clock == s.clock && s'.backends == [FailedAlone(s.backends[0], cfg.health, s.clock)]
    ensures s'.requests == s.requests[id := s.requests[id].(work := Finished(Served(Unreachable)))]
  {
    hide Run, Feasible, Resume, ReturnEvents, ReleasesTwice, FailedAlone;
    assert s.backends == [s.backends[0]];
    NobodyElse(cfg, s.backends[0], s.clock);
    s' := Step(cfg, s, Return(id, Transport));
    RunOfOne(cfg, s, Return(id, Transport));
  }

  lemma RunOfOne(cfg: GatewayConfig, s: State, a: Action)
    requires WellFormed(s) && Enabled(cfg, s, a)
    ensures Feasible(cfg, s, [a]) && Run(cfg, s, [a]) == Step(cfg, s, a)
  {
    hide Step, Enabled;
    RunOfNone(cfg, Step(cfg, s, a));
    RunOfMore(cfg, s, a, []);
    assert [a] + [] == [a];
  }

  /** Serving one more request on the only backend, which is eligible. */
  lemma ServeOnTheOnlyBackend(cfg: GatewayConfig, s: State) returns (s': State)
    requires Obliging(cfg) && Quiet(s) && |s.backends| == 1 && Eligible(s.backends[0], cfg.health, s.clock)
    ensures Feasible(cfg, s, Serving(SmallChat, false)) && s' == Run(cfg, s, Serving(SmallChat, false))
    ensures Quiet(s') && s'.clock == s.clock
    ensures s'.backends == [TakeSlot(AfterCooldownCheck(s.backends[0], cfg.health, s.clock), SmallChat, s.clock)]
    ensures s'.requests == s.requests + [Request(SmallChat, false, s.clock, Assigned(0), Calling(Some(0), 1), s.clock)]
  {
    hide Place, PlaceEvents, FreeCapacity, Run, Feasible, Eligible, TakeSlot, CooledDown;
    NoFreeCapacity(s.backends, cfg.health, s.clock);
    var p: nat;
    s', p := ServeOne(cfg, s, SmallChat, false);
    PlaceTakesOneEligibleSlot(cfg, s.backends, SmallChat, s.clock, None);
  }

  // ---------- the late success ----------

  /**
   * A half-open circuit can close without any probe having been sent: two requests are served, one fails and
   * opens the circuit, and after the cooldown the other one's answer closes it.
   */
  lemma LateSuccessClosesTheCircuit() returns (before: seq<Action>, acts: seq<Action>)
    ensures Feasible(BRITTLE, Start([ENTRY], 0.0), before)
    ensures var s := Run(BRITTLE, Start([ENTRY], 0.0), before);
      && |s.backends| == 1 && s.backends[0].circuit.Open? && s.backends[0].openedAt == Some(0.0)
      && ClosesUnprobed(BRITTLE, s, acts, 0)
  {
    hide Run, Feasible, Rows, ClosesUnprobed;
    var s0, serve, fail := Start([ENTRY], 0.0), Serving(SmallChat, false), [Return(0, Transport)];
    OneRow(ENTRY);
    var s1 := ServeOnTheOnlyBackend(BRITTLE, s0);
    var s2 := ServeOnTheOnlyBackend(BRITTLE, s1);
    var s3 := FailTheCall(BRITTLE, s2, 0);
    RunConcat(BRITTLE, s1, serve, fail);
    RunConcat(BRITTLE, s0, serve, serve + fail);
    before := serve + (serve + fail);
    acts := LateAnswerCloses(BRITTLE, s3, 0, 1);
  }

  // ---------- backends taken out for good ----------

  /** Two connection errors, one after the other, take an idle backend out for good before its circuit ever opens. */
  lemma TwoFailuresWedge() returns (acts: seq<Action>)
    ensures Feasible(NO_FALLBACK, Start([ENTRY], 0.0), acts)
    ensures var s := Run(NO_FALLBACK, Start([ENTRY], 0.0), acts);
      Wedged(NO_FALLBACK, s, 0) && !s.backends[0].drained && s.backends[0].circuit.Closed?
  {
    hide Run, Feasible, Rows;
    var cfg, s0, serve := NO_FALLBACK, Start([ENTRY], 0.0), Serving(SmallChat, false);
    OneRow(ENTRY);
    var s1 := ServeOnTheOnlyBackend(cfg, s0);
    var s2 := FailTheCall(cfg, s1, 0);
    var s3 := ServeOnTheOnlyBackend(cfg, s2);
    var s4 := FailTheCall(cfg, s3, 1);
    RunConcat(cfg, s2, serve, [Return(1, Transport)]);
    RunConcat(cfg, s1, [Return(0, Transport)], serve + [Return(1, Transport)]);
    RunConcat(cfg, s0, serve, [Return(0, Transport)] + (serve + [Return(1, Transport)]));
    acts := serve + ([Return(0, Transport)] + (serve + [Return(1, Transport)]));
  }

  /** A circuit that opens at the first failure, and a cap that one failure and one bad sample stay within. */
  const LENIENT := NO_FALLBACK.(health := HealthConfig(1, 15000, 1, 0.5))

  /** A 4xx answer to the probe. */
  lemma ProbeRefused(s: State) returns (s': State)
    requires Quiet(s) && |s.backends| == 1 && 1 < |s.requests| && IsCall(s.requests[1])
    ensures Feasible(LENIENT, s, [Return(1, Headers(404, 0.0))]) && s' == Run(LENIENT, s, [Return(1, Headers(404, 0.0))])
    ensures s'.backends == [AfterRelease(AfterUpdateFailure(s.backends[0]), SmallChat)]
    ensures s'.requests == s.requests[1 := s.requests[1].(work := Finished(Served(Relayed(404))))]
  {
    hide Run, Feasible, Resume, ReturnEvents, ReleasesTwice;
    assert s.backends == [s.backends[0]];
    ResumeCases(LENIENT, s.backends, Some(0), SmallChat, false, 1, Headers(404, 0.0), s.clock);
    s' := Step(LENIENT, s, Return(1, Headers(404, 0.0)));
    RunOfOne(LENIENT, s, Return(1, Headers(404, 0.0)));
  }

  /** A probe answered with a 4xx takes an idle backend out for good, though it is within the cap and has a free slot. */
  lemma RefusedProbeWedges() returns (acts: seq<Action>)
    ensures Feasible(LENIENT, Start([ENTRY], 0.0), acts)
    ensures var s := Run(LENIENT, Start([ENTRY], 0.0), acts);
      && Wedged(LENIENT, s, 0)
      && !s.backends[0].drained && s.backends[0].errorRate <= LENIENT.health.maxErrorRate
      && s.backends[0].inflight < s.backends[0].hardLimit
  {
    hide Run, Feasible, Rows;
    var cfg, s0, serve := LENIENT, Start([ENTRY], 0.0), Serving(SmallChat, false);
    var fail, wait, refuse := [Return(0, Transport)], [Advance(15.0)], [Return(1, Headers(404, 0.0))];
    OneRow(ENTRY);
    var s1 := ServeOnTheOnlyBackend(cfg, s0);
    var s2 := FailTheCall(cfg, s1, 0);
    var s3 := Step(cfg, s2, wait[0]);
    RunOfOne(cfg, s2, wait[0]);
    var s4 := ServeOnTheOnlyBackend(cfg, s3);
    var s5 := ProbeRefused(s4);
    RunConcat(cfg, s3, serve, refuse);
    RunConcat(cfg, s2, wait, serve + refuse);
    RunConcat(cfg, s1, fail, wait + (serve + refuse));
    RunConcat(cfg, s0, serve, fail + (wait + (serve + refuse)));
    acts := serve + (fail + (wait + (serve + refuse)));
  }
}
