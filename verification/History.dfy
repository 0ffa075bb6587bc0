/** Every backend of a running gateway is the replay of its own legal log, so what holds of logs holds of runs. */
module History {
  import opened Types
  import opened BackendState
  import opened Health
  import opened Registry
  import opened Scoring
  import opened Dispatcher
  import opened Proxy
  import opened Trace
  import opened Gateway

  /** Events of one instant that may follow each other on `b`. */
  ghost predicate Burst(b: Backend, es: seq<Event>, h: HealthConfig, now: real) {
    Legal(b, es, h, now) && forall k :: 0 <= k < |es| ==> es[k].at == now
  }

  lemma BurstOfOne(b: Backend, e: Event, h: HealthConfig)
    requires e.kind.Dispatch? ==> Admits(b, h)
    ensures Burst(b, [e], h, e.at) && Replay(b, [e], h) == Apply(b, e, h)
  {
    hide Apply, Admits;
    assert [e][..0] == [] && Replay(b, [e][..0], h) == b && Legal(b, [e][..0], h, e.at);
  }

  lemma BurstOfNone(b: Backend, h: HealthConfig, now: real)
    ensures Burst(b, [], h, now) && Replay(b, [], h) == b
  {
  }

  lemma BurstConcat(b: Backend, es: seq<Event>, fs: seq<Event>, h: HealthConfig, now: real)
    requires Burst(b, es, h, now) && Burst(Replay(b, es, h), fs, h, now)
    ensures Burst(b, es + fs, h, now) && Replay(b, es + fs, h) == Replay(Replay(b, es, h), fs, h)
  {
    hide Legal, Replay;
    ReplayConcat(b, es, fs, h, now);
    assert End(es, now) == now;
  }

  lemma PlaceBurst(cfg: GatewayConfig, bs: seq<Backend>, cl: RequestClass, now: real, avoid: Option<string>, i: nat)
    requires i < |bs|
    ensures var es := PlaceEvents(cfg, bs, cl, now, avoid, i);
      Burst(bs[i], es, cfg.health, now) && Replay(bs[i], es, cfg.health) == Place(cfg, bs, cl, now, avoid).backends[i]
  {
    hide Place, Admits, Burst, Legal, Replay, TakeSlot, CooledDown;
    PlaceTakesOneEligibleSlot(cfg, bs, cl, now, avoid);
    var b, h := bs[i], cfg.health;
    var check, take := Event(now, Check), Event(now, Dispatch(cl));
    var es := if Screened(b, avoid) then [check] else [];
    if Screened(b, avoid) { BurstOfOne(b, check, h); } else { BurstOfNone(b, h, now); }
    var c := Replay(b, es, h);
    var fs := if Place(cfg, bs, cl, now, avoid).target == Some(i) then [take] else [];
    if fs == [] { BurstOfNone(c, h, now); } else { BurstOfOne(c, take, h); }
    BurstConcat(b, es, fs, h, now);
  }

  lemma OutcomeBurst(bs: seq<Backend>, at: Option<nat>, o: Outcome, stream: bool, h: HealthConfig, now: real, i: nat)
    requires i < |bs|
    ensures var es := OutcomeEvents(at, o, stream, now, i);
      Burst(bs[i], es, h, now) && Replay(bs[i], es, h) == Noted(bs, at, o, stream, h, now)[i]
  {
    hide Burst, Legal, Replay, AfterSuccess, AfterFailure, AfterUpdateSuccess, AfterUpdateFailure, Admits;
    var b, es := bs[i], OutcomeEvents(at, o, stream, now, i);
    if es == [] {
      BurstOfNone(b, h, now);
    } else {
      BurstOfOne(b, es[0], h);
      if |es| == 2 {
        BurstOfOne(Apply(b, es[0], h), es[1], h);
        BurstConcat(b, [es[0]], [es[1]], h, now);
        assert es == [es[0]] + [es[1]];
      }
    }
  }

  lemma ReleaseBurst(bs: seq<Backend>, at: Option<nat>, cl: RequestClass, h: HealthConfig, now: real, i: nat)
    requires i < |bs|
    ensures var es := ReleaseEvents(at, cl, now, i);
      Burst(bs[i], es, h, now) && Replay(bs[i], es, h) == Released(bs, at, cl)[i]
  {
    hide Burst, Legal, Replay, AfterRelease, Admits;
    BurstOfNone(bs[i], h, now);
    BurstOfOne(bs[i], Event(now, Release(cl)), h);
  }

  /** The events recorded for a returning call are exactly what `Resume` does to each backend. */
  lemma ReturnBurst(cfg: GatewayConfig, bs: seq<Backend>, at: Option<nat>, cl: RequestClass, stream: bool,
                    attempts: nat, o: Outcome, now: real, i: nat)
    requires i < |bs|
    ensures var es := ReturnEvents(cfg, bs, at, cl, stream, attempts, o, now, i);
      && Burst(bs[i], es, cfg.health, now)
      && Replay(bs[i], es, cfg.health) == Resume(cfg, bs, at, cl, stream, attempts, o, now).backends[i]
  {
    hide Burst, Replay, Noted, Released, Place, Resume, OutcomeEvents, ReleaseEvents, PlaceEvents, WantsRetry, Avoid;
    var h := cfg.health;
    ResumeCases(cfg, bs, at, cl, stream, attempts, o, now);
    var noted := Noted(bs, at, o, stream, h, now);
    var rel := Released(noted, at, cl);
    var es, fs := OutcomeEvents(at, o, stream, now, i), ReleaseEvents(at, cl, now, i);
    OutcomeBurst(bs, at, o, stream, h, now, i);
    ReleaseBurst(noted, at, cl, h, now, i);
    BurstConcat(bs[i], es, fs, h, now);
    if !Succeeded(o) && WantsRetry(cfg, stream, attempts, o) {
      var pl, gs := Place(cfg, rel, cl, now, Avoid(bs, at)), PlaceEvents(cfg, rel, cl, now, Avoid(bs, at), i);
      PlaceBurst(cfg, rel, cl, now, Avoid(bs, at), i);
      BurstConcat(bs[i], es + fs, gs, h, now);
      assert es + (fs + gs + []) == es + fs + gs;
      if pl.target.None? {
        ReleaseBurst(pl.backends, at, cl, h, now, i);
        BurstConcat(bs[i], es + fs + gs, fs, h, now);
        assert es + (fs + gs + fs) == es + fs + gs + fs;
      }
    } else if Succeeded(o) && stream {
      assert es + [] == es;
    }
  }

  // ---------- the invariant ----------

  /** `b` is the replay of a legal log that ends in the past. */
  predicate Logged(b0: Backend, log: seq<Event>, b: Backend, h: HealthConfig, birth: real, clock: real) {
    b == Replay(b0, log, h) && Legal(b0, log, h, birth) && End(log, birth) <= clock
  }

  predicate Historied(cfg: GatewayConfig, base: seq<Backend>, birth: real, s: State) {
    && |base| == |s.backends| == |s.logs|
    && forall i :: 0 <= i < |base| ==> Logged(base[i], s.logs[i], s.backends[i], cfg.health, birth, s.clock)
  }

  lemma {:induction false} LegalFromLater(b: Backend, es: seq<Event>, h: HealthConfig, from: real, now: real)
    requires from <= now && Legal(b, es, h, now)
    ensures Legal(b, es, h, from)
    ensures from <= End(es, from) || es == []
    ensures now <= End(es, now)
  {
    hide Admits;
    if es != [] {
      LegalFromLater(b, es[..|es| - 1], h, from, now);
    }
  }

  lemma LoggedBurst(b0: Backend, log: seq<Event>, b: Backend, es: seq<Event>, h: HealthConfig, birth: real, clock: real)
    requires Logged(b0, log, b, h, birth, clock) && Burst(b, es, h, clock)
    ensures Logged(b0, log + es, Replay(b, es, h), h, birth, clock)
  {
    hide Replay, Legal;
    ReplayConcat(b0, log, es, h, birth);
    LegalFromLater(b, es, h, End(log, birth), clock);
  }

  lemma AssignNextHistoried(cfg: GatewayConfig, base: seq<Backend>, birth: real, s: State)
    requires WellFormed(s) && s.phase.Holding? && s.phase.rest != [] && Historied(cfg, base, birth, s)
    ensures Historied(cfg, base, birth, AssignNext(cfg, s))
  {
    hide Logged, Burst, Replay, Place, PlaceEvents, TooOld;
    var s', r := AssignNext(cfg, s), s.requests[Head(s)];
    forall i | 0 <= i < |base|
      ensures Logged(base[i], s'.logs[i], s'.backends[i], cfg.health, birth, s'.clock)
    {
      PlaceBurst(cfg, s.backends, r.cl, s.clock, None, i);
      BurstOfNone(s.backends[i], cfg.health, s.clock);
      LoggedBurst(base[i], s.logs[i], s.backends[i],
                  VerdictEvents(cfg, s.backends, TicketOf(r), s.clock, i), cfg.health, birth, s.clock);
    }
  }

  lemma {:induction false} AssignAllHistoried(cfg: GatewayConfig, base: seq<Backend>, birth: real, s: State)
    requires WellFormed(s) && s.phase.Holding? && Historied(cfg, base, birth, s)
    ensures Historied(cfg, base, birth, AssignAll(cfg, s))
    decreases |s.phase.rest|
  {
    hide Historied, AssignNext;
    if s.phase.rest != [] {
      AssignNextHistoried(cfg, base, birth, s);
      AssignAllHistoried(cfg, base, birth, AssignNext(cfg, s));
    }
  }

  lemma ReturnHistoried(cfg: GatewayConfig, base: seq<Backend>, birth: real, s: State, id: nat, o: Outcome)
    requires WellFormed(s) && Enabled(cfg, s, Return(id, o)) && Historied(cfg, base, birth, s)
    ensures Historied(cfg, base, birth, ReturnStep(cfg, s, id, o))
  {
    hide Logged, Burst, Replay, Resume, ReturnEvents, ReleasesTwice;
    var s', r := ReturnStep(cfg, s, id, o), s.requests[id];
    forall i | 0 <= i < |base|
      ensures Logged(base[i], s'.logs[i], s'.backends[i], cfg.health, birth, s'.clock)
    {
      ReturnBurst(cfg, s.backends, r.work.at, r.cl, r.stream, r.work.attempts, o, s.clock, i);
      LoggedBurst(base[i], s.logs[i], s.backends[i],
                  ReturnEvents(cfg, s.backends, r.work.at, r.cl, r.stream, r.work.attempts, o, s.clock, i),
                  cfg.health, birth, s.clock);
    }
  }

  lemma StreamEndHistoried(cfg: GatewayConfig, base: seq<Backend>, birth: real, s: State, id: nat, e2eMs: real)
    requires WellFormed(s) && Enabled(cfg, s, StreamEnd(id, e2eMs)) && Historied(cfg, base, birth, s)
    ensures Historied(cfg, base, birth, StreamEndStep(s, id, e2eMs))
  {
    hide Logged, Burst, Replay, AfterUpdateSuccess, AfterRelease, Admits;
    var s', r, h := StreamEndStep(s, id, e2eMs), s.requests[id], cfg.health;
    var good, rel := Event(s.clock, GoodSample(None, e2eMs)), Event(s.clock, Release(r.cl));
    forall i | 0 <= i < |base|
      ensures Logged(base[i], s'.logs[i], s'.backends[i], h, birth, s'.clock)
    {
      var b := s.backends[i];
      BurstOfNone(b, h, s.clock);
      BurstOfOne(b, good, h);
      BurstOfOne(Apply(b, good, h), rel, h);
      BurstConcat(b, [good], [rel], h, s.clock);
      assert [good] + [rel] == [good, rel];
      LoggedBurst(base[i], s.logs[i], b, if r.work.at == Some(i) then [good, rel] else [], h, birth, s.clock);
    }
  }

  lemma SweepHistoried(cfg: GatewayConfig, base: seq<Backend>, birth: real, s: State)
    requires WellFormed(s) && Historied(cfg, base, birth, s)
    ensures Historied(cfg, base, birth, SweepStep(cfg, s))
  {
    hide Logged, Burst, Replay, Admits;
    var s', check := SweepStep(cfg, s), Event(s.clock, Check);
    forall i | 0 <= i < |base|
      ensures Logged(base[i], s'.logs[i], s'.backends[i], cfg.health, birth, s'.clock)
    {
      BurstOfOne(s.backends[i], check, cfg.health);
      LoggedBurst(base[i], s.logs[i], s.backends[i], [check], cfg.health, birth, s.clock);
    }
  }

  /** Every step keeps every backend the replay of its log. */
  lemma StepHistoried(cfg: GatewayConfig, base: seq<Backend>, birth: real, s: State, a: Action)
    requires WellFormed(s) && Enabled(cfg, s, a) && Historied(cfg, base, birth, s)
    ensures Historied(cfg, base, birth, Step(cfg, s, a))
  {
    hide Replay, Legal, AssignAll, ReturnStep, StreamEndStep, SweepStep, FallbackOr;
    match a
    case Sweep => SweepHistoried(cfg, base, birth, s);
    case Assign => AssignAllHistoried(cfg, base, birth, s);
    case Return(id, o) => ReturnHistoried(cfg, base, birth, s, id, o);
    case StreamEnd(id, e2e) => StreamEndHistoried(cfg, base, birth, s, id, e2e);
    case _ =>
  }

  lemma {:induction false} RunHistoried(cfg: GatewayConfig, base: seq<Backend>, birth: real, s: State, acts: seq<Action>)
    requires WellFormed(s) && Feasible(cfg, s, acts) && Historied(cfg, base, birth, s)
    ensures Historied(cfg, base, birth, Run(cfg, s, acts))
    decreases |acts|
  {
    hide Historied, Step;
    if acts != [] {
      StepHistoried(cfg, base, birth, s, acts[0]);
      RunHistoried(cfg, base, birth, Step(cfg, s, acts[0]), acts[1..]);
    }
  }

  lemma StartHistoried(cfg: GatewayConfig, entries: seq<BackendEntry>, birth: real)
    ensures Historied(cfg, Rows(entries), birth, Start(entries, birth))
  {
  }

  // ---------- what every run inherits ----------

  predicate LogsGrow(s: State, s': State) {
    |s.logs| == |s'.logs| && forall i :: 0 <= i < |s.logs| ==> s.logs[i] <= s'.logs[i]
  }

  lemma {:induction false} AssignAllGrows(cfg: GatewayConfig, s: State)
    requires WellFormed(s) && s.phase.Holding?
    ensures LogsGrow(s, AssignAll(cfg, s)) && AssignAll(cfg, s).clock == s.clock
    decreases |s.phase.rest|
  {
    hide AssignOne, VerdictEvents, AfterVerdict;
    if s.phase.rest != [] {
      AssignAllGrows(cfg, AssignNext(cfg, s));
    }
  }

  lemma StepGrows(cfg: GatewayConfig, s: State, a: Action)
    requires WellFormed(s) && Enabled(cfg, s, a)
    ensures LogsGrow(s, Step(cfg, s, a)) && s.clock <= Step(cfg, s, a).clock
  {
    hide AssignAll, FallbackOr, Resume, ReturnEvents, ReleasesTwice, Refreshed;
    if a.Assign? {
      AssignAllGrows(cfg, s);
    }
  }

  /** Time does not run backwards in a run, and logs are only added to. */
  lemma {:induction false} RunGrows(cfg: GatewayConfig, s: State, acts: seq<Action>)
    requires WellFormed(s) && Feasible(cfg, s, acts)
    ensures LogsGrow(s, Run(cfg, s, acts)) && s.clock <= Run(cfg, s, acts).clock
    decreases |acts|
  {
    hide Step;
    if acts != [] {
      StepGrows(cfg, s, acts[0]);
      RunGrows(cfg, Step(cfg, s, acts[0]), acts[1..]);
    }
  }

  /** The events of backend `i` during a run. */
  function EventsOf(s: State, s': State, i: nat): seq<Event>
    requires i < |s.logs| && LogsGrow(s, s')
  {
    s'.logs[i][|s.logs[i]|..]
  }

  /**
   * On every run from a start state, every backend keeps its circuit fields consistent, never holds more
   * slots than its hard limit, keeps its error rate in [0, 1), and counts its recent dispatches as its
   * complete history does.
   */
  lemma BackendsStaySound(cfg: GatewayConfig, entries: seq<BackendEntry>, birth: real, acts: seq<Action>, i: nat)
    requires SaneHealth(cfg.health) && Feasible(cfg, Start(entries, birth), acts)
    requires i < |Run(cfg, Start(entries, birth), acts).backends|
    ensures var s := Run(cfg, Start(entries, birth), acts);
      var b := s.backends[i];
      && CircuitSound(b, cfg.health)
      && 0.0 <= b.errorRate < 1.0
      && |s.logs| == |s.backends|
      && forall windowSec, now :: DispatchesInWindow(b, windowSec, now)
           == Min(WINDOW_CAPACITY, Recent(DispatchHistory(s.logs[i]), now - windowSec))
  {
    hide Run, Feasible, Replay, Legal, DispatchesInWindow, DispatchHistory, CircuitSound;
    var s, base, h := Run(cfg, Start(entries, birth), acts), Rows(entries), cfg.health;
    StartHistoried(cfg, entries, birth);
    RunHistoried(cfg, base, birth, Start(entries, birth), acts);
    FreshRow(entries, i, h);
    assert Logged(base[i], s.logs[i], s.backends[i], h, birth, s.clock);
    CircuitStaysSound(base[i], s.logs[i], h, birth);
    ErrorRateStaysBelowOne(base[i], s.logs[i], h);
    forall windowSec, now
      ensures DispatchesInWindow(s.backends[i], windowSec, now)
              == Min(WINDOW_CAPACITY, Recent(DispatchHistory(s.logs[i]), now - windowSec))
    {
      ShareRefinesHistory(base[i], s.logs[i], h, birth, windowSec, now);
    }
  }

  lemma {:induction false} FreshRow(entries: seq<BackendEntry>, i: nat, h: HealthConfig)
    requires i < |Rows(entries)|
    ensures exists e :: Rows(entries)[i] == FromEntry(e)
    ensures SaneHealth(h) ==> CircuitSound(Rows(entries)[i], h)
  {
    var n := |entries| - 1;
    if i < |Rows(entries[..n])| && Rows(entries)[i] == Rows(entries[..n])[i] {
      FreshRow(entries[..n], i, h);
    } else {
      assert Rows(entries)[i] == FromEntry(entries[n]);
    }
  }

  /**
   * On every run from a start state: a circuit that is open since `t0` lets through, until the first
   * reported success, at most `halfOpenMaxInflight` dispatches per whole cooldown period.
   */
  lemma FailingBackendTraffic(cfg: GatewayConfig, entries: seq<BackendEntry>, birth: real,
                              before: seq<Action>, acts: seq<Action>, i: nat, t0: real)
    requires SaneHealth(cfg.health) && Feasible(cfg, Start(entries, birth), before)
    requires var s := Run(cfg, Start(entries, birth), before);
      && i < |s.backends| && s.backends[i].circuit.Open? && s.backends[i].openedAt == Some(t0)
      && Feasible(cfg, s, acts)
    ensures var s := Run(cfg, Start(entries, birth), before);
      var s' := Run(cfg, s, acts);
      && i < |s.logs| && LogsGrow(s, s')
      && (Successes(EventsOf(s, s', i)) == 0 ==>
        Dispatches(EventsOf(s, s', i)) <= cfg.health.halfOpenMaxInflight * Periods(t0, s'.clock, cfg.health))
  {
    hide Run, Feasible, Replay, Legal, Count, Periods;
    var base, h := Rows(entries), cfg.health;
    var s := Run(cfg, Start(entries, birth), before);
    var s' := Run(cfg, s, acts);
    StartHistoried(cfg, entries, birth);
    RunHistoried(cfg, base, birth, Start(entries, birth), before);
    RunHistoried(cfg, base, birth, s, acts);
    RunGrows(cfg, s, acts);
    assert Logged(base[i], s.logs[i], s.backends[i], h, birth, s.clock);
    assert Logged(base[i], s'.logs[i], s'.backends[i], h, birth, s'.clock);
    var post, from := EventsOf(s, s', i), End(s.logs[i], birth);
    assert s'.logs[i] == s.logs[i] + post;
    ReplayConcat(base[i], s.logs[i], post, h, birth);
    FreshRow(entries, i, h);
    OpenedInThePast(base[i], s.logs[i], h, birth);
    if Successes(post) == 0 {
      TrafficBound(s.backends[i], post, h, t0, from);
      LegalFromLater(s.backends[i], post, h, from, from);
      assert End(post, from) <= s'.clock;
      PeriodsGrow(t0, End(post, from), s'.clock, h);
      ProductMonotone(h.halfOpenMaxInflight, Periods(t0, End(post, from), h), Periods(t0, s'.clock, h));
    }
  }

  /** On every run the failure counter of a backend is the number of its failures since the last reset, at event `k`. */
  lemma FailureCountOnRuns(cfg: GatewayConfig, entries: seq<BackendEntry>, birth: real, acts: seq<Action>, i: nat, k: nat)
    requires SaneHealth(cfg.health) && Feasible(cfg, Start(entries, birth), acts)
    requires i < |Rows(entries)| && i < |Run(cfg, Start(entries, birth), acts).logs|
    requires var log, b := Run(cfg, Start(entries, birth), acts).logs[i], Rows(entries)[i];
      && k <= |log|
      && (k > 0 ==> Resets(b, log, cfg.health, k - 1))
      && forall j :: k <= j < |log| ==> !Resets(b, log, cfg.health, j)
    ensures var s := Run(cfg, Start(entries, birth), acts);
      i < |s.backends| && s.backends[i].failures == Failures(s.logs[i][k..])
  {
    hide Run, Feasible, Replay, Legal, Resets;
    var s, base := Run(cfg, Start(entries, birth), acts), Rows(entries);
    StartHistoried(cfg, entries, birth);
    RunHistoried(cfg, base, birth, Start(entries, birth), acts);
    FreshRow(entries, i, cfg.health);
    assert Logged(base[i], s.logs[i], s.backends[i], cfg.health, birth, s.clock);
    StreakCountsFailures(base[i], s.logs[i], cfg.health, k);
  }

  /** On every run, until the next reported success, a closed circuit trips at exactly the threshold-th failure. */
  lemma TripsAtTheThreshold(cfg: GatewayConfig, entries: seq<BackendEntry>, birth: real,
                            before: seq<Action>, acts: seq<Action>, i: nat)
    requires SaneHealth(cfg.health) && Feasible(cfg, Start(entries, birth), before)
    requires var s := Run(cfg, Start(entries, birth), before);
      i < |s.backends| && s.backends[i].circuit.Closed? && Feasible(cfg, s, acts)
    ensures var s := Run(cfg, Start(entries, birth), before);
      var s' := Run(cfg, s, acts);
      && i < |s.logs| && LogsGrow(s, s') && i < |s'.backends|
      && (Successes(EventsOf(s, s', i)) == 0 ==>
        (s'.backends[i].circuit.Closed? <==>
          s.backends[i].failures + Failures(EventsOf(s, s', i)) < cfg.health.consecutiveFailuresOpen))
  {
    hide Run, Feasible, Replay, Legal, Count;
    var base, h := Rows(entries), cfg.health;
    var s := Run(cfg, Start(entries, birth), before);
    var s' := Run(cfg, s, acts);
    StartHistoried(cfg, entries, birth);
    RunHistoried(cfg, base, birth, Start(entries, birth), before);
    RunHistoried(cfg, base, birth, s, acts);
    RunGrows(cfg, s, acts);
    BackendsStaySound(cfg, entries, birth, before, i);
    assert Logged(base[i], s.logs[i], s.backends[i], h, birth, s.clock);
    assert Logged(base[i], s'.logs[i], s'.backends[i], h, birth, s'.clock);
    var post := EventsOf(s, s', i);
    assert s'.logs[i] == s.logs[i] + post;
    ReplayConcat(base[i], s.logs[i], post, h, birth);
    if Successes(post) == 0 {
      ClosedUntilThreshold(s.backends[i], post, h);
    }
  }

  /** On every run, dispatches only ever happen at instants at which the backend passes the eligibility checks. */
  lemma DispatchedOnlyWhenAdmitted(cfg: GatewayConfig, entries: seq<BackendEntry>, birth: real, acts: seq<Action>, i: nat, k: nat)
    requires Feasible(cfg, Start(entries, birth), acts)
    requires var s := Run(cfg, Start(entries, birth), acts);
      i < |s.logs| && k < |s.logs[i]| && s.logs[i][k].kind.Dispatch?
    ensures var s := Run(cfg, Start(entries, birth), acts);
      i < |Rows(entries)| && Admits(Replay(Rows(entries)[i], s.logs[i][..k], cfg.health), cfg.health)
  {
    hide Run, Feasible;
    var s := Run(cfg, Start(entries, birth), acts);
    StartHistoried(cfg, entries, birth);
    RunHistoried(cfg, Rows(entries), birth, Start(entries, birth), acts);
    DispatchAdmitted(Rows(entries)[i], s.logs[i], cfg.health, birth, k);
  }
}
