/** The circuit breaker and the error cap together: an opened backend without holders gets no probe. */
module Lockout {
  import opened Types
  import opened BackendState
  import opened Registry
  import opened Scoring
  import opened Dispatcher
  import opened Proxy
  import opened Trace
  import opened Gateway
  import opened History
  import opened Wedge

  /** Every failure comes with a bad sample, and every success with a good one. */
  predicate Paired(es: seq<Event>) {
    Failures(es) <= BadSamples(es) && Successes(es) <= GoodSamples(es)
  }

  lemma PairedConcat(es: seq<Event>, fs: seq<Event>)
    requires Paired(es) && Paired(fs)
    ensures Paired(es + fs)
  {
    hide Count;
    CountConcat(es, fs, IsFailure);
    CountConcat(es, fs, IsBadSample);
    CountConcat(es, fs, IsSuccess);
    CountConcat(es, fs, IsGoodSample);
  }

  lemma PairedNone()
    ensures Paired([])
  {
  }

  lemma CountOne(e: Event, p: Kind -> bool)
    ensures Count([e], p) == if p(e.kind) then 1 else 0
  {
    var none: seq<Event> := [];
    assert [e][..0] == none && Count(none, p) == 0;
  }

  lemma PairedOne(e: Event)
    requires !e.kind.Failure? && !e.kind.Success?
    ensures Paired([e])
  {
    hide Count;
    CountOne(e, IsFailure);
    CountOne(e, IsSuccess);
  }

  lemma PairedTwo(e: Event, f: Event)
    requires (e.kind.Failure? && f.kind.BadSample?) || (e.kind.Success? && f.kind.GoodSample?)
    ensures Paired([e, f])
  {
    hide Count;
    assert [e, f] == [e] + [f];
    CountBoth(e, f, IsFailure);
    CountBoth(e, f, IsBadSample);
    CountBoth(e, f, IsSuccess);
    CountBoth(e, f, IsGoodSample);
  }

  lemma CountBoth(e: Event, f: Event, p: Kind -> bool)
    ensures Count([e] + [f], p) == (if p(e.kind) then 1 else 0) + (if p(f.kind) then 1 else 0)
  {
    hide Count;
    CountConcat([e], [f], p);
    CountOne(e, p);
    CountOne(f, p);
  }

  lemma PlaceIsPaired(cfg: GatewayConfig, bs: seq<Backend>, cl: RequestClass, now: real, avoid: Option<string>, i: nat)
    requires i < |bs|
    ensures Paired(PlaceEvents(cfg, bs, cl, now, avoid, i))
  {
    hide Place, Paired;
    PairedNone();
    PairedOne(Event(now, Check));
    PairedOne(Event(now, Dispatch(cl)));
    PairedConcat([Event(now, Check)], [Event(now, Dispatch(cl))]);
    var none: seq<Event> := [];
    assert none + none == none;
    assert [Event(now, Check)] + none == [Event(now, Check)];
    assert none + [Event(now, Dispatch(cl))] == [Event(now, Dispatch(cl))];
  }

  lemma ReturnIsPaired(cfg: GatewayConfig, bs: seq<Backend>, at: Option<nat>, cl: RequestClass, stream: bool,
                       attempts: nat, o: Outcome, now: real, i: nat)
    requires i < |bs|
    ensures Paired(ReturnEvents(cfg, bs, at, cl, stream, attempts, o, now, i))
  {
    hide Place, Paired, PlaceEvents, WantsRetry, ReleasesTwice, Avoid, AfterOutcome;
    var outcome, release := OutcomeEvents(at, o, stream, now, i), ReleaseEvents(at, cl, now, i);
    var rel := Released(Noted(bs, at, o, stream, cfg.health, now), at, cl);
    var place := PlaceEvents(cfg, rel, cl, now, Avoid(bs, at), i);
    var none: seq<Event> := [];
    PairedNone();
    OutcomeIsPaired(at, o, stream, now, i);
    PairedOne(Event(now, Release(cl)));
    PlaceIsPaired(cfg, rel, cl, now, Avoid(bs, at), i);
    PairedConcat(release, place);
    PairedConcat(release + place, release);
    PairedConcat(release + place, none);
    PairedConcat(outcome, release + place + release);
    PairedConcat(outcome, release + place + none);
    PairedConcat(outcome, release);
    PairedConcat(outcome, none);
  }

  lemma OutcomeIsPaired(at: Option<nat>, o: Outcome, stream: bool, now: real, i: nat)
    ensures Paired(OutcomeEvents(at, o, stream, now, i))
  {
    hide Paired;
    var es := OutcomeEvents(at, o, stream, now, i);
    PairedNone();
    if |es| == 2 {
      PairedTwo(es[0], es[1]);
      assert es == [es[0], es[1]];
    } else if |es| == 1 {
      PairedOne(es[0]);
      assert es == [es[0]];
    }
  }

  /** The log of backend `i` has grown by paired events. */
  predicate GrowsPaired(s: State, s': State, i: nat) {
    i < |s.logs| == |s'.logs| && s.logs[i] <= s'.logs[i] && Paired(s'.logs[i][|s.logs[i]|..])
  }

  lemma GrowsBy(s: State, s': State, i: nat, es: seq<Event>)
    requires i < |s.logs| == |s'.logs| && s'.logs[i] == s.logs[i] + es && Paired(es)
    ensures GrowsPaired(s, s', i)
  {
    hide Paired;
    assert s'.logs[i][|s.logs[i]|..] == es;
  }

  lemma GrowsTwice(s: State, s1: State, s2: State, i: nat)
    requires GrowsPaired(s, s1, i) && GrowsPaired(s1, s2, i)
    ensures GrowsPaired(s, s2, i)
  {
    hide Paired;
    var es, fs := s1.logs[i][|s.logs[i]|..], s2.logs[i][|s1.logs[i]|..];
    PairedConcat(es, fs);
    assert s2.logs[i] == s.logs[i] + (es + fs);
    GrowsBy(s, s2, i, es + fs);
  }

  lemma AssignNextPaired(cfg: GatewayConfig, s: State, i: nat)
    requires WellFormed(s) && s.phase.Holding? && s.phase.rest != [] && i < |s.backends|
    ensures GrowsPaired(s, AssignNext(cfg, s), i)
  {
    hide Place, PlaceEvents, TooOld, Paired, GrowsPaired;
    var r := s.requests[Head(s)];
    PairedNone();
    PlaceIsPaired(cfg, s.backends, r.cl, s.clock, None, i);
    GrowsBy(s, AssignNext(cfg, s), i, VerdictEvents(cfg, s.backends, TicketOf(r), s.clock, i));
  }

  lemma GrowsByNothing(s: State, s': State, i: nat)
    requires i < |s.logs| == |s'.logs| && s'.logs[i] == s.logs[i]
    ensures GrowsPaired(s, s', i)
  {
    hide Paired, GrowsPaired;
    PairedNone();
    assert s.logs[i] + [] == s.logs[i];
    GrowsBy(s, s', i, []);
  }

  lemma {:induction false} AssignAllPaired(cfg: GatewayConfig, s: State, i: nat)
    requires WellFormed(s) && s.phase.Holding? && i < |s.backends|
    ensures GrowsPaired(s, AssignAll(cfg, s), i)
    decreases |s.phase.rest|
  {
    hide AssignNext, Paired;
    if s.phase.rest == [] {
      GrowsByNothing(s, s, i);
    } else {
      var s1 := AssignNext(cfg, s);
      AssignNextPaired(cfg, s, i);
      AssignAllPaired(cfg, s1, i);
      GrowsTwice(s, s1, AssignAll(cfg, s1), i);
    }
  }

  lemma StepPaired(cfg: GatewayConfig, s: State, a: Action, i: nat)
    requires WellFormed(s) && Enabled(cfg, s, a) && i < |s.backends|
    ensures GrowsPaired(s, Step(cfg, s, a), i)
  {
    hide AssignAll, GrowsPaired, Paired, Resume, ReturnEvents, ReleasesTwice, FallbackOr, Refreshed;
    var s' := Step(cfg, s, a);
    match a
    case Sweep =>
      PairedOne(Event(s.clock, Check));
      GrowsBy(s, s', i, [Event(s.clock, Check)]);
    case Assign => AssignAllPaired(cfg, s, i);
    case Return(id, o) =>
      var r := s.requests[id];
      ReturnIsPaired(cfg, s.backends, r.work.at, r.cl, r.stream, r.work.attempts, o, s.clock, i);
      GrowsBy(s, s', i, ReturnEvents(cfg, s.backends, r.work.at, r.cl, r.stream, r.work.attempts, o, s.clock, i));
    case StreamEnd(id, e2e) =>
      var good, rel := Event(s.clock, GoodSample(None, e2e)), Event(s.clock, Release(s.requests[id].cl));
      PairedNone();
      PairedOne(good);
      PairedOne(rel);
      PairedConcat([good], [rel]);
      assert [good] + [rel] == [good, rel];
      GrowsBy(s, s', i, if s.requests[id].work.at == Some(i) then [good, rel] else []);
    case _ => GrowsByNothing(s, s', i);
  }

  /** On every run the failures reported to a circuit are bad samples of its backend too, and the successes good ones. */
  lemma {:induction false} RunPaired(cfg: GatewayConfig, s: State, acts: seq<Action>, i: nat)
    requires WellFormed(s) && Feasible(cfg, s, acts) && i < |s.logs|
    ensures GrowsPaired(s, Run(cfg, s, acts), i)
    decreases |acts|
  {
    hide Step, GrowsPaired;
    if acts == [] {
      GrowsByNothing(s, s, i);
    } else {
      var s1 := Step(cfg, s, acts[0]);
      StepPaired(cfg, s, acts[0], i);
      LogCount(s, s1, i);
      RunPaired(cfg, s1, acts[1..], i);
      GrowsTwice(s, s1, Run(cfg, s1, acts[1..]), i);
    }
  }

  lemma LogCount(s: State, s': State, i: nat)
    requires GrowsPaired(s, s', i)
    ensures i < |s'.logs|
  {
  }

  /** At least `n` failures in a row, from any rate, reach `1 - (3/4)^n`. */
  lemma RateOfStreak(rate: real, n: nat, bad: nat)
    requires 0.0 <= rate < 1.0 && n <= bad
    ensures 1.0 - Pow(0.75, bad) * (1.0 - rate) >= 1.0 - Pow(0.75, n)
  {
    hide Pow;
    var p := Pow(0.75, bad);
    PowDecreases(0.75, n, bad);
    TermGrows(p, 1.0 - rate, 1.0);
  }

  /**
   * On every run: take a backend whose circuit is closed, and later is not, with no good sample in between.
   * If the error cap is below what the failures up to the threshold leave, and nobody holds a slot of the
   * backend any more, then it is wedged: however long the cooldown has been over, it gets no probe.
   */
  lemma BreakerLocksOut(cfg: GatewayConfig, entries: seq<BackendEntry>, birth: real, before: seq<Action>, acts: seq<Action>, i: nat)
    requires SaneHealth(cfg.health) && Feasible(cfg, Start(entries, birth), before)
    requires var s := Run(cfg, Start(entries, birth), before);
      && i < |s.backends| && s.backends[i].circuit.Closed? && Feasible(cfg, s, acts)
      && s.backends[i].failures < cfg.health.consecutiveFailuresOpen
      && cfg.health.maxErrorRate < 1.0 - Pow(0.75, cfg.health.consecutiveFailuresOpen - s.backends[i].failures)
    requires var s := Run(cfg, Start(entries, birth), before);
      var s' := Run(cfg, s, acts);
      && i < |s.logs| && i < |s'.backends| && LogsGrow(s, s')
      && !s'.backends[i].circuit.Closed? && GoodSamples(EventsOf(s, s', i)) == 0 && NoHolder(s'.requests, i)
    ensures Wedged(cfg, Run(cfg, Run(cfg, Start(entries, birth), before), acts), i)
  {
    hide Run, Feasible, Replay, Legal, Count, Pow, NoHolder, Stuck, DispatchesInWindow;
    var base, h := Rows(entries), cfg.health;
    var s := Run(cfg, Start(entries, birth), before);
    var s' := Run(cfg, s, acts);
    var post := EventsOf(s, s', i);
    TripsAtTheThreshold(cfg, entries, birth, before, acts, i);
    RunPaired(cfg, s, acts, i);
    BackendsStaySound(cfg, entries, birth, before, i);
    RunReplays(cfg, entries, birth, before, acts, i);
    StreakShutsOut(s.backends[i], post, h, h.consecutiveFailuresOpen - s.backends[i].failures);
  }

  lemma StreakShutsOut(b: Backend, log: seq<Event>, h: HealthConfig, n: nat)
    requires 0.0 <= b.errorRate < 1.0 && GoodSamples(log) == 0 && BadSamples(log) >= n
    requires h.maxErrorRate < 1.0 - Pow(0.75, n)
    ensures Stuck(Replay(b, log, h), h)
  {
    hide Replay, Count, Pow;
    UninterruptedFailures(b, log, h);
    RateOfStreak(b.errorRate, n, BadSamples(log));
  }

  /** The later backend is the replay of the events in between. */
  lemma RunReplays(cfg: GatewayConfig, entries: seq<BackendEntry>, birth: real, before: seq<Action>, acts: seq<Action>, i: nat)
    requires Feasible(cfg, Start(entries, birth), before)
    requires var s := Run(cfg, Start(entries, birth), before); i < |s.backends| && Feasible(cfg, s, acts)
    ensures var s := Run(cfg, Start(entries, birth), before);
      var s' := Run(cfg, s, acts);
      i < |s.logs| && LogsGrow(s, s') && i < |s'.backends|
      && s'.backends[i] == Replay(s.backends[i], EventsOf(s, s', i), cfg.health)
  {
    hide Run, Feasible, Replay, Legal;
    var base, h := Rows(entries), cfg.health;
    var s := Run(cfg, Start(entries, birth), before);
    var s' := Run(cfg, s, acts);
    StartHistoried(cfg, entries, birth);
    RunHistoried(cfg, base, birth, Start(entries, birth), before);
    RunHistoried(cfg, base, birth, s, acts);
    RunGrows(cfg, s, acts);
    assert Logged(base[i], s.logs[i], s.backends[i], h, birth, s.clock);
    assert Logged(base[i], s'.logs[i], s'.backends[i], h, birth, s'.clock);
    assert s'.logs[i] == s.logs[i] + EventsOf(s, s', i);
    ReplayConcat(base[i], s.logs[i], EventsOf(s, s', i), h, birth);
  }

  /** With the default cap this is so from two failures in a row on; the default threshold is five. */
  lemma DefaultCapLocksOut(n: nat)
    ensures 0.35 < 1.0 - Pow(0.75, n) <==> n >= 2
  {
    assert Pow(0.75, 1) == 0.75 * Pow(0.75, 0) && Pow(0.75, 2) == 0.75 * Pow(0.75, 1);
    if n >= 2 {
      PowDecreases(0.75, 2, n);
    } else {
      PowDecreases(0.75, n, 1);
    }
  }
}
