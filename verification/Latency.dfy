/** The smoothed latencies: what one sample does, what equal samples converge to, and what bounds them. */
module Latency {
  import opened Types
  import opened BackendState
  import opened Health
  import opened Registry
  import opened Scoring
  import opened Dispatcher
  import opened Proxy
  import opened Trace
  import opened Gateway
  import opened History
  import opened Lockout

  predicate IsTtftSample(k: Kind) { k.GoodSample? && k.ttftMs.Some? }

  /** The samples that carry a time to first token. */
  function TtftSamples(log: seq<Event>): nat { Count(log, IsTtftSample) }

  /** A good sample moves the averages a fifth of the way to it, the first only if it carries a value; nothing else moves them. */
  lemma LatencyAfterEvent(b: Backend, e: Event, h: HealthConfig)
    ensures var b' := Apply(b, e, h);
      && b'.ewmaE2eMs == (if e.kind.GoodSample? then b.ewmaE2eMs + 0.2 * (e.kind.e2eMs - b.ewmaE2eMs) else b.ewmaE2eMs)
      && b'.ewmaTtftMs == (
           if e.kind.GoodSample? && e.kind.ttftMs.Some? then b.ewmaTtftMs + 0.2 * (e.kind.ttftMs.value - b.ewmaTtftMs)
           else b.ewmaTtftMs)
      && b'.ewmaQueueMs == b.ewmaQueueMs
  {
  }

  lemma FourFifths(n: nat, y: real)
    ensures 0.8 * Term(Pow(0.8, n), y) == Term(Pow(0.8, n + 1), y) && Term(Pow(0.8, 0), y) == y
  {
    Associate(0.8, Pow(0.8, n), y);
    NoPower(0.8, 0, y);
  }

  predicate AllE2e(log: seq<Event>, x: real) {
    forall k :: 0 <= k < |log| && log[k].kind.GoodSample? ==> log[k].kind.e2eMs == x
  }

  predicate AllTtft(log: seq<Event>, x: real) {
    forall k :: 0 <= k < |log| && IsTtftSample(log[k].kind) ==> log[k].kind.ttftMs.value == x
  }

  lemma {:induction false} E2eTerm(b: Backend, log: seq<Event>, h: HealthConfig, x: real)
    requires AllE2e(log, x)
    ensures Replay(b, log, h).ewmaE2eMs == x + Term(Pow(0.8, GoodSamples(log)), b.ewmaE2eMs - x)
  {
    hide Apply, Pow, Term;
    FourFifths(0, b.ewmaE2eMs - x);
    if log != [] {
      var front, e := log[..|log| - 1], log[|log| - 1];
      E2eTerm(b, front, h, x);
      LatencyAfterEvent(Replay(b, front, h), e, h);
      FourFifths(GoodSamples(front), b.ewmaE2eMs - x);
    }
  }

  lemma {:induction false} TtftTerm(b: Backend, log: seq<Event>, h: HealthConfig, x: real)
    requires AllTtft(log, x)
    ensures Replay(b, log, h).ewmaTtftMs == x + Term(Pow(0.8, TtftSamples(log)), b.ewmaTtftMs - x)
  {
    hide Apply, Pow, Term;
    FourFifths(0, b.ewmaTtftMs - x);
    if log != [] {
      var front, e := log[..|log| - 1], log[|log| - 1];
      TtftTerm(b, front, h, x);
      LatencyAfterEvent(Replay(b, front, h), e, h);
      FourFifths(TtftSamples(front), b.ewmaTtftMs - x);
    }
  }

  /** After equal samples the end-to-end average is that far from them: four fifths of its distance for each one. */
  lemma EqualE2eSamples(b: Backend, log: seq<Event>, h: HealthConfig, x: real)
    requires AllE2e(log, x)
    ensures Replay(b, log, h).ewmaE2eMs == x + Pow(0.8, GoodSamples(log)) * (b.ewmaE2eMs - x)
  {
    hide Replay, Count, Pow;
    E2eTerm(b, log, h, x);
  }

  /** The same of the time to first token; samples without one leave it alone. */
  lemma EqualTtftSamples(b: Backend, log: seq<Event>, h: HealthConfig, x: real)
    requires AllTtft(log, x)
    ensures Replay(b, log, h).ewmaTtftMs == x + Pow(0.8, TtftSamples(log)) * (b.ewmaTtftMs - x)
  {
    hide Replay, Count, Pow;
    TtftTerm(b, log, h, x);
  }

  /** Each average stays between the least and the greatest of its start and its samples. */
  lemma {:induction false} LatencyStaysBetween(b: Backend, log: seq<Event>, h: HealthConfig, lo: real, hi: real)
    ensures lo <= b.ewmaE2eMs <= hi && (forall k :: 0 <= k < |log| && log[k].kind.GoodSample? ==> lo <= log[k].kind.e2eMs <= hi) ==>
      lo <= Replay(b, log, h).ewmaE2eMs <= hi
    ensures lo <= b.ewmaTtftMs <= hi && (forall k :: 0 <= k < |log| && IsTtftSample(log[k].kind) ==> lo <= log[k].kind.ttftMs.value <= hi) ==>
      lo <= Replay(b, log, h).ewmaTtftMs <= hi
    ensures Replay(b, log, h).ewmaQueueMs == b.ewmaQueueMs
  {
    hide Apply;
    if log != [] {
      var front, e := log[..|log| - 1], log[|log| - 1];
      LatencyStaysBetween(b, front, h, lo, hi);
      LatencyAfterEvent(Replay(b, front, h), e, h);
      assert forall k :: 0 <= k < |front| ==> front[k] == log[k];
    }
  }

  /** On every run, between any two states, the latencies of a backend are those its good samples account for. */
  lemma LatencyOnRuns(cfg: GatewayConfig, entries: seq<BackendEntry>, birth: real, before: seq<Action>, acts: seq<Action>, i: nat,
                      x: real, lo: real, hi: real)
    requires Feasible(cfg, Start(entries, birth), before)
    requires var s := Run(cfg, Start(entries, birth), before); i < |s.backends| && Feasible(cfg, s, acts)
    ensures var s := Run(cfg, Start(entries, birth), before);
      var s' := Run(cfg, s, acts);
      && i < |s.logs| && LogsGrow(s, s') && i < |s'.backends|
      && var b, b', es := s.backends[i], s'.backends[i], EventsOf(s, s', i);
         && (AllE2e(es, x) ==> b'.ewmaE2eMs == x + Pow(0.8, GoodSamples(es)) * (b.ewmaE2eMs - x))
         && (AllTtft(es, x) ==> b'.ewmaTtftMs == x + Pow(0.8, TtftSamples(es)) * (b.ewmaTtftMs - x))
         && (lo <= b.ewmaE2eMs <= hi && (forall k :: 0 <= k < |es| && es[k].kind.GoodSample? ==> lo <= es[k].kind.e2eMs <= hi) ==>
              lo <= b'.ewmaE2eMs <= hi)
         && (lo <= b.ewmaTtftMs <= hi && (forall k :: 0 <= k < |es| && IsTtftSample(es[k].kind) ==> lo <= es[k].kind.ttftMs.value <= hi) ==>
              lo <= b'.ewmaTtftMs <= hi)
         && b'.ewmaQueueMs == b.ewmaQueueMs
  {
    hide Run, Feasible, Replay, Count, Pow, AllE2e, AllTtft;
    var s := Run(cfg, Start(entries, birth), before);
    RunReplays(cfg, entries, birth, before, acts, i);
    var es := EventsOf(s, Run(cfg, s, acts), i);
    if AllE2e(es, x) {
      EqualE2eSamples(s.backends[i], es, cfg.health, x);
    }
    if AllTtft(es, x) {
      EqualTtftSamples(s.backends[i], es, cfg.health, x);
    }
    LatencyStaysBetween(s.backends[i], es, cfg.health, lo, hi);
  }

  // ---------- the samples ----------

  /**
   * What a returning call does to the metrics of the backend called, by its status: below 400 both latencies
   * take its duration, the first-token one at most ten seconds of a buffered call, and the error rate falls;
   * anything else raises the error rate and leaves the latencies alone.
   */
  lemma MetricsAfterReturn(cfg: GatewayConfig, bs: seq<Backend>, i: nat, cl: RequestClass, stream: bool, attempts: nat, o: Outcome, now: real)
    requires i < |bs|
    ensures var b, b' := bs[i], Resume(cfg, bs, Some(i), cl, stream, attempts, o, now).backends[i];
      if o.Headers? && o.code < 400 then
        && b'.ewmaE2eMs == b.ewmaE2eMs + 0.2 * (o.ms - b.ewmaE2eMs)
        && (stream || o.ms <= 10000.0 ==> b'.ewmaTtftMs == b.ewmaTtftMs + 0.2 * (o.ms - b.ewmaTtftMs))
        && (!stream && o.ms > 10000.0 ==> b'.ewmaTtftMs == b.ewmaTtftMs + 0.2 * (10000.0 - b.ewmaTtftMs))
        && b'.errorRate == 0.85 * b.errorRate
      else b'.ewmaE2eMs == b.ewmaE2eMs && b'.ewmaTtftMs == b.ewmaTtftMs && b'.errorRate == 0.25 + 0.75 * b.errorRate
  {
    hide Resume, Place, WantsRetry, Eligible, CooledDown, AfterFailure, AfterSuccess;
    KeepsMetrics(bs[i], cfg.health, now);
    ResumeCases(cfg, bs, Some(i), cl, stream, attempts, o, now);
    var rel := Released(Noted(bs, Some(i), o, stream, cfg.health, now), Some(i), cl);
    PlaceTakesOneEligibleSlot(cfg, rel, cl, now, Avoid(bs, Some(i)));
    KeepsMetrics(rel[i], cfg.health, now);
  }

  lemma KeepsMetrics(b: Backend, h: HealthConfig, now: real)
    ensures forall c :: c in {AfterFailure(b, h, now), AfterSuccess(b), AfterCooldownCheck(b, h, now)} ==>
      c.ewmaE2eMs == b.ewmaE2eMs && c.ewmaTtftMs == b.ewmaTtftMs && c.errorRate == b.errorRate
      && c.name == b.name
  {
  }

  /** What it does to the circuit: a success closes a half-open one, a 4xx leaves it, any other failure counts. */
  lemma CircuitAfterReturn(cfg: GatewayConfig, bs: seq<Backend>, i: nat, cl: RequestClass, stream: bool, attempts: nat, o: Outcome, now: real)
    requires i < |bs|
    ensures var b, b' := bs[i], Resume(cfg, bs, Some(i), cl, stream, attempts, o, now).backends[i];
      if o.Headers? && o.code < 400 then
        b'.failures == 0 && b'.circuit == (if b.circuit.HalfOpen? then Closed else b.circuit)
      else if o.Headers? && o.code < 500 then
        b'.failures == b.failures && b'.circuit == b.circuit && b'.openedAt == b.openedAt && b'.probes == b.probes
      else
        && b'.failures == b.failures + 1
        && (b'.circuit.Open? <==> !b.circuit.Closed? || b.failures + 1 >= cfg.health.consecutiveFailuresOpen)
        && (b'.circuit.Open? && !b.circuit.Open? ==> b'.openedAt == Some(now))
  {
    hide Resume, Place, WantsRetry, Eligible, CooledDown;
    ResumeCases(cfg, bs, Some(i), cl, stream, attempts, o, now);
    var rel := Released(Noted(bs, Some(i), o, stream, cfg.health, now), Some(i), cl);
    PlaceTakesOneEligibleSlot(cfg, rel, cl, now, Avoid(bs, Some(i)));
    OthersUntouched(bs, Some(i), o, cl, stream, cfg.health, now, i);
  }

  /** The end of a stream is a good sample without a first token. */
  lemma MetricsAfterStreamEnd(bs: seq<Backend>, i: nat, cl: RequestClass, e2eMs: real)
    requires i < |bs|
    ensures var b, b' := bs[i], AfterStreamEnd(bs, Some(i), cl, e2eMs)[i];
      && b'.ewmaE2eMs == b.ewmaE2eMs + 0.2 * (e2eMs - b.ewmaE2eMs) && b'.ewmaTtftMs == b.ewmaTtftMs
      && b'.errorRate == 0.85 * b.errorRate && b'.circuit == b.circuit && b'.failures == b.failures
      && b'.inflight == (if b.inflight > 0 then b.inflight - 1 else 0)
  {
  }
}
