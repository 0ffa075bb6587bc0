/** One backend's history as a log of events, and what holds of every log. */
module Trace {
  import opened Types
  import opened BackendState
  import opened Health
  import opened Registry
  import opened Scoring
  import opened Proxy

  /** The ways in which the scheduler and the proxy touch a backend. */
  datatype Kind =
    | Check                                             // maybe_transition_from_open
    | Dispatch(cl: RequestClass)                        // on_request_start, the slot, record_dispatch
    | Success                                           // on_success
    | Failure                                           // on_failure
    | GoodSample(ttftMs: Option<real>, e2eMs: real)     // update_success
    | BadSample                                         // update_failure
    | Release(relCl: RequestClass)                      // _release_dispatch

  datatype Event = Event(at: real, kind: Kind)

  function Apply(b: Backend, e: Event, h: HealthConfig): Backend {
    match e.kind
    case Check => AfterCooldownCheck(b, h, e.at)
    case Dispatch(cl) => TakeSlot(b, cl, e.at)
    case Success => AfterSuccess(b)
    case Failure => AfterFailure(b, h, e.at)
    case GoodSample(ttft, e2e) => AfterUpdateSuccess(b, ttft, e2e)
    case BadSample => AfterUpdateFailure(b)
    case Release(cl) => AfterRelease(b, cl)
  }

  function Replay(b: Backend, log: seq<Event>, h: HealthConfig): Backend {
    if log == [] then b else Apply(Replay(b, log[..|log| - 1], h), log[|log| - 1], h)
  }

  function End(log: seq<Event>, from: real): real {
    if log == [] then from else log[|log| - 1].at
  }

  /** Time does not run backwards, and every dispatch passed the eligibility checks. */
  predicate Legal(b: Backend, log: seq<Event>, h: HealthConfig, from: real) {
    log == [] ||
    var front, e := log[..|log| - 1], log[|log| - 1];
    && Legal(b, front, h, from)
    && End(front, from) <= e.at
    && (e.kind.Dispatch? ==> Admits(Replay(b, front, h), h))
  }

  function Count(log: seq<Event>, p: Kind -> bool): nat {
    if log == [] then 0 else Count(log[..|log| - 1], p) + (if p(log[|log| - 1].kind) then 1 else 0)
  }

  predicate IsDispatch(k: Kind) { k.Dispatch? }

  function Dispatches(log: seq<Event>): nat { Count(log, IsDispatch) }

  predicate IsSuccess(k: Kind) { k.Success? }

  function Successes(log: seq<Event>): nat { Count(log, IsSuccess) }

  predicate IsFailure(k: Kind) { k.Failure? }

  function Failures(log: seq<Event>): nat { Count(log, IsFailure) }

  predicate IsGoodSample(k: Kind) { k.GoodSample? }

  function GoodSamples(log: seq<Event>): nat { Count(log, IsGoodSample) }

  predicate IsBadSample(k: Kind) { k.BadSample? }

  function BadSamples(log: seq<Event>): nat { Count(log, IsBadSample) }

  lemma {:induction false} ReplayConcat(b: Backend, pre: seq<Event>, post: seq<Event>, h: HealthConfig, from: real)
    ensures Replay(b, pre + post, h) == Replay(Replay(b, pre, h), post, h)
    ensures Legal(b, pre + post, h, from) <==>
      Legal(b, pre, h, from) && Legal(Replay(b, pre, h), post, h, End(pre, from))
  {
    if post == [] {
      assert pre + post == pre;
    } else {
      var n := |post| - 1;
      assert (pre + post)[..|pre| + n] == pre + post[..n];
      ReplayConcat(b, pre, post[..n], h, from);
    }
  }

  lemma {:induction false} CountConcat(pre: seq<Event>, post: seq<Event>, p: Kind -> bool)
    ensures Count(pre + post, p) == Count(pre, p) + Count(post, p)
  {
    if post == [] {
      assert pre + post == pre;
    } else {
      var n := |post| - 1;
      assert (pre + post)[..|pre| + n] == pre + post[..n];
      CountConcat(pre, post[..n], p);
    }
  }

  lemma OneEvent(e: Event)
    ensures Dispatches([e]) == (if e.kind.Dispatch? then 1 else 0) && Dispatches([]) == 0
  {
    var none: seq<Event> := [];
    var es := [e];
    assert es[..|es| - 1] == none && Count(none, IsDispatch) == 0;
    assert Count(es, IsDispatch) == Count(none, IsDispatch) + (if IsDispatch(e.kind) then 1 else 0);
  }

  lemma DispatchesAdd(pre: seq<Event>, post: seq<Event>)
    ensures Dispatches(pre + post) == Dispatches(pre) + Dispatches(post)
  {
    CountConcat(pre, post, IsDispatch);
  }

  // ---------- error rate ----------

  function Pow(x: real, n: nat): real {
    if n == 0 then 1.0 else x * Pow(x, n - 1)
  }

  /** The smoothed error rate stays in [0, 1) whatever the interleaving of outcomes. */
  lemma {:induction false} ErrorRateStaysBelowOne(b: Backend, log: seq<Event>, h: HealthConfig)
    requires 0.0 <= b.errorRate < 1.0
    ensures 0.0 <= Replay(b, log, h).errorRate < 1.0
  {
    if log != [] {
      ErrorRateStaysBelowOne(b, log[..|log| - 1], h);
    }
  }

  /** Only samples move the error rate. */
  lemma RateAfterEvent(b: Backend, e: Event, h: HealthConfig)
    ensures Apply(b, e, h).errorRate ==
      if e.kind.GoodSample? then Ewma(b.errorRate, 0.0, 0.15)
      else if e.kind.BadSample? then Ewma(b.errorRate, 1.0, 0.25)
      else b.errorRate
  {
  }

  lemma FailureFactor(n: nat, y: real)
    ensures Ewma(1.0 - Term(Pow(0.75, n), y), 1.0, 0.25) == 1.0 - Term(Pow(0.75, n + 1), y)
  {
    Associate(0.75, Pow(0.75, n), y);
  }

  lemma SuccessFactor(n: nat, y: real)
    ensures Ewma(Term(Pow(0.85, n), y), 0.0, 0.15) == Term(Pow(0.85, n + 1), y)
  {
    Associate(0.85, Pow(0.85, n), y);
  }

  lemma Associate(c: real, x: real, y: real)
    ensures (c * x) * y == c * (x * y)
  {
  }

  lemma PowNext(x: real, n: nat)
    ensures Pow(x, n + 1) == Term(x, Pow(x, n))
  {
  }

  lemma {:induction false} FailedRate(b: Backend, log: seq<Event>, h: HealthConfig)
    requires GoodSamples(log) == 0
    ensures Replay(b, log, h).errorRate == 1.0 - Term(Pow(0.75, BadSamples(log)), 1.0 - b.errorRate)
  {
    hide Apply, Ewma, Pow, Term;
    if log == [] {
      NoPower(0.75, BadSamples(log), 1.0 - b.errorRate);
    } else {
      var front, e := log[..|log| - 1], log[|log| - 1];
      FailedRate(b, front, h);
      RateAfterEvent(Replay(b, front, h), e, h);
      FailureFactor(BadSamples(front), 1.0 - b.errorRate);
    }
  }

  /** Without a good sample in between, each bad one keeps three quarters of the distance to one. */
  lemma UninterruptedFailures(b: Backend, log: seq<Event>, h: HealthConfig)
    requires GoodSamples(log) == 0
    ensures Replay(b, log, h).errorRate == 1.0 - Pow(0.75, BadSamples(log)) * (1.0 - b.errorRate)
  {
    hide Replay, Count, Pow;
    FailedRate(b, log, h);
  }

  lemma {:induction false} RecoveredRate(b: Backend, log: seq<Event>, h: HealthConfig)
    requires BadSamples(log) == 0
    ensures Replay(b, log, h).errorRate == Term(Pow(0.85, GoodSamples(log)), b.errorRate)
  {
    hide Apply, Ewma, Pow, Term;
    if log == [] {
      NoPower(0.85, GoodSamples(log), b.errorRate);
    } else {
      var front, e := log[..|log| - 1], log[|log| - 1];
      RecoveredRate(b, front, h);
      RateAfterEvent(Replay(b, front, h), e, h);
      SuccessFactor(GoodSamples(front), b.errorRate);
    }
  }

  /** Without a bad sample in between, each good one keeps seventeen twentieths of the rate. */
  lemma UninterruptedSuccesses(b: Backend, log: seq<Event>, h: HealthConfig)
    requires BadSamples(log) == 0
    ensures Replay(b, log, h).errorRate == Pow(0.85, GoodSamples(log)) * b.errorRate
  {
    hide Replay, Count, Pow;
    RecoveredRate(b, log, h);
  }

  lemma NoPower(x: real, n: nat, y: real)
    requires n == 0
    ensures Pow(x, n) == 1.0 && Term(Pow(x, n), y) == y
  {
  }

  lemma {:induction false} PowDecreases(x: real, m: nat, n: nat)
    requires 0.0 < x < 1.0 && m <= n
    ensures 0.0 < Pow(x, n) <= Pow(x, m) <= 1.0
  {
    hide Pow, Term;
    NoPower(x, 0, x);
    if n == 0 {
      NoPower(x, n, x);
      NoPower(x, m, x);
    } else {
      var m' := if m > 0 then m - 1 else 0;
      PowDecreases(x, m', n - 1);
      PowNext(x, n - 1);
      PowNext(x, m');
      var p, q := Pow(x, n - 1), Pow(x, m');
      TermGrows(x, p, q);
      Shrinks(x, p);
      Shrinks(x, q);
    }
  }

  lemma Shrinks(x: real, p: real)
    requires 0.0 < x < 1.0 && 0.0 < p
    ensures 0.0 < Term(x, p) <= p
  {
    ProductPositive(x, p);
    ProductPositive(1.0 - x, p);
  }

  /** With the default cap a healthy backend is shut out by its second uninterrupted failure, not its first. */
  lemma TwoFailuresReachTheDefaultCap(b: Backend, log: seq<Event>, h: HealthConfig)
    requires b.errorRate == 0.0 && h.maxErrorRate == 0.35 && GoodSamples(log) == 0
    ensures Replay(b, log, h).errorRate > h.maxErrorRate <==> BadSamples(log) >= 2
  {
    UninterruptedFailures(b, log, h);
    assert Pow(0.75, 1) == 0.75 * Pow(0.75, 0) && Pow(0.75, 2) == 0.75 * Pow(0.75, 1);
    if BadSamples(log) >= 2 {
      PowDecreases(0.75, 2, BadSamples(log));
    } else {
      PowDecreases(0.75, BadSamples(log), 1);
    }
  }

  /** After five uninterrupted failures it takes exactly five good samples to come back under the default cap. */
  lemma FiveSuccessesUndoFiveFailures(b: Backend, down: seq<Event>, up: seq<Event>, h: HealthConfig)
    requires b.errorRate == 0.0 && h.maxErrorRate == 0.35
    requires GoodSamples(down) == 0 && BadSamples(down) == 5 && BadSamples(up) == 0
    ensures Replay(b, down + up, h).errorRate <= h.maxErrorRate <==> GoodSamples(up) >= 5
  {
    ReplayConcat(b, down, up, h, 0.0);
    UninterruptedFailures(b, down, h);
    UninterruptedSuccesses(Replay(b, down, h), up, h);
    FifthPowers();
    if GoodSamples(up) >= 5 {
      PowDecreases(0.85, 5, GoodSamples(up));
    } else {
      PowDecreases(0.85, GoodSamples(up), 4);
    }
  }

  lemma FifthPowers()
    ensures Pow(0.75, 5) == 243.0 / 1024.0
    ensures Pow(0.85, 4) == 83521.0 / 160000.0 && Pow(0.85, 5) == 1419857.0 / 3200000.0
  {
    assert Pow(0.75, 2) == 0.75 * Pow(0.75, 1) && Pow(0.75, 3) == 0.75 * Pow(0.75, 2)
      && Pow(0.75, 4) == 0.75 * Pow(0.75, 3);
    assert Pow(0.85, 2) == 0.85 * Pow(0.85, 1) && Pow(0.85, 3) == 0.85 * Pow(0.85, 2);
  }

  lemma {:induction false} ReplayKeepsName(b: Backend, log: seq<Event>, h: HealthConfig)
    ensures Replay(b, log, h).name == b.name
  {
    if log != [] {
      ReplayKeepsName(b, log[..|log| - 1], h);
    }
  }

  // ---------- the circuit against its history ----------

  /** What holds of the circuit fields after every legal log from a fresh backend. */
  predicate CircuitSound(b: Backend, h: HealthConfig) {
    && (b.circuit.Closed? <==> b.openedAt.None?)
    && (b.circuit.Closed? ==> b.failures < h.consecutiveFailuresOpen)
    && (b.circuit.HalfOpen? ==> b.failures == 0)
    && (!b.circuit.HalfOpen? ==> b.probes == 0)
    && b.probes <= h.halfOpenMaxInflight
    && b.inflight <= Max(0, b.hardLimit)
    && |b.dispatchTimes| <= WINDOW_CAPACITY
  }

  lemma {:induction false} CircuitStaysSound(b: Backend, log: seq<Event>, h: HealthConfig, from: real)
    requires SaneHealth(h) && CircuitSound(b, h) && Legal(b, log, h, from)
    ensures CircuitSound(Replay(b, log, h), h)
    ensures Replay(b, log, h).hardLimit == b.hardLimit && Replay(b, log, h).name == b.name
  {
    hide CircuitSound;
    if log != [] {
      var front := log[..|log| - 1];
      CircuitStaysSound(b, front, h, from);
      SoundNext(Replay(b, front, h), log[|log| - 1], h);
    }
  }

  lemma SoundNext(b: Backend, e: Event, h: HealthConfig)
    requires SaneHealth(h) && CircuitSound(b, h) && (e.kind.Dispatch? ==> Admits(b, h))
    ensures var b' := Apply(b, e, h); CircuitSound(b', h) && b'.hardLimit == b.hardLimit && b'.name == b.name
  {
  }

  /** The events that start a new failure streak: a success, or the check that half-opens the circuit. */
  predicate Resets(b: Backend, log: seq<Event>, h: HealthConfig, k: nat)
    requires k < |log|
  {
    log[k].kind.Success? || (log[k].kind.Check? && CooledDown(Replay(b, log[..k], h), h, log[k].at))
  }

  /** The failure counter is the number of failures since the last reset, wherever that was. */
  lemma {:induction false} StreakCountsFailures(b: Backend, log: seq<Event>, h: HealthConfig, k: nat)
    requires k <= |log|
    requires if k == 0 then b.failures == 0 else Resets(b, log, h, k - 1)
    requires forall j :: k <= j < |log| ==> !Resets(b, log, h, j)
    ensures Replay(b, log, h).failures == Failures(log[k..])
  {
    if k == |log| {
      assert log[k..] == [];
    } else {
      var n := |log| - 1;
      var front := log[..n];
      assert forall j :: 0 <= j <= n ==> front[..j] == log[..j];
      assert forall j :: 0 <= j < n ==> Resets(b, front, h, j) == Resets(b, log, h, j);
      StreakCountsFailures(b, front, h, k);
      assert log[k..][..n - k] == front[k..];
      assert !Resets(b, log, h, n);
    }
  }

  /** While no success comes, a closed circuit trips at exactly the threshold-th failure. */
  lemma {:induction false} ClosedUntilThreshold(b: Backend, log: seq<Event>, h: HealthConfig)
    requires SaneHealth(h) && b.circuit.Closed? && b.failures < h.consecutiveFailuresOpen
    requires Successes(log) == 0
    ensures var end := Replay(b, log, h);
      && (end.circuit.Closed? <==> b.failures + Failures(log) < h.consecutiveFailuresOpen)
      && (end.circuit.Closed? ==> end.failures == b.failures + Failures(log))
  {
    if log != [] {
      ClosedUntilThreshold(b, log[..|log| - 1], h);
    }
  }

  /** A circuit that is not closed opened at some instant of its log. */
  lemma {:induction false} OpenedInThePast(b: Backend, log: seq<Event>, h: HealthConfig, from: real)
    requires Legal(b, log, h, from) && (b.openedAt.Some? ==> b.openedAt.value <= from)
    ensures var end := Replay(b, log, h); end.openedAt.Some? ==> end.openedAt.value <= End(log, from)
  {
    if log != [] {
      OpenedInThePast(b, log[..|log| - 1], h, from);
    }
  }

  // ---------- traffic to a failing backend ----------

  function CooldownSec(h: HealthConfig): real { h.openCooldownMs as real / 1000.0 }

  /** A half-open circuit has waited out its cooldown. */
  lemma {:induction false} HalfOpenIsDue(b: Backend, log: seq<Event>, h: HealthConfig, from: real)
    requires Legal(b, log, h, from) && b.circuit.Closed?
    ensures var end := Replay(b, log, h);
      end.circuit.HalfOpen? ==> end.openedAt.Some? && end.openedAt.value + CooldownSec(h) <= End(log, from)
  {
    if log != [] {
      HalfOpenIsDue(b, log[..|log| - 1], h, from);
    }
  }

  /** Whole cooldown periods between two instants. */
  function Periods(t0: real, t: real, h: HealthConfig): int
    requires h.openCooldownMs > 0
  {
    ((t - t0) / CooldownSec(h)).Floor
  }

  lemma PeriodsGrow(t0: real, t: real, t': real, h: HealthConfig)
    requires h.openCooldownMs > 0 && t0 <= t <= t'
    ensures 0 <= Periods(t0, t, h) <= Periods(t0, t', h)
    ensures t + CooldownSec(h) <= t' ==> Periods(t0, t, h) + 1 <= Periods(t0, t', h)
  {
    var c := CooldownSec(h);
    var x, y := (t - t0) / c, (t' - t0) / c;
    QuotientMonotone(0.0, t - t0, c);
    QuotientMonotone(t - t0, t' - t0, c);
    QuotientOfSelf(c);
    FloorMonotone(0.0, x);
    FloorMonotone(x, y);
    if t + c <= t' {
      QuotientMonotone(t - t0 + c, t' - t0, c);
      SharesAdd(t - t0, c, c);
    }
  }

  lemma FloorMonotone(x: real, y: real)
    requires x <= y
    ensures x.Floor <= y.Floor
    ensures x + 1.0 <= y ==> x.Floor + 1 <= y.Floor
  {
  }

  lemma QuotientMonotone(x: real, y: real, c: real)
    requires c > 0.0 && x <= y
    ensures x / c <= y / c
  {
    var u, v := x / c, y / c;
    assert u * c == x && v * c == y;
    if u > v {
      ProductPositive(u - v, c);
    }
  }

  /** The accounting behind `TrafficBound`: `n` dispatches so far, in a backend whose circuit opened at `t0`. */
  predicate WithinBudget(b: Backend, t0: real, now: real, h: HealthConfig, n: nat)
    requires h.openCooldownMs > 0
  {
    && !b.circuit.Closed? && b.openedAt.Some?
    && t0 <= b.openedAt.value <= now
    && (b.circuit.Open? ==> n <= h.halfOpenMaxInflight * Periods(t0, b.openedAt.value, h))
    && (b.circuit.HalfOpen? ==>
      && b.openedAt.value + CooldownSec(h) <= now
      && b.probes <= h.halfOpenMaxInflight
      && n <= h.halfOpenMaxInflight * Periods(t0, b.openedAt.value, h) + b.probes)
  }

  lemma BudgetNext(b: Backend, e: Event, t0: real, now: real, h: HealthConfig, n: nat)
    requires SaneHealth(h) && WithinBudget(b, t0, now, h, n) && now <= e.at
    requires !e.kind.Success? && (e.kind.Dispatch? ==> Admits(b, h))
    ensures WithinBudget(Apply(b, e, h), t0, e.at, h, n + (if e.kind.Dispatch? then 1 else 0))
  {
    hide Periods;
    var b', p, o := Apply(b, e, h), h.halfOpenMaxInflight, b.openedAt.value;
    if e.kind.Failure? && b.circuit.HalfOpen? {
      PeriodsGrow(t0, o, e.at, h);
      OnePeriodMore(p, Periods(t0, o, h), Periods(t0, e.at, h));
    } else if e.kind.Check? && CooledDown(b, h, e.at) {
      assert o + CooldownSec(h) <= e.at;
    }
  }

  lemma OnePeriodMore(p: nat, a: int, b: int)
    requires a + 1 <= b
    ensures p * a + p <= p * b
  {
    assert p * (a + 1) <= p * b;
  }

  /**
   * Once a circuit opens at `t0`, and as long as no success is reported, the backend gets at most
   * `halfOpenMaxInflight` dispatches per whole cooldown period since `t0`.
   */
  lemma TrafficBound(b: Backend, log: seq<Event>, h: HealthConfig, t0: real, from: real)
    requires SaneHealth(h) && b.circuit.Open? && b.openedAt == Some(t0) && t0 <= from
    requires Legal(b, log, h, from) && Successes(log) == 0
    ensures Dispatches(log) <= h.halfOpenMaxInflight * Periods(t0, End(log, from), h)
  {
    hide Periods, Legal, Replay, Count, CooldownSec;
    TrafficBudget(b, log, h, t0, from);
    var end, now, p := Replay(b, log, h), End(log, from), h.halfOpenMaxInflight;
    var o := end.openedAt.value;
    PeriodsGrow(t0, o, now, h);
    if end.circuit.HalfOpen? {
      OnePeriodMore(p, Periods(t0, o, h), Periods(t0, now, h));
    } else {
      ProductMonotone(p, Periods(t0, o, h), Periods(t0, now, h));
    }
  }

  lemma {:induction false} TrafficBudget(b: Backend, log: seq<Event>, h: HealthConfig, t0: real, from: real)
    requires SaneHealth(h) && b.circuit.Open? && b.openedAt == Some(t0) && t0 <= from
    requires Legal(b, log, h, from) && Successes(log) == 0
    ensures WithinBudget(Replay(b, log, h), t0, End(log, from), h, Dispatches(log))
  {
    if log == [] {
      PeriodsGrow(t0, t0, t0, h);
      assert h.halfOpenMaxInflight * Periods(t0, t0, h) >= 0;
    } else {
      var front := log[..|log| - 1];
      TrafficBudget(b, front, h, t0, from);
      BudgetNext(Replay(b, front, h), log[|log| - 1], t0, End(front, from), h, Dispatches(front));
    }
  }

  /** Every dispatch in a legal log met an admitting backend, so none met an open circuit. */
  lemma {:induction false} DispatchAdmitted(b: Backend, log: seq<Event>, h: HealthConfig, from: real, k: nat)
    requires Legal(b, log, h, from) && k < |log| && log[k].kind.Dispatch?
    ensures Admits(Replay(b, log[..k], h), h)
  {
    var n := |log| - 1;
    if k < n {
      assert log[..n][..k] == log[..k];
      DispatchAdmitted(b, log[..n], h, from, k);
    }
  }

  // ---------- the dispatch window ----------

  /** The times of all dispatches in a log. */
  function DispatchHistory(log: seq<Event>): seq<real> {
    if log == [] then []
    else
      DispatchHistory(log[..|log| - 1])
      + (if log[|log| - 1].kind.Dispatch? then [log[|log| - 1].at] else [])
  }

  lemma TailOfNothing()
    ensures Tail([]) == []
  {
  }

  lemma TimesAfter(b: Backend, e: Event, h: HealthConfig)
    ensures Apply(b, e, h).dispatchTimes == if e.kind.Dispatch? then Push(b.dispatchTimes, e.at) else b.dispatchTimes
  {
  }

  lemma {:induction false} WindowIsTailOfHistory(b: Backend, log: seq<Event>, h: HealthConfig)
    requires b.dispatchTimes == []
    ensures Replay(b, log, h).dispatchTimes == Tail(DispatchHistory(log))
  {
    hide Push, Tail, Apply;
    if log == [] {
      TailOfNothing();
    } else {
      TimesAfter(Replay(b, log[..|log| - 1], h), log[|log| - 1], h);
      WindowIsTailOfHistory(b, log[..|log| - 1], h);
      PushKeepsTail(DispatchHistory(log[..|log| - 1]), log[|log| - 1].at);
      assert DispatchHistory(log[..|log| - 1]) + [] == DispatchHistory(log[..|log| - 1]);
    }
  }

  lemma {:induction false} HistoryIsOrdered(b: Backend, log: seq<Event>, h: HealthConfig, from: real)
    requires Legal(b, log, h, from)
    ensures Nondecreasing(DispatchHistory(log))
    ensures forall i :: 0 <= i < |DispatchHistory(log)| ==> DispatchHistory(log)[i] <= End(log, from)
  {
    if log != [] {
      HistoryIsOrdered(b, log[..|log| - 1], h, from);
    }
  }

  /** The hot-share count of a backend is that of its complete dispatch history, cut off at the window size. */
  lemma ShareRefinesHistory(b: Backend, log: seq<Event>, h: HealthConfig, from: real, windowSec: real, now: real)
    requires b.dispatchTimes == [] && Legal(b, log, h, from)
    ensures DispatchesInWindow(Replay(b, log, h), windowSec, now)
            == Min(256, Recent(DispatchHistory(log), now - windowSec))
  {
    WindowIsTailOfHistory(b, log, h);
    HistoryIsOrdered(b, log, h, from);
    WindowRefinesHistory(DispatchHistory(log), now - windowSec);
  }
}
