/** What a handler answers, against what became of its request: over all steps and all runs. */
module Answers {
  import opened Types
  import opened BackendState
  import opened Registry
  import opened Dispatcher
  import opened Proxy
  import opened Trace
  import opened Retries
  import opened Gateway
  import opened History
  import opened Queueing
  import opened Accounting

  // ---------- refusals ----------

  /** The answers a handler gives without a call, and the fates they go with. */
  predicate AnswerSound(cfg: GatewayConfig, r: Request) {
    && (r.fate.Waiting? ==> r.work.Suspended?)
    && (r.work == Finished(QueueFull) ==> r.fate.Refused?)
    && (r.work == Finished(QueueAge) ==> r.fate.TimedOut?)
    && (r.work == Finished(NoBackend) ==> r.fate.Aged?)
    && (!cfg.fallback.enabled ==>
      && (r.fate.Refused? ==> r.work == Finished(QueueFull))
      && (r.fate.TimedOut? ==> r.work.Suspended? || r.work == Finished(QueueAge))
      && (r.fate.Aged? ==> r.work.Suspended? || r.work == Finished(NoBackend)))
    && (cfg.fallback.enabled ==> r.work !in {Finished(QueueFull), Finished(QueueAge), Finished(NoBackend)})
    && (cfg.fallback.enabled && !cfg.fallback.keySet ==>
      && (r.fate.Refused? ==> r.work == Finished(Served(FallbackUnavailable)))
      && (r.fate.TimedOut? || r.fate.Aged? ==> r.work.Suspended? || r.work == Finished(Served(FallbackUnavailable))))
    && (r.work == Finished(Served(FallbackUnavailable)) ==> cfg.fallback.enabled && !cfg.fallback.keySet)
    && (r.work.Relaying? || r.work == Finished(StreamClosed) ==> r.stream)
  }

  predicate AnswersSound(cfg: GatewayConfig, s: State) {
    forall id :: 0 <= id < |s.requests| ==> AnswerSound(cfg, s.requests[id])
  }

  lemma AssignNextAnswers(cfg: GatewayConfig, s: State)
    requires WellFormed(s) && s.phase.Holding? && s.phase.rest != [] && AnswersSound(cfg, s)
    ensures AnswersSound(cfg, AssignNext(cfg, s))
  {
    hide Place, VerdictEvents, TooOld;
  }

  lemma {:induction false} AssignAllAnswers(cfg: GatewayConfig, s: State)
    requires WellFormed(s) && s.phase.Holding? && AnswersSound(cfg, s)
    ensures AnswersSound(cfg, AssignAll(cfg, s))
    decreases |s.phase.rest|
  {
    hide AssignNext, AnswersSound;
    if s.phase.rest != [] {
      AssignNextAnswers(cfg, s);
      AssignAllAnswers(cfg, AssignNext(cfg, s));
    }
  }

  lemma ReturnAnswers(cfg: GatewayConfig, s: State, id: nat, o: Outcome)
    requires WellFormed(s) && Enabled(cfg, s, Return(id, o)) && AnswerSound(cfg, s.requests[id])
    ensures AnswerSound(cfg, ReturnStep(cfg, s, id, o).requests[id])
  {
    hide Resume, ReturnEvents, ReleasesTwice;
    var r := s.requests[id];
    ResumeEnds(cfg, s.backends, r.work.at, r.cl, r.stream, r.work.attempts, o, s.clock);
  }

  lemma StepAnswers(cfg: GatewayConfig, s: State, a: Action)
    requires WellFormed(s) && Enabled(cfg, s, a) && AnswersSound(cfg, s)
    ensures AnswersSound(cfg, Step(cfg, s, a))
  {
    hide AssignAll, Resume, ReturnEvents, ReleasesTwice, Refreshed;
    match a
    case Assign => AssignAllAnswers(cfg, s);
    case Return(id, o) => ReturnAnswers(cfg, s, id, o);
    case _ =>
  }

  lemma {:induction false} RunAnswers(cfg: GatewayConfig, s: State, acts: seq<Action>)
    requires WellFormed(s) && Feasible(cfg, s, acts) && AnswersSound(cfg, s)
    ensures AnswersSound(cfg, Run(cfg, s, acts))
    decreases |acts|
  {
    hide Step, AnswersSound;
    if acts != [] {
      StepAnswers(cfg, s, acts[0]);
      RunAnswers(cfg, Step(cfg, s, acts[0]), acts[1..]);
    }
  }

  /**
   * On every run a request answered queue-full was refused by the queue, one answered queue-age timed out in
   * it, and one answered no-backend was rejected by the scheduler. Without a fallback the reverse holds too,
   * once the handler has woken; with one there are no such answers.
   */
  lemma AnswersMatchFates(cfg: GatewayConfig, entries: seq<BackendEntry>, now: real, acts: seq<Action>, id: nat)
    requires Feasible(cfg, Start(entries, now), acts) && id < |Run(cfg, Start(entries, now), acts).requests|
    ensures var r := Run(cfg, Start(entries, now), acts).requests[id];
      && (r.work == Finished(QueueFull) ==> r.fate.Refused?)
      && (r.work == Finished(QueueAge) ==> r.fate.TimedOut?)
      && (r.work == Finished(NoBackend) ==> r.fate.Aged?)
      && (!cfg.fallback.enabled && r.work.Finished? ==>
        && (r.fate.Refused? ==> r.work == Finished(QueueFull))
        && (r.fate.TimedOut? ==> r.work == Finished(QueueAge))
        && (r.fate.Aged? ==> r.work == Finished(NoBackend)))
      && (cfg.fallback.enabled ==> r.work !in {Finished(QueueFull), Finished(QueueAge), Finished(NoBackend)})
      && (cfg.fallback.enabled && !cfg.fallback.keySet && r.work.Finished? && (r.fate.Refused? || r.fate.TimedOut? || r.fate.Aged?) ==>
        r.work == Finished(Served(FallbackUnavailable)))
  {
    hide Run, Feasible;
    RunAnswers(cfg, Start(entries, now), acts);
    assert AnswerSound(cfg, Run(cfg, Start(entries, now), acts).requests[id]);
  }

  // ---------- single steps ----------

  /** A request is refused if and only if the queue is full; any other one waits at the tail. */
  lemma ArrivalIsQueued(cfg: GatewayConfig, s: State, cl: RequestClass, stream: bool)
    requires WellFormed(s)
    ensures var s', n := Step(cfg, s, Arrive(cl, stream)), |s.requests|;
      && |s'.requests| == n + 1 && s'.requests[..n] == s.requests && s'.backends == s.backends
      && s'.requests[n].cl == cl && s'.requests[n].stream == stream && s'.requests[n].arrived == s.clock
      && (s'.requests[n].fate.Refused? <==> |s.queue| >= cfg.scheduler.queueMaxSize)
      && (s'.requests[n].fate.Waiting? <==> |s.queue| < cfg.scheduler.queueMaxSize)
      && s'.queue == s.queue + (if |s.queue| < cfg.scheduler.queueMaxSize then [n] else [])
  {
  }

  /** A pop takes as many from the head as it may and leaves the rest. */
  lemma PopTakesTheHead(cfg: GatewayConfig, s: State)
    requires WellFormed(s) && s.phase.Between?
    ensures var s', n := Step(cfg, s, Pop), cfg.scheduler.dispatchBatchSize;
      && (s.queue == [] || n <= 0 ==> s' == s)
      && (s.queue != [] && n > 0 ==>
        && s'.phase.Holding? && s'.phase.kept == [] && s.queue == s'.phase.rest + s'.queue
        && |s'.phase.rest| == (if n <= |s.queue| then n else |s.queue|))
  {
  }

  /**
   * What a handler does when its call returns: it tries again exactly under the retry conditions, relays a
   * stream exactly if its headers are no error, and otherwise answers with the upstream's status or, if there
   * is none, as unreachable.
   */
  lemma ReturnedHandler(cfg: GatewayConfig, s: State, id: nat, o: Outcome)
    requires WellFormed(s) && Enabled(cfg, s, Return(id, o)) && DistinctNames(s.backends)
    requires s.requests[id].work.at.Some? ==> s.requests[id].work.at.value < |s.backends|
    ensures var r, r' := s.requests[id], Step(cfg, s, Return(id, o)).requests[id];
      && r'.fate == r.fate
      && (r'.work.Calling? <==>
        && r.work.attempts < cfg.retry.maxAttempts
        && (match o
            case Headers(code, _) => !r.stream && code >= 400 && (code >= 500 || code in cfg.retry.retryableStatuses)
            case Transport => !r.stream
            case BodyTransport => true)
        && exists j :: 0 <= j < |s.backends| && r.work.at != Some(j) && Eligible(s.backends[j], cfg.health, s.clock))
      && (r'.work.Calling? ==> r'.work.attempts == r.work.attempts + 1 && r'.work.at.Some? && r'.work.at != r.work.at)
      && (r'.work.Relaying? <==> r.stream && o.Headers? && o.code < 400)
      && (r'.work.Relaying? ==> r'.work.at == r.work.at)
      && (!r'.work.Calling? && !r'.work.Relaying? ==>
        r'.work == Finished(Served(if o.Headers? then Relayed(o.code) else Unreachable)))
  {
    hide Resume, ReturnEvents, ReleasesTwice, Eligible, DistinctNames;
    var r := s.requests[id];
    var at, n := r.work.at, r.work.attempts;
    RetriesExactly(cfg, s.backends, at, r.cl, r.stream, n, o, s.clock);
    ResumeEnds(cfg, s.backends, at, r.cl, r.stream, n, o, s.clock);
    RetriesGoElsewhere(cfg, s.backends, at, r.cl, r.stream, n, o, s.clock);
  }

  lemma RetriesGoElsewhere(cfg: GatewayConfig, bs: seq<Backend>, at: Option<nat>, cl: RequestClass, stream: bool,
                           attempts: nat, o: Outcome, now: real)
    ensures var next := Resume(cfg, bs, at, cl, stream, attempts, o, now).next;
      next.Retry? && (at.Some? ==> at.value < |bs|) ==> at != Some(next.target)
  {
    hide Resume, Place, Noted, Released, Eligible;
    ResumeCases(cfg, bs, at, cl, stream, attempts, o, now);
    var rel := Released(Noted(bs, at, o, stream, cfg.health, now), at, cl);
    PlaceTakesOneEligibleSlot(cfg, rel, cl, now, Avoid(bs, at));
    if at.Some? && at.value < |bs| {
      OthersUntouched(bs, at, o, cl, stream, cfg.health, now, at.value);
    }
  }

  // ---------- retries on runs ----------

  lemma NamesOnRuns(cfg: GatewayConfig, entries: seq<BackendEntry>, birth: real, s: State)
    requires Historied(cfg, Rows(entries), birth, s)
    ensures DistinctNames(s.backends)
  {
    hide Replay, Legal;
    var base := Rows(entries);
    RowsHaveDistinctNames(entries);
    forall i | 0 <= i < |base|
      ensures s.backends[i].name == base[i].name
    {
      assert Logged(base[i], s.logs[i], s.backends[i], cfg.health, birth, s.clock);
      ReplayKeepsName(base[i], s.logs[i], cfg.health);
    }
  }

  /** On every run, a call that is tried again goes to the cheapest eligible backend other than the one that failed. */
  lemma RetriesPickCheapest(cfg: GatewayConfig, entries: seq<BackendEntry>, now: real, acts: seq<Action>, id: nat, o: Outcome)
    requires cfg.retry.maxAttempts >= 1 && Feasible(cfg, Start(entries, now), acts)
    requires Enabled(cfg, Run(cfg, Start(entries, now), acts), Return(id, o))
    ensures var s := Run(cfg, Start(entries, now), acts);
      var r, r' := s.requests[id], Step(cfg, s, Return(id, o)).requests[id];
      r'.work.Calling? ==>
        r'.work.at.Some? && Cheapest(cfg, s.backends, r.cl, s.clock, Avoid(s.backends, r.work.at), r'.work.at.value)
  {
    hide Run, Feasible, Historied, LineSound, NoOvertaking, ArrivalsOrdered, Resume, ReturnEvents, ReleasesTwice, Cheapest,
      DistinctNames, Avoid;
    var start := Start(entries, now);
    var s := Run(cfg, start, acts);
    StartOrderly(cfg, entries, now);
    RunOrderly(cfg, start, acts);
    StartHistoried(cfg, entries, now);
    RunHistoried(cfg, Rows(entries), now, start, acts);
    NamesOnRuns(cfg, entries, now, s);
    var r := s.requests[id];
    assert WorkSound(cfg, |s.backends|, r);
    var next := Resume(cfg, s.backends, r.work.at, r.cl, r.stream, r.work.attempts, o, s.clock).next;
    if next.Retry? {
      RetryIsCheapest(cfg, s.backends, r.work.at, r.cl, r.stream, r.work.attempts, o, s.clock, next.target);
    }
  }

  // ---------- the number of calls ----------

  /** How often a run retries request `id`. */
  function RetriesOf(cfg: GatewayConfig, s: State, acts: seq<Action>, id: nat): nat
    requires WellFormed(s) && Feasible(cfg, s, acts)
    decreases |acts|
  {
    if acts == [] then 0
    else
      (if acts[0].Return? && acts[0].id == id && RetriedOn(cfg, s, acts[0]).Some? then 1 else 0)
      + RetriesOf(cfg, Step(cfg, s, acts[0]), acts[1..], id)
  }

  /** The calls made for request `id`, counting the first one to come; all that are allowed once it is over. */
  function CallsSpent(cfg: GatewayConfig, s: State, id: nat): int {
    if id >= |s.requests| || s.requests[id].work.Suspended? then 1
    else if s.requests[id].work.Calling? then s.requests[id].work.attempts
    else Max(1, cfg.retry.maxAttempts)
  }

  lemma {:induction false} AssignAllSpends(cfg: GatewayConfig, s: State, id: nat)
    requires WellFormed(s) && s.phase.Holding? && AnswersSound(cfg, s)
    ensures CallsSpent(cfg, AssignAll(cfg, s), id) == CallsSpent(cfg, s, id)
    decreases |s.phase.rest|
  {
    hide Place, VerdictEvents, TooOld;
    if s.phase.rest != [] {
      AssignNextAnswers(cfg, s);
      AssignAllSpends(cfg, AssignNext(cfg, s), id);
    }
  }

  lemma StepSpends(cfg: GatewayConfig, s: State, a: Action, id: nat)
    requires WellFormed(s) && Enabled(cfg, s, a) && AnswersSound(cfg, s)
    requires 1 <= CallsSpent(cfg, s, id) <= Max(1, cfg.retry.maxAttempts)
    ensures var s' := Step(cfg, s, a);
      var retried := a.Return? && a.id == id && RetriedOn(cfg, s, a).Some?;
      && CallsSpent(cfg, s, id) + (if retried then 1 else 0) <= CallsSpent(cfg, s', id) <= Max(1, cfg.retry.maxAttempts)
      && (id < |s'.requests| && s'.requests[id].work.Calling? ==>
        CallsSpent(cfg, s', id) == CallsSpent(cfg, s, id) + (if retried then 1 else 0))
  {
    hide AssignAll, Resume, ReturnEvents, ReleasesTwice, Refreshed;
    match a
    case Assign => AssignAllSpends(cfg, s, id);
    case Return(k, o) =>
      var r := s.requests[k];
      ResumeEnds(cfg, s.backends, r.work.at, r.cl, r.stream, r.work.attempts, o, s.clock);
    case _ =>
  }

  lemma {:induction false} RunSpends(cfg: GatewayConfig, s: State, acts: seq<Action>, id: nat)
    requires WellFormed(s) && Feasible(cfg, s, acts) && AnswersSound(cfg, s)
    requires 1 <= CallsSpent(cfg, s, id) <= Max(1, cfg.retry.maxAttempts)
    ensures var s', n := Run(cfg, s, acts), RetriesOf(cfg, s, acts, id);
      && CallsSpent(cfg, s, id) + n <= CallsSpent(cfg, s', id) <= Max(1, cfg.retry.maxAttempts)
      && (id < |s'.requests| && s'.requests[id].work.Calling? ==> CallsSpent(cfg, s', id) == CallsSpent(cfg, s, id) + n)
    decreases |acts|
  {
    hide Step, AnswersSound, RetriedOn;
    if acts != [] {
      var s1 := Step(cfg, s, acts[0]);
      StepSpends(cfg, s, acts[0], id);
      StepAnswers(cfg, s, acts[0]);
      RunSpends(cfg, s1, acts[1..], id);
      if Over(s1, id) {
        RunOver(cfg, s1, acts[1..], id);
      }
    }
  }

  /** Relaying or answered: no more calls. */
  predicate Over(s: State, id: nat) {
    id < |s.requests| && (s.requests[id].work.Relaying? || s.requests[id].work.Finished?)
  }

  lemma {:induction false} AssignAllOver(cfg: GatewayConfig, s: State, id: nat)
    requires WellFormed(s) && s.phase.Holding? && AnswersSound(cfg, s) && Over(s, id)
    ensures Over(AssignAll(cfg, s), id)
    decreases |s.phase.rest|
  {
    hide Place, VerdictEvents, TooOld;
    if s.phase.rest != [] {
      AssignNextAnswers(cfg, s);
      AssignAllOver(cfg, AssignNext(cfg, s), id);
    }
  }

  lemma StepOver(cfg: GatewayConfig, s: State, a: Action, id: nat)
    requires WellFormed(s) && Enabled(cfg, s, a) && AnswersSound(cfg, s) && Over(s, id)
    ensures Over(Step(cfg, s, a), id)
  {
    hide AssignAll, Resume, ReturnEvents, ReleasesTwice, Refreshed;
    if a.Assign? {
      AssignAllOver(cfg, s, id);
    }
  }

  lemma {:induction false} RunOver(cfg: GatewayConfig, s: State, acts: seq<Action>, id: nat)
    requires WellFormed(s) && Feasible(cfg, s, acts) && AnswersSound(cfg, s) && Over(s, id)
    ensures Over(Run(cfg, s, acts), id)
    decreases |acts|
  {
    hide Step, AnswersSound, Over;
    if acts != [] {
      StepOver(cfg, s, acts[0], id);
      StepAnswers(cfg, s, acts[0]);
      RunOver(cfg, Step(cfg, s, acts[0]), acts[1..], id);
    }
  }

  /** On every run no request is called more often than is allowed, and a call knows its number. */
  lemma CallsAreCounted(cfg: GatewayConfig, entries: seq<BackendEntry>, now: real, acts: seq<Action>, id: nat)
    requires Feasible(cfg, Start(entries, now), acts)
    ensures var s, n := Run(cfg, Start(entries, now), acts), RetriesOf(cfg, Start(entries, now), acts, id);
      && 1 + n <= Max(1, cfg.retry.maxAttempts)
      && (id < |s.requests| && s.requests[id].work.Calling? ==> s.requests[id].work.attempts == 1 + n)
  {
    hide Run, Feasible, RetriesOf;
    RunSpends(cfg, Start(entries, now), acts, id);
  }
}
