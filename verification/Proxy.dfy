/** The proxy: what one upstream outcome does to the registry, and the retry loop around it. */
module Proxy {
  import opened Types
  import opened BackendState
  import opened Health
  import opened Registry
  import opened Scoring
  import opened Dispatcher

  /**
   * How one upstream call ends: response headers (for a buffered call, the whole response) after `ms`
   * milliseconds, a timeout or connection error, or, for a stream, such an error while the body of an
   * error response is read.
   */
  datatype Outcome = Headers(code: int, ms: real) | Transport | BodyTransport

  datatype Reply = Relayed(code: int) | Unreachable | Exhausted | FallbackUnavailable

  datatype Next = Retry(target: nat) | OpenStream(code: int) | Answer(reply: Reply)

  datatype Resumption = Resumption(backends: seq<Backend>, next: Next)

  predicate Succeeded(o: Outcome) { o.Headers? && o.code < 400 }

  /** The outcomes that count as a circuit-breaker failure. */
  predicate Faulted(o: Outcome) { !o.Headers? || o.code >= 500 }

  function AfterOutcome(b: Backend, o: Outcome, stream: bool, h: HealthConfig, now: real): Backend {
    if Succeeded(o) then
      AfterUpdateSuccess(AfterSuccess(b), Some(if stream then o.ms else MinReal(o.ms, 10000.0)), o.ms)
    else if Faulted(o) then AfterUpdateFailure(AfterFailure(b, h, now))
    else AfterUpdateFailure(b)
  }

  function AfterRelease(b: Backend, cl: RequestClass): Backend {
    b.(inflight := Max(0, b.inflight - 1),
       largeInflight := if cl.IsLarge() then Max(0, b.largeInflight - 1) else b.largeInflight)
  }

  /** A target outside the registry (the fallback) has no state to update. */
  function Noted(bs: seq<Backend>, at: Option<nat>, o: Outcome, stream: bool, h: HealthConfig, now: real): (r: seq<Backend>)
    ensures |r| == |bs|
  {
    if at.Some? && at.value < |bs| then bs[at.value := AfterOutcome(bs[at.value], o, stream, h, now)] else bs
  }

  function Released(bs: seq<Backend>, at: Option<nat>, cl: RequestClass): (r: seq<Backend>)
    ensures |r| == |bs|
  {
    if at.Some? && at.value < |bs| then bs[at.value := AfterRelease(bs[at.value], cl)] else bs
  }

  /** A streaming call is only retried when the read of an error body times out. */
  predicate WantsRetry(cfg: GatewayConfig, stream: bool, attempts: nat, o: Outcome) {
    && attempts < cfg.retry.maxAttempts
    && match o
       case Headers(code, _) => !stream && code >= 400 && (code >= 500 || code in cfg.retry.retryableStatuses)
       case Transport => !stream
       case BodyTransport => true
  }

  function Avoid(bs: seq<Backend>, at: Option<nat>): Option<string> {
    if at.Some? && at.value < |bs| then Some(bs[at.value].name) else None
  }

  /** Registry after the old slot is given back and another backend is looked for. */
  function RetryPlacement(cfg: GatewayConfig, bs: seq<Backend>, at: Option<nat>, cl: RequestClass, stream: bool,
                          o: Outcome, now: real): (pl: Placement)
    ensures |pl.backends| == |bs|
    ensures pl.target.Some? ==> pl.target.value < |bs|
  {
    Place(cfg, Released(Noted(bs, at, o, stream, cfg.health, now), at, cl), cl, now, Avoid(bs, at))
  }

  /** A retry is due but no other backend is eligible: the slot given back above is given back again. */
  predicate ReleasesTwice(cfg: GatewayConfig, bs: seq<Backend>, at: Option<nat>, cl: RequestClass, stream: bool,
                          attempts: nat, o: Outcome, now: real)
  {
    WantsRetry(cfg, stream, attempts, o) && RetryPlacement(cfg, bs, at, cl, stream, o, now).target.None?
  }

  function FinalReply(o: Outcome): Reply {
    if o.Headers? then Relayed(o.code) else Unreachable
  }

  /** Everything between the end of one upstream call and the next suspension. */
  function Resume(cfg: GatewayConfig, bs: seq<Backend>, at: Option<nat>, cl: RequestClass, stream: bool,
                  attempts: nat, o: Outcome, now: real): (res: Resumption)
    ensures |res.backends| == |bs|
    ensures res.next.Retry? ==> res.next.target < |bs|
  {
    var noted := Noted(bs, at, o, stream, cfg.health, now);
    if Succeeded(o) then
      if stream then Resumption(noted, OpenStream(o.code)) else Resumption(Released(noted, at, cl), Answer(Relayed(o.code)))
    else if WantsRetry(cfg, stream, attempts, o) then
      var pl := RetryPlacement(cfg, bs, at, cl, stream, o, now);
      if pl.target.Some? then Resumption(pl.backends, Retry(pl.target.value))
      else Resumption(Released(pl.backends, at, cl), Answer(FinalReply(o)))
    else Resumption(Released(noted, at, cl), Answer(FinalReply(o)))
  }

  function Sampled(bs: seq<Backend>, at: Option<nat>, e2eMs: real): (r: seq<Backend>)
    ensures |r| == |bs|
  {
    if at.Some? && at.value < |bs| then bs[at.value := AfterUpdateSuccess(bs[at.value], None, e2eMs)] else bs
  }

  /** The end of a stream: latency and error rate are updated again, and the slot is given back. */
  function AfterStreamEnd(bs: seq<Backend>, at: Option<nat>, cl: RequestClass, e2eMs: real): (r: seq<Backend>)
    ensures |r| == |bs|
  {
    Released(Sampled(bs, at, e2eMs), at, cl)
  }

  // ---------- the proxy's own code ----------

  method ReleaseDispatch(registry: BackendRegistry, name: string, cl: RequestClass)
    requires registry.Valid()
    modifies registry.states
    ensures registry.Valid()
    ensures registry.View() == Released(old(registry.View()), Lookup(old(registry.View()), name), cl)
  {
    hide Lookup;
    hide AfterRelease;
    var s := registry.Get(name);
    if s != null {
      Vacate(s, cl);
    }
  }

  method Vacate(s: BackendRuntimeState, cl: RequestClass)
    modifies s`inflight, s`largeInflight
    ensures s.View() == AfterRelease(old(s.View()), cl)
  {
    s.inflight := Max(0, s.inflight - 1);
    if cl == LargeChat || cl == StreamingLong {
      s.largeInflight := Max(0, s.largeInflight - 1);
    }
  }

  method PickRetryTarget(cfg: GatewayConfig, registry: BackendRegistry, cl: RequestClass, avoid: string, now: real)
    returns (next: Option<BackendTarget>)
    requires registry.Valid() && registry.health == cfg.health
    modifies registry.states
    ensures registry.Valid()
    ensures var pl := Place(cfg, old(registry.View()), cl, now, Some(avoid));
      && registry.View() == pl.backends
      && (next.None? <==> pl.target.None?)
      && (next.Some? ==>
        && next.value == BackendTarget(pl.backends[pl.target.value].name)
        && Cheapest(cfg, old(registry.View()), cl, now, Some(avoid), pl.target.value))
  {
    hide Place, Cheapest;
    ghost var was := registry.View();
    var chosen := TakeBackend(cfg, registry, cl, Some(avoid), now);
    if chosen == null {
      return None;
    }
    assert chosen.View() == registry.View()[Place(cfg, was, cl, now, Some(avoid)).target.value];
    return Some(BackendTarget(chosen.name));
  }

  /** The health and latency updates of one finished call. */
  method NoteOutcome(s: BackendRuntimeState, o: Outcome, stream: bool, h: HealthConfig, now: real)
    modifies s
    ensures s.View() == AfterOutcome(old(s.View()), o, stream, h, now)
  {
    if o.Headers? && o.code < 400 {
      OnSuccess(s);
      s.UpdateSuccess(Some(if stream then o.ms else MinReal(o.ms, 10000.0)), o.ms);
    } else {
      if !o.Headers? || o.code >= 500 {
        OnFailure(s, h, now);
      }
      s.UpdateFailure();
    }
  }

  /** The finally block of a stream. */
  method EndStream(registry: BackendRegistry, target: BackendTarget, cl: RequestClass, e2eMs: real)
    requires registry.Valid()
    modifies registry.states
    ensures registry.Valid()
    ensures var was := old(registry.View());
      registry.View() == AfterStreamEnd(was, Lookup(was, target.name), cl, e2eMs)
  {
    hide Lookup, AfterUpdateSuccess, AfterRelease;
    ghost var was := registry.View();
    var s := registry.Get(target.name);
    if s != null {
      s.UpdateSuccess(None, e2eMs);
    }
    assert registry.View() == Sampled(was, Lookup(was, target.name), e2eMs);
    LookupByNames(was, registry.View(), target.name);
    ReleaseDispatch(registry, target.name, cl);
  }

  // ---------- names are never touched ----------

  predicate NamesAgree(bs: seq<Backend>, bs': seq<Backend>) {
    |bs| == |bs'| && forall i :: 0 <= i < |bs| ==> bs[i].name == bs'[i].name
  }

  lemma {:induction false} LookupByNames(bs: seq<Backend>, bs': seq<Backend>, name: string)
    requires NamesAgree(bs, bs')
    ensures Lookup(bs, name) == Lookup(bs', name)
  {
    if bs != [] {
      LookupByNames(bs[..|bs| - 1], bs'[..|bs'| - 1], name);
    }
  }

  /** Noting an outcome leaves every name, and so every lookup, as it was. */
  lemma NotingKeepsNames(bs: seq<Backend>, at: Option<nat>, o: Outcome, stream: bool, h: HealthConfig, now: real, name: string)
    ensures var noted := Noted(bs, at, o, stream, h, now);
      Lookup(noted, name) == Lookup(bs, name) && Avoid(noted, at) == Avoid(bs, at)
  {
    hide Lookup;
    LookupByNames(bs, Noted(bs, at, o, stream, h, now), name);
  }

  lemma ReleasingKeepsNames(bs: seq<Backend>, at: Option<nat>, cl: RequestClass, name: string)
    ensures var released := Released(bs, at, cl);
      Lookup(released, name) == Lookup(bs, name) && Avoid(released, at) == Avoid(bs, at)
  {
    hide Lookup;
    LookupByNames(bs, Released(bs, at, cl), name);
  }

  /** A finished call changes no name, and no backend but its own. */
  lemma OthersUntouched(bs: seq<Backend>, at: Option<nat>, o: Outcome, cl: RequestClass, stream: bool,
                        h: HealthConfig, now: real, j: nat)
    requires j < |bs|
    ensures var rel := Released(Noted(bs, at, o, stream, h, now), at, cl);
      rel[j].name == bs[j].name && (at != Some(j) ==> rel[j] == bs[j])
  {
  }

  lemma PlacingKeepsNames(cfg: GatewayConfig, bs: seq<Backend>, cl: RequestClass, now: real, avoid: Option<string>, name: string)
    ensures Lookup(Place(cfg, bs, cl, now, avoid).backends, name) == Lookup(bs, name)
  {
    hide Place;
    hide Lookup;
    SameNames(cfg, bs, cl, now, avoid);
    LookupByNames(bs, Place(cfg, bs, cl, now, avoid).backends, name);
  }

  lemma {:induction false} AvoidingNobody(bs: seq<Backend>, h: HealthConfig, now: real, name: string)
    requires Lookup(bs, name).None?
    ensures Candidates(bs, h, now, Some(name)) == Candidates(bs, h, now, None)
    ensures Refreshed(bs, h, now, Some(name)) == Refreshed(bs, h, now, None)
  {
    hide Eligible;
    if bs != [] {
      AvoidingNobody(bs[..|bs| - 1], h, now, name);
    }
  }

  /** Avoiding a name the registry does not know is avoiding none. */
  lemma AvoidByName(cfg: GatewayConfig, bs: seq<Backend>, cl: RequestClass, now: real, name: string)
    ensures Place(cfg, bs, cl, now, Some(name)) == Place(cfg, bs, cl, now, Avoid(bs, Lookup(bs, name)))
  {
    hide Pick;
    hide TakeSlot;
    LookupFinds(bs, name);
    if Lookup(bs, name).None? {
      AvoidingNobody(bs, cfg.health, now, name);
    }
  }

  // ---------- the retry loop ----------

  /** The cases of `Resume`, one equation each. */
  lemma ResumeCases(cfg: GatewayConfig, bs: seq<Backend>, at: Option<nat>, cl: RequestClass, stream: bool,
                    attempts: nat, o: Outcome, now: real)
    ensures var res, noted := Resume(cfg, bs, at, cl, stream, attempts, o, now), Noted(bs, at, o, stream, cfg.health, now);
      && (Succeeded(o) && stream ==> res == Resumption(noted, OpenStream(o.code)))
      && (Succeeded(o) && !stream ==> res == Resumption(Released(noted, at, cl), Answer(Relayed(o.code))))
      && (!Succeeded(o) && !WantsRetry(cfg, stream, attempts, o) ==>
        res == Resumption(Released(noted, at, cl), Answer(FinalReply(o))))
      && (!Succeeded(o) && WantsRetry(cfg, stream, attempts, o) ==>
        var pl := Place(cfg, Released(noted, at, cl), cl, now, Avoid(bs, at));
        && (pl.target.Some? ==> res == Resumption(pl.backends, Retry(pl.target.value)))
        && (pl.target.None? ==> res == Resumption(Released(pl.backends, at, cl), Answer(FinalReply(o)))))
  {
    hide Noted;
    hide Released;
    hide Place;
  }

  /** Which calls may be followed by another, and what the others end in. */
  lemma ResumeEnds(cfg: GatewayConfig, bs: seq<Backend>, at: Option<nat>, cl: RequestClass, stream: bool,
                   attempts: nat, o: Outcome, now: real)
    ensures var next := Resume(cfg, bs, at, cl, stream, attempts, o, now).next;
      && (next.Retry? ==>
        && attempts < cfg.retry.maxAttempts
        && match o
           case Headers(code, _) => !stream && code >= 400 && (code >= 500 || code in cfg.retry.retryableStatuses)
           case Transport => !stream
           case BodyTransport => true)
      && (next.OpenStream? <==> stream && o.Headers? && o.code < 400)
      && (next.OpenStream? ==> next.code == o.code)
      && (next.Answer? ==> next.reply == if o.Headers? then Relayed(o.code) else Unreachable)
  {
    hide Noted;
    hide Released;
    hide Place;
  }

  /**
   * When exactly a finished call is followed by another: an attempt is left, some backend other than the one
   * just called is eligible, and the call was buffered and ended in a status from 500 up, in an error status
   * configured as retryable, or in a timeout or connection error, or it broke off in the body of an error
   * answer. What the failed call did to its own backend plays no part.
   */
  lemma RetriesExactly(cfg: GatewayConfig, bs: seq<Backend>, at: Option<nat>, cl: RequestClass, stream: bool,
                       attempts: nat, o: Outcome, now: real)
    requires DistinctNames(bs) && (at.Some? ==> at.value < |bs|)
    ensures Resume(cfg, bs, at, cl, stream, attempts, o, now).next.Retry? <==>
      && attempts < cfg.retry.maxAttempts
      && (match o
          case Headers(code, _) => !stream && code >= 400 && (code >= 500 || code in cfg.retry.retryableStatuses)
          case Transport => !stream
          case BodyTransport => true)
      && exists j :: 0 <= j < |bs| && at != Some(j) && Eligible(bs[j], cfg.health, now)
  {
    hide Resume, Place, Noted, Released, Eligible;
    ResumeCases(cfg, bs, at, cl, stream, attempts, o, now);
    var rel := Released(Noted(bs, at, o, stream, cfg.health, now), at, cl);
    PlaceTakesOneEligibleSlot(cfg, rel, cl, now, Avoid(bs, at));
    forall j | 0 <= j < |bs|
      ensures rel[j].name == bs[j].name && (at != Some(j) ==> rel[j] == bs[j])
    {
      OthersUntouched(bs, at, o, cl, stream, cfg.health, now, j);
    }
  }

  datatype Ending = Continue(target: BackendTarget) | Streaming(code: int) | Done(reply: Reply)

  ghost predicate Matches(ending: Ending, next: Next, bs: seq<Backend>) {
    match next
    case Retry(p) => p < |bs| && ending == Continue(BackendTarget(bs[p].name))
    case OpenStream(code) => ending == Streaming(code)
    case Answer(reply) => ending == Done(reply)
  }

  /** The code of a streaming call after its suspension; a timeout in the error body escapes it untreated. */
  method FinishStreaming(cfg: GatewayConfig, registry: BackendRegistry, target: BackendTarget, cl: RequestClass,
                         ghost attempts: nat, o: Outcome, now: real) returns (ending: Ending)
    requires registry.Valid() && registry.health == cfg.health && !o.BodyTransport?
    modifies registry.states
    ensures registry.Valid()
    ensures var was := old(registry.View());
      var res := Resume(cfg, was, Lookup(was, target.name), cl, true, attempts, o, now);
      registry.View() == res.backends && Matches(ending, res.next, res.backends)
  {
    hide Lookup, Noted, Released, Avoid, Place, Resume;
    hide BackendRegistry.Valid, BackendRegistry.View, Views;
    ghost var was := registry.View();
    ghost var at := Lookup(was, target.name);
    NotingKeepsNames(was, at, o, true, cfg.health, now, target.name);
    ResumeCases(cfg, was, at, cl, true, attempts, o, now);
    Note(cfg, registry, target.name, o, true, now);
    if o.Headers? && o.code < 400 {
      return Streaming(o.code);
    }
    ReleaseDispatch(registry, target.name, cl);
    return Done(if o.Headers? then Relayed(o.code) else Unreachable);
  }

  method Note(cfg: GatewayConfig, registry: BackendRegistry, name: string, o: Outcome, stream: bool, now: real)
    requires registry.Valid() && registry.health == cfg.health
    modifies registry.states
    ensures registry.Valid()
    ensures var was := old(registry.View());
      registry.View() == Noted(was, Lookup(was, name), o, stream, cfg.health, now)
  {
    hide Lookup;
    hide AfterOutcome;
    var s := registry.Get(name);
    if s != null {
      NoteOutcome(s, o, stream, cfg.health, now);
    }
  }

  /** Give the slot back and look for another backend, without suspending in between. */
  method ReleaseAndRepick(cfg: GatewayConfig, registry: BackendRegistry, target: BackendTarget, cl: RequestClass, now: real)
    returns (next: Option<BackendTarget>)
    requires registry.Valid() && registry.health == cfg.health
    modifies registry.states
    ensures registry.Valid()
    ensures var was := old(registry.View());
      var at := Lookup(was, target.name);
      var pl := Place(cfg, Released(was, at, cl), cl, now, Avoid(was, at));
      && registry.View() == pl.backends
      && (next.None? <==> pl.target.None?)
      && (next.Some? ==> next.value == BackendTarget(pl.backends[pl.target.value].name))
  {
    hide Lookup, Released, Avoid, Place;
    hide BackendRegistry.Valid, BackendRegistry.View, Views;
    ghost var was := registry.View();
    ghost var at := Lookup(was, target.name);
    ReleaseDispatch(registry, target.name, cl);
    ReleasingKeepsNames(was, at, cl, target.name);
    AvoidByName(cfg, registry.View(), cl, now, target.name);
    next := PickRetryTarget(cfg, registry, cl, target.name, now);
  }

  /** After a failed buffered call: move on to another backend if a retry is due and one is eligible, else answer. */
  method RetryOrGiveUp(cfg: GatewayConfig, registry: BackendRegistry, target: BackendTarget, cl: RequestClass,
                       retry: bool, o: Outcome, now: real) returns (ending: Ending)
    requires registry.Valid() && registry.health == cfg.health
    modifies registry.states
    ensures registry.Valid()
    ensures var noted := old(registry.View());
      var at := Lookup(noted, target.name);
      var pl := Place(cfg, Released(noted, at, cl), cl, now, Avoid(noted, at));
      && (!retry ==>
        registry.View() == Released(noted, at, cl) && ending == Done(if o.Headers? then Relayed(o.code) else Unreachable))
      && (retry && pl.target.Some? ==>
        registry.View() == pl.backends && ending == Continue(BackendTarget(pl.backends[pl.target.value].name)))
      && (retry && pl.target.None? ==>
        registry.View() == Released(pl.backends, at, cl) && ending == Done(if o.Headers? then Relayed(o.code) else Unreachable))
  {
    hide Lookup, Released, Avoid, Place;
    hide BackendRegistry.Valid, BackendRegistry.View, Views;
    if retry {
      ghost var noted := registry.View();
      ghost var at := Lookup(noted, target.name);
      ReleasingKeepsNames(noted, at, cl, target.name);
      PlacingKeepsNames(cfg, Released(noted, at, cl), cl, now, Avoid(noted, at), target.name);
      var next := ReleaseAndRepick(cfg, registry, target, cl, now);
      if next.Some? {
        return Continue(next.value);
      }
    }
    ReleaseDispatch(registry, target.name, cl);
    return Done(if o.Headers? then Relayed(o.code) else Unreachable);
  }

  /** One pass of the loop body after its suspension: record, give the slot back, perhaps move on. */
  method FinishAttempt(cfg: GatewayConfig, registry: BackendRegistry, target: BackendTarget, cl: RequestClass,
                       stream: bool, attempts: nat, o: Outcome, now: real) returns (ending: Ending)
    requires registry.Valid() && registry.health == cfg.health
    modifies registry.states
    ensures registry.Valid()
    ensures var was := old(registry.View());
      var res := Resume(cfg, was, Lookup(was, target.name), cl, stream, attempts, o, now);
      registry.View() == res.backends && Matches(ending, res.next, res.backends)
    ensures ending.Continue? <==>
      && attempts < cfg.retry.maxAttempts
      && (match o
          case Headers(code, _) => !stream && code >= 400 && (code >= 500 || code in cfg.retry.retryableStatuses)
          case Transport => !stream
          case BodyTransport => true)
      && exists j :: 0 <= j < |old(registry.View())| && Lookup(old(registry.View()), target.name) != Some(j)
           && Eligible(old(registry.View())[j], cfg.health, now)
    ensures ending.Streaming? <==> stream && o.Headers? && o.code < 400
    ensures ending.Done? ==> ending.reply == if o.Headers? then Relayed(o.code) else Unreachable
  {
    hide Lookup, Noted, Released, Avoid, Place, Resume, DistinctNames, Eligible;
    hide BackendRegistry.Valid, BackendRegistry.View, Views;
    ghost var was := registry.View();
    ghost var at := Lookup(was, target.name);
    ValidRegistryHasDistinctNames(registry);
    RetriesExactly(cfg, was, at, cl, stream, attempts, o, now);
    ResumeEnds(cfg, was, at, cl, stream, attempts, o, now);
    if stream && !o.BodyTransport? {
      ending := FinishStreaming(cfg, registry, target, cl, attempts, o, now);
      return;
    }
    ResumeCases(cfg, was, at, cl, stream, attempts, o, now);
    NotingKeepsNames(was, at, o, stream, cfg.health, now, target.name);
    Note(cfg, registry, target.name, o, stream, now);
    if o.Headers? && o.code < 400 {
      ReleaseDispatch(registry, target.name, cl);
      return Done(Relayed(o.code));
    }
    var retryable := if o.Headers? then o.code >= 500 || o.code in cfg.retry.retryableStatuses else true;
    ending := RetryOrGiveUp(cfg, registry, target, cl, attempts < cfg.retry.maxAttempts && retryable, o, now);
  }

  /** One turn of the retry loop: what the registry was when the call came back, and what became of it. */
  datatype Attempt = Attempt(at: Option<nat>, before: seq<Backend>, outcome: Outcome, now: real, result: Resumption)

  /**
   * Each turn is one `Resume`, with its number in the loop; all but the last go on to the backend the
   * next turn calls. Nothing is said of the registry between the turns: other requests run then.
   */
  ghost predicate IsRetryChain(cfg: GatewayConfig, cl: RequestClass, stream: bool, chain: seq<Attempt>) {
    && (forall k :: 0 <= k < |chain| ==>
      var a := chain[k];
      a.result == Resume(cfg, a.before, a.at, cl, stream, k + 1, a.outcome, a.now))
    && (forall k :: 0 <= k < |chain| - 1 ==>
      chain[k].result.next.Retry? && chain[k + 1].at == Some(chain[k].result.next.target))
  }

  predicate IsFallback(cfg: GatewayConfig, target: BackendTarget) {
    cfg.fallback.enabled && target.name == cfg.fallback.name
  }

  /** The suspension during the upstream call: any other task may change any backend meanwhile. */
  method AwaitUpstream(registry: BackendRegistry, script: seq<(Outcome, real)>, k: nat) returns (o: Outcome, now: real)
    requires registry.Valid() && k < |script|
    modifies registry.states
    ensures registry.Valid() && NamesAgree(old(registry.View()), registry.View())
    ensures (o, now) == script[k]
  {
    return script[k].0, script[k].1;
  }

  lemma EmptyChain(cfg: GatewayConfig, cl: RequestClass, stream: bool)
    ensures IsRetryChain(cfg, cl, stream, [])
  {
  }

  lemma ChainNext(cfg: GatewayConfig, cl: RequestClass, stream: bool, chain: seq<Attempt>, a: Attempt)
    requires IsRetryChain(cfg, cl, stream, chain)
    requires a.result == Resume(cfg, a.before, a.at, cl, stream, |chain| + 1, a.outcome, a.now)
    requires chain != [] ==>
      var next := chain[|chain| - 1].result.next; next.Retry? && a.at == Some(next.target)
    ensures IsRetryChain(cfg, cl, stream, chain + [a])
  {
    hide Resume;
  }

  /** The end of a call to an unregistered fallback records nothing and gives nothing back; a retry it leads to takes one slot. */
  lemma FallbackTouchesNoBackend(cfg: GatewayConfig, bs: seq<Backend>, target: BackendTarget, cl: RequestClass, stream: bool,
                                 attempts: nat, o: Outcome, now: real, i: nat)
    requires IsFallback(cfg, target) && Lookup(bs, cfg.fallback.name).None? && i < |bs|
    ensures var res := Resume(cfg, bs, Lookup(bs, target.name), cl, stream, attempts, o, now);
      var b, checked := bs[i], AfterCooldownCheck(bs[i], cfg.health, now);
      res.backends[i] in {b, checked} || (res.next == Retry(i) && res.backends[i] == TakeSlot(checked, cl, now))
  {
    hide Place, TakeSlot, Lookup, Resume, CooledDown;
    ResumeCases(cfg, bs, Lookup(bs, target.name), cl, stream, attempts, o, now);
    PlaceTakesOneEligibleSlot(cfg, bs, cl, now, None);
  }

  /** The index of a target in a registry whose names are those of `bs`. */
  lemma LookupOfTarget(bs: seq<Backend>, bs': seq<Backend>, p: nat)
    requires NamesAgree(bs, bs') && DistinctNames(bs) && p < |bs|
    ensures Lookup(bs', bs[p].name) == Some(p)
  {
    LookupAt(bs, p);
    LookupByNames(bs, bs', bs[p].name);
  }

  /**
   * The retry loop. `script` gives what the upstream calls come back with, and when. The statements after
   * the loop run only when no attempt at all is allowed.
   */
  method ProxyChatCompletion(cfg: GatewayConfig, registry: BackendRegistry, cl: RequestClass, stream: bool,
                             initial: BackendTarget, script: seq<(Outcome, real)>)
    returns (end: Ending, ghost chain: seq<Attempt>)
    requires registry.Valid() && registry.health == cfg.health
    requires |script| >= cfg.retry.maxAttempts
    modifies registry.states
    ensures registry.Valid()
    ensures IsRetryChain(cfg, cl, stream, chain) && |chain| <= Max(0, cfg.retry.maxAttempts)
    ensures chain != [] ==>
      chain[0].at == Lookup(chain[0].before, initial.name) && NamesAgree(old(registry.View()), chain[0].before)
    ensures chain != [] && end != Done(FallbackUnavailable) ==>
      var last := chain[|chain| - 1].result;
      registry.View() == last.backends && Matches(end, last.next, last.backends)
    ensures end == Done(Exhausted) <==> cfg.retry.maxAttempts <= 0
    ensures cfg.retry.maxAttempts <= 0 ==>
      registry.View() == Released(old(registry.View()), Lookup(old(registry.View()), initial.name), cl)
    ensures end == Done(FallbackUnavailable) ==> cfg.fallback.enabled && !cfg.fallback.keySet
    ensures chain == [] && cfg.retry.maxAttempts > 0 ==> end == Done(FallbackUnavailable)
    ensures chain == [] && cfg.retry.maxAttempts > 0 <==>
      cfg.retry.maxAttempts > 0 && cfg.fallback.enabled && !cfg.fallback.keySet && initial.name == cfg.fallback.name
    ensures !end.Continue?
  {
    hide Resume, Lookup, WantsRetry, Released, IsRetryChain, DistinctNames, NamesAgree;
    hide BackendRegistry.Valid, BackendRegistry.View, Views;
    var target := initial;
    var attempts := 0;
    chain := [];
    EmptyChain(cfg, cl, stream);
    while attempts < cfg.retry.maxAttempts
      invariant registry.Valid()
      invariant |chain| == attempts && (attempts == 0 || attempts < cfg.retry.maxAttempts)
      invariant IsRetryChain(cfg, cl, stream, chain)
      invariant attempts == 0 ==> target == initial && registry.View() == old(registry.View())
      invariant attempts > 0 ==>
        && chain[0].at == Lookup(chain[0].before, initial.name)
        && NamesAgree(old(registry.View()), chain[0].before)
        && var last := chain[attempts - 1].result;
           last.next.Retry? && last.next.target < |last.backends| && registry.View() == last.backends
           && target == BackendTarget(last.backends[last.next.target].name)
      invariant attempts > 0 ==>
        !(cfg.fallback.enabled && !cfg.fallback.keySet && initial.name == cfg.fallback.name)
      decreases cfg.retry.maxAttempts - attempts
    {
      ghost var view := registry.View();
      ValidRegistryHasDistinctNames(registry);
      attempts := attempts + 1;
      if IsFallback(cfg, target) && !cfg.fallback.keySet {
        return Done(FallbackUnavailable), chain;
      }
      var o, now := AwaitUpstream(registry, script, attempts - 1);
      ghost var before := registry.View();
      ghost var at := Lookup(before, target.name);
      if attempts > 1 {
        LookupOfTarget(view, before, chain[attempts - 2].result.next.target);
      }
      end := FinishAttempt(cfg, registry, target, cl, stream, attempts, o, now);
      ghost var a := Attempt(at, before, o, now, Resume(cfg, before, at, cl, stream, attempts, o, now));
      ResumeEnds(cfg, before, at, cl, stream, attempts, o, now);
      ChainNext(cfg, cl, stream, chain, a);
      chain := chain + [a];
      if !end.Continue? {
        return;
      }
      target := end.target;
    }
    ReleaseDispatch(registry, target.name, cl);
    return Done(Exhausted), chain;
  }
}
