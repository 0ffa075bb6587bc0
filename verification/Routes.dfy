/** The handler of a chat completion: enqueue, wait for the scheduler, fall back or answer, and proxy. */
module Routes {
  import opened Types
  import opened BackendState
  import opened Registry
  import opened Admission
  import opened Proxy
  import opened Gateway

  function FallbackTarget(cfg: GatewayConfig): Option<BackendTarget> {
    if cfg.fallback.enabled then Some(BackendTarget(cfg.fallback.name)) else None
  }

  /** Why a request that got no backend is refused. `wait_for` cancels the future when its time is up. */
  function Refusal(accepted: bool, wait: Future): Option<Answer> {
    if !accepted then Some(QueueFull)
    else match wait
      case Cancelled => Some(QueueAge)
      case ScheduleError => Some(NoBackend)
      case _ => None
  }

  datatype Reaction = Refusing(answer: Answer) | Proxied(end: Ending)

  /** The suspension in the wait: the scheduler or the timer resolves the future, other tasks do anything else. */
  method AwaitDispatch(registry: BackendRegistry, queue: AdmissionQueue, pending: PendingRequest, wait: Future)
    requires registry.Valid() && pending.future == Pending && !wait.Pending?
    modifies registry.states, queue`items, pending`future
    ensures registry.Valid() && NamesAgree(old(registry.View()), registry.View())
    ensures pending.future == wait
  {
    pending.future := wait;
  }

  /** Enqueue and wait: the request, and the target to call if the scheduler assigned one. */
  method Admit(cfg: GatewayConfig, registry: BackendRegistry, queue: AdmissionQueue, cl: RequestClass,
               arrived: real, wait: Future)
    returns (pending: PendingRequest, refusal: Option<Answer>)
    requires registry.Valid() && !wait.Pending?
    modifies registry.states, queue
    ensures registry.Valid() && NamesAgree(old(registry.View()), registry.View())
    ensures fresh(pending) && pending.arrived == arrived && pending.cl == cl
    ensures var accepted := |old(queue.items)| < queue.maxSize;
      && refusal == Refusal(accepted, wait)
      && (refusal == Some(QueueFull) <==> !accepted)
      && (refusal == Some(QueueAge) <==> accepted && wait.Cancelled?)
      && (refusal == Some(NoBackend) <==> accepted && wait.ScheduleError?)
      && (refusal == None <==> accepted && wait.Result?)
      && (!accepted ==> queue.items == old(queue.items))
      && pending.future == (if accepted then wait else Pending)
      && (pending.cancelled <==> accepted && wait.Cancelled?)
  {
    pending := new PendingRequest(arrived, cl);
    var accepted := queue.Enqueue(pending);
    if !accepted {
      return pending, Some(QueueFull);
    }
    AwaitDispatch(registry, queue, pending, wait);
    match pending.future {
      case Cancelled =>
        pending.cancelled := true;
        refusal := Some(QueueAge);
      case ScheduleError =>
        refusal := Some(NoBackend);
      case _ =>
        refusal := None;
    }
  }

  /**
   * `wait` is what becomes of the dispatch future, `script` what the upstream calls come back with. The
   * handler does what the steps of the transition system say: after a refusal it goes where `FallbackOr`
   * puts it, after an assignment it calls the backend assigned.
   */
  method ChatCompletions(cfg: GatewayConfig, registry: BackendRegistry, queue: AdmissionQueue, cl: RequestClass,
                         stream: bool, arrived: real, wait: Future, script: seq<(Outcome, real)>)
    returns (reaction: Reaction, ghost chain: seq<Attempt>)
    requires registry.Valid() && registry.health == cfg.health && !wait.Pending?
    requires |script| >= cfg.retry.maxAttempts
    modifies registry.states, queue
    ensures registry.Valid() && IsRetryChain(cfg, cl, stream, chain) && |chain| <= Max(0, cfg.retry.maxAttempts)
    ensures cfg.retry.maxAttempts >= 1 ==>
      var refusal := Refusal(|old(queue.items)| < queue.maxSize, wait);
      && (refusal.None? ==>
        && (chain == [] <==> cfg.fallback.enabled && !cfg.fallback.keySet && wait.target.name == cfg.fallback.name)
        && (chain != [] ==> chain[0].at == Lookup(old(registry.View()), wait.target.name)))
      && (refusal.Some? ==>
        match FallbackOr(cfg, refusal.value)
        case Calling(_, _) => chain != [] && chain[0].at == Lookup(old(registry.View()), cfg.fallback.name)
        case Finished(answer) =>
          chain == [] && reaction == (if cfg.fallback.enabled then Proxied(Done(FallbackUnavailable)) else Refusing(answer))
        case _ => false)
    ensures var accepted := |old(queue.items)| < queue.maxSize;
      && (reaction.Refusing? <==> !cfg.fallback.enabled && (!accepted || !wait.Result?))
      && (reaction == Refusing(QueueFull) <==> !cfg.fallback.enabled && !accepted)
      && (reaction == Refusing(QueueAge) <==> !cfg.fallback.enabled && accepted && wait.Cancelled?)
      && (reaction == Refusing(NoBackend) <==> !cfg.fallback.enabled && accepted && wait.ScheduleError?)
    ensures reaction.Proxied? && chain != [] && reaction.end != Done(FallbackUnavailable) ==>
      var last := chain[|chain| - 1].result;
      registry.View() == last.backends && Matches(reaction.end, last.next, last.backends)
  {
    hide IsRetryChain, Lookup, Resume, Released;
    hide BackendRegistry.Valid, BackendRegistry.View, Views;
    ghost var was := registry.View();
    var pending, refusal := Admit(cfg, registry, queue, cl, arrived, wait);
    var target := if refusal.Some? then FallbackTarget(cfg) else Some(pending.future.target);
    if target.None? {
      EmptyChain(cfg, cl, stream);
      return Refusing(refusal.value), [];
    }
    var end: Ending;
    end, chain := ProxyChatCompletion(cfg, registry, cl, stream, target.value, script);
    reaction := Proxied(end);
    if chain != [] {
      LookupByNames(was, chain[0].before, target.value.name);
    }
  }
}
