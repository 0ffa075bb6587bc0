/** What every run of the retry loop does, however the registry changes between its turns. */
module Retries {
  import opened Types
  import opened BackendState
  import opened Health
  import opened Registry
  import opened Dispatcher
  import opened Proxy

  /** The registry at the moment a turn has given its slot back and looks for another backend. */
  function BetweenSlots(cfg: GatewayConfig, cl: RequestClass, stream: bool, a: Attempt): (bs: seq<Backend>)
    ensures |bs| == |a.before|
  {
    Released(Noted(a.before, a.at, a.outcome, stream, cfg.health, a.now), a.at, cl)
  }

  /**
   * A turn that is followed by another goes on to a different backend, one that is eligible at that
   * moment, and takes exactly one slot there and none anywhere else.
   */
  lemma NextTurn(cfg: GatewayConfig, cl: RequestClass, stream: bool, chain: seq<Attempt>, k: nat)
    requires IsRetryChain(cfg, cl, stream, chain) && k + 1 < |chain|
    ensures var a, next := chain[k], chain[k + 1].at;
      var rel, after := BetweenSlots(cfg, cl, stream, a), a.result.backends;
      && next.Some? && next.value < |rel| == |after| && next != a.at
      && Eligible(rel[next.value], cfg.health, a.now)
      && (forall j :: 0 <= j < |rel| ==>
        after[j].inflight == rel[j].inflight + (if next == Some(j) then 1 else 0))
      && k + 1 < cfg.retry.maxAttempts
      && (match a.outcome
          case Headers(code, _) => !stream && code >= 400 && (code >= 500 || code in cfg.retry.retryableStatuses)
          case Transport => !stream
          case BodyTransport => true)
  {
    hide Resume, Place, Noted, Released, Eligible, CooledDown;
    var a := chain[k];
    assert a.result == Resume(cfg, a.before, a.at, cl, stream, k + 1, a.outcome, a.now);
    assert a.result.next.Retry? && chain[k + 1].at == Some(a.result.next.target);
    ResumeCases(cfg, a.before, a.at, cl, stream, k + 1, a.outcome, a.now);
    ResumeEnds(cfg, a.before, a.at, cl, stream, k + 1, a.outcome, a.now);
    var rel := BetweenSlots(cfg, cl, stream, a);
    PlaceTakesOneEligibleSlot(cfg, rel, cl, a.now, Avoid(a.before, a.at));
    if a.at.Some? && a.at.value < |a.before| {
      OthersUntouched(a.before, a.at, a.outcome, cl, stream, cfg.health, a.now, a.at.value);
    } else {
      assert a.at.Some? ==> a.at.value >= |a.before|;
    }
  }

  /** What a retry goes on to is the cheapest eligible backend other than the one that failed, as they stood before. */
  lemma RetryIsCheapest(cfg: GatewayConfig, bs: seq<Backend>, at: Option<nat>, cl: RequestClass, stream: bool,
                        attempts: nat, o: Outcome, now: real, p: nat)
    requires DistinctNames(bs) && (at.Some? ==> at.value < |bs|)
    requires Resume(cfg, bs, at, cl, stream, attempts, o, now).next == Retry(p)
    ensures at != Some(p) && Cheapest(cfg, bs, cl, now, Avoid(bs, at), p)
  {
    hide Resume, Place, Noted, Released, Cheapest, Eligible, WantsRetry;
    ResumeCases(cfg, bs, at, cl, stream, attempts, o, now);
    var rel := Released(Noted(bs, at, o, stream, cfg.health, now), at, cl);
    PlaceIsCheapest(cfg, rel, cl, now, Avoid(bs, at), p);
    PlaceTakesOneEligibleSlot(cfg, rel, cl, now, Avoid(bs, at));
    forall j | 0 <= j < |bs|
      ensures rel[j].name == bs[j].name && (at != Some(j) ==> rel[j] == bs[j])
    {
      OthersUntouched(bs, at, o, cl, stream, cfg.health, now, j);
    }
    CheapestElsewhere(cfg, bs, rel, cl, now, Avoid(bs, at), p);
  }

  /** No chain is longer than the number of attempts allowed, or than one when none is. */
  lemma ChainLength(cfg: GatewayConfig, cl: RequestClass, stream: bool, chain: seq<Attempt>)
    requires IsRetryChain(cfg, cl, stream, chain)
    ensures |chain| <= Max(1, cfg.retry.maxAttempts)
  {
    hide Resume, Place;
    if |chain| > 1 {
      NextTurn(cfg, cl, stream, chain, |chain| - 2);
    }
  }

  /** A stream is called a second time only after a timeout while the body of an error answer was read. */
  lemma StreamsRetryOnlyOnBodyTimeouts(cfg: GatewayConfig, cl: RequestClass, chain: seq<Attempt>, k: nat)
    requires IsRetryChain(cfg, cl, true, chain) && k + 1 < |chain|
    ensures chain[k].outcome.BodyTransport?
  {
    hide Resume, Place;
    NextTurn(cfg, cl, true, chain, k);
  }

  /** The last turn answers with what the upstream said, or with a 504 when it could not be reached. */
  lemma LastTurn(cfg: GatewayConfig, cl: RequestClass, stream: bool, chain: seq<Attempt>)
    requires IsRetryChain(cfg, cl, stream, chain) && chain != []
    requires |chain| >= cfg.retry.maxAttempts
    ensures var a := chain[|chain| - 1];
      && !a.result.next.Retry?
      && (a.result.next.Answer? ==> a.result.next.reply == if a.outcome.Headers? then Relayed(a.outcome.code) else Unreachable)
  {
    hide Resume;
    var a := chain[|chain| - 1];
    assert a.result == Resume(cfg, a.before, a.at, cl, stream, |chain|, a.outcome, a.now);
    ResumeEnds(cfg, a.before, a.at, cl, stream, |chain|, a.outcome, a.now);
  }
}
