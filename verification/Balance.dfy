/** On identical idle backends the argmin over scores is exact round robin. */
module Balance {
  import opened Types
  import opened BackendState
  import opened Health
  import opened Registry
  import opened Scoring
  import opened Dispatcher

  /** What `k` dispatches of one class, all inside the hot window, make of an idle closed backend. */
  predicate Loaded(b: Backend, idle: Backend, k: nat, cl: RequestClass, from: real, to: real) {
    && b == idle.(name := b.name, inflight := k, largeInflight := if cl.IsLarge() then k else 0,
                  dispatchTimes := b.dispatchTimes)
    && |b.dispatchTimes| == Min(WINDOW_CAPACITY, k)
    && forall i :: 0 <= i < |b.dispatchTimes| ==> from <= b.dispatchTimes[i] <= to
  }

  predicate Idle(b: Backend, cfg: GatewayConfig) {
    b.circuit.Closed? && b.openedAt.None? && !b.drained && b.errorRate <= cfg.health.maxErrorRate && b.hardLimit >= 0
  }

  /** How many of `n` requests, dealt out in turn, the backend at position `i` of `m` has got. */
  function Quota(n: nat, m: nat, i: nat): nat
    requires m > 0
  {
    n / m + (if i < n % m then 1 else 0)
  }

  /** The registry after `n` requests dealt out in turn. */
  predicate DealtOut(bs: seq<Backend>, idle: Backend, n: nat, cl: RequestClass, from: real, to: real) {
    bs != [] && forall i :: 0 <= i < |bs| ==> Loaded(bs[i], idle, Quota(n, |bs|, i), cl, from, to)
  }

  lemma NextQuota(n: nat, m: nat)
    requires m > 0
    ensures forall i: nat :: i < m ==> Quota(n + 1, m, i) == Quota(n, m, i) + (if i == n % m then 1 else 0)
  {
    var q, r := n / m, n % m;
    assert n == q * m + r;
    if r + 1 < m {
      DivisionIs(n + 1, m, q, r + 1);
    } else {
      assert n + 1 == (q + 1) * m;
      DivisionIs(n + 1, m, q + 1, 0);
    }
  }

  lemma DivisionIs(n: nat, m: nat, q: nat, r: nat)
    requires m > 0 && n == q * m + r && r < m
    ensures n / m == q && n % m == r
  {
    var q', r' := n / m, n % m;
    assert n == q' * m + r';
    if q' < q {
      assert m * (q' + 1) == m * q' + m;
      ProductMonotone(m, q' + 1, q);
    } else if q' > q {
      assert m * (q + 1) == m * q + m;
      ProductMonotone(m, q + 1, q');
    }
  }

  lemma QuotaBelow(n: nat, m: nat, limit: nat)
    requires m > 0 && n < m * limit
    ensures n / m < limit
  {
    var q := n / m;
    assert n == q * m + n % m;
    if q >= limit {
      ProductMonotone(m, limit, q);
    }
  }

  // ---------- scores of loaded backends ----------

  lemma {:induction false} AllRecent(times: seq<real>, cutoff: real)
    requires forall i :: 0 <= i < |times| ==> times[i] >= cutoff
    ensures Recent(times, cutoff) == |times|
  {
    if times != [] {
      AllRecent(times[..|times| - 1], cutoff);
    }
  }

  /** With one class of requests, a positive load weight and all dispatches recent, more load is a higher score. */
  lemma MoreLoadScoresHigher(b: Backend, b': Backend, idle: Backend, k: nat, k': nat, r: RoutingConfig,
                             cl: RequestClass, total: nat, from: real, now: real)
    requires SaneRouting(r) && r.inflightWeight > 0.0 && now - r.hotWindowSec <= from
    requires Loaded(b, idle, k, cl, from, now) && Loaded(b', idle, k', cl, from, now)
    ensures k == k' ==> Score(b, r, cl, total, now) == Score(b', r, cl, total, now)
    ensures k < k' ==> Score(b, r, cl, total, now) < Score(b', r, cl, total, now)
  {
    hide HotPenalty, Recent, Score, Load, OverloadPenalty;
    var d, d' := DispatchesInWindow(b, r.hotWindowSec, now), DispatchesInWindow(b', r.hotWindowSec, now);
    AllRecent(b.dispatchTimes, now - r.hotWindowSec);
    AllRecent(b'.dispatchTimes, now - r.hotWindowSec);
    if k < k' {
      FewerIsCooler(d, d', total, r);
      LoadRises(b, b', idle, r);
      RoomierIsLighter(b, b', r);
      LoadDecides(b, b', r, cl, total, now);
    } else if k == k' {
      SameLoadSameScore(b, b', r, cl, total, now);
    }
  }

  lemma SameLoadSameScore(b: Backend, b': Backend, r: RoutingConfig, cl: RequestClass, total: nat, now: real)
    requires b' == b.(name := b'.name, dispatchTimes := b'.dispatchTimes)
    requires DispatchesInWindow(b, r.hotWindowSec, now) == DispatchesInWindow(b', r.hotWindowSec, now)
    ensures Score(b, r, cl, total, now) == Score(b', r, cl, total, now)
  {
    hide HotPenalty, DispatchesInWindow;
  }

  lemma LoadRises(b: Backend, b': Backend, idle: Backend, r: RoutingConfig)
    requires r.inflightWeight > 0.0 && b.inflight < b'.inflight
    requires b.(name := "", inflight := 0, largeInflight := 0, dispatchTimes := [])
          == b'.(name := "", inflight := 0, largeInflight := 0, dispatchTimes := [])
          == idle.(name := "", inflight := 0, largeInflight := 0, dispatchTimes := [])
    ensures Load(b, r) < Load(b', r)
  {
    ProductPositive(r.inflightWeight, (b'.inflight - b.inflight) as real);
    assert r.inflightWeight * (b'.inflight - b.inflight) as real
        == r.inflightWeight * b'.inflight as real - r.inflightWeight * b.inflight as real;
    assert b.ewmaQueueMs == b'.ewmaQueueMs && b.ewmaTtftMs == b'.ewmaTtftMs
        && b.ewmaE2eMs == b'.ewmaE2eMs && b.errorRate == b'.errorRate by {
      SameMetrics(b, b');
    }
  }

  lemma SameMetrics(b: Backend, b': Backend)
    requires b.(name := "", inflight := 0, largeInflight := 0, dispatchTimes := [])
          == b'.(name := "", inflight := 0, largeInflight := 0, dispatchTimes := [])
    ensures b.ewmaQueueMs == b'.ewmaQueueMs && b.ewmaTtftMs == b'.ewmaTtftMs
         && b.ewmaE2eMs == b'.ewmaE2eMs && b.errorRate == b'.errorRate
  {
    var c, c' := b.(name := "", inflight := 0, largeInflight := 0, dispatchTimes := []),
                 b'.(name := "", inflight := 0, largeInflight := 0, dispatchTimes := []);
    assert c.ewmaQueueMs == c'.ewmaQueueMs && c.ewmaTtftMs == c'.ewmaTtftMs
        && c.ewmaE2eMs == c'.ewmaE2eMs && c.errorRate == c'.errorRate;
  }

  // ---------- one deal ----------

  lemma LoadedEligible(b: Backend, idle: Backend, k: nat, cfg: GatewayConfig, cl: RequestClass, from: real, now: real)
    requires Idle(idle, cfg) && Loaded(b, idle, k, cl, from, now)
    ensures AfterCooldownCheck(b, cfg.health, now) == b
    ensures Eligible(b, cfg.health, now) <==> k < idle.hardLimit
  {
  }

  lemma LoadedNext(b: Backend, idle: Backend, k: nat, cfg: GatewayConfig, cl: RequestClass, from: real, now: real)
    requires Idle(idle, cfg) && Loaded(b, idle, k, cl, from, now) && from <= now
    ensures Loaded(TakeSlot(b, cl, now), idle, k + 1, cl, from, now)
  {
  }

  lemma LoadedLater(b: Backend, idle: Backend, k: nat, cl: RequestClass, from: real, to: real, to': real)
    requires Loaded(b, idle, k, cl, from, to) && to <= to'
    ensures Loaded(b, idle, k, cl, from, to')
  {
  }

  /** Among dealt-out backends the candidates are those with room, and the one whose turn it is has room. */
  lemma DealtOutCandidates(cfg: GatewayConfig, bs: seq<Backend>, idle: Backend, n: nat, cl: RequestClass, from: real, now: real)
    requires Idle(idle, cfg) && DealtOut(bs, idle, n, cl, from, now) && n < |bs| * idle.hardLimit
    ensures Refreshed(bs, cfg.health, now, None) == bs
    ensures forall i: nat :: i in Candidates(bs, cfg.health, now, None) <==> i < |bs| && Quota(n, |bs|, i) < idle.hardLimit
    ensures n % |bs| in Candidates(bs, cfg.health, now, None)
  {
    hide Eligible, Loaded, CooledDown, Candidates;
    var h := cfg.health;
    CandidatesAreTheEligible(bs, h, now, None);
    QuotaBelow(n, |bs|, idle.hardLimit);
    forall i: nat | i < |bs|
      ensures AfterCooldownCheck(bs[i], h, now) == bs[i] && (Eligible(bs[i], h, now) <==> Quota(n, |bs|, i) < idle.hardLimit)
    {
      LoadedEligible(bs[i], idle, Quota(n, |bs|, i), cfg, cl, from, now);
    }
  }

  /** Among dealt-out backends the pick is the one whose turn it is. */
  lemma PickTakesTurns(cfg: GatewayConfig, bs: seq<Backend>, idle: Backend, n: nat, cl: RequestClass, from: real, now: real)
    requires SaneRouting(cfg.routing) && cfg.routing.inflightWeight > 0.0 && Idle(idle, cfg)
    requires DealtOut(bs, idle, n, cl, from, now) && n < |bs| * idle.hardLimit
    requires from <= now <= from + cfg.routing.hotWindowSec
    ensures Place(cfg, bs, cl, now, None).target == Some(n % |bs|)
  {
    hide Eligible, Score, Loaded, TakeSlot, CooledDown, Candidates, Refreshed, Pick, TotalRecent;
    var r, turn, ps := cfg.routing, n % |bs|, Candidates(bs, cfg.health, now, None);
    DealtOutCandidates(cfg, bs, idle, n, cl, from, now);
    CandidatesAreTheEligible(bs, cfg.health, now, None);
    var cs := Select(bs, ps);
    var p, total := Pick(cs, r, cl, now), TotalRecent(cs, r, now);
    var t :| 0 <= t < |ps| && ps[t] == turn;
    var i := ps[p];
    assert i in ps;
    assert i < turn ==> Quota(n, |bs|, turn) < Quota(n, |bs|, i);
    assert i > turn ==> t < p && Quota(n, |bs|, turn) == Quota(n, |bs|, i);
    MoreLoadScoresHigher(bs[turn], bs[i], idle, Quota(n, |bs|, turn), Quota(n, |bs|, i), r, cl, total, from, now);
    PickIsEarliestMinimum(cs, r, cl, now);
    assert Score(cs[p], r, cl, total, now) <= Score(cs[t], r, cl, total, now);
  }

  /** One more placement deals out one more request. */
  lemma DealOne(cfg: GatewayConfig, bs: seq<Backend>, idle: Backend, n: nat, cl: RequestClass, from: real, now: real)
    requires SaneRouting(cfg.routing) && cfg.routing.inflightWeight > 0.0 && Idle(idle, cfg)
    requires DealtOut(bs, idle, n, cl, from, now) && n < |bs| * idle.hardLimit
    requires from <= now <= from + cfg.routing.hotWindowSec
    ensures var pl := Place(cfg, bs, cl, now, None);
      pl.target == Some(n % |bs|) && DealtOut(pl.backends, idle, n + 1, cl, from, now)
  {
    hide Eligible, Place, Loaded, TakeSlot, CooledDown, Quota;
    PickTakesTurns(cfg, bs, idle, n, cl, from, now);
    PlaceTakesOneEligibleSlot(cfg, bs, cl, now, None);
    NextQuota(n, |bs|);
    var pl := Place(cfg, bs, cl, now, None);
    forall i | 0 <= i < |bs|
      ensures Loaded(pl.backends[i], idle, Quota(n + 1, |bs|, i), cl, from, now)
    {
      LoadedEligible(bs[i], idle, Quota(n, |bs|, i), cfg, cl, from, now);
      LoadedNext(bs[i], idle, Quota(n, |bs|, i), cfg, cl, from, now);
    }
  }

  // ---------- any number of deals ----------

  /** The registry after one placement at each of the given times. */
  function Deal(cfg: GatewayConfig, bs: seq<Backend>, cl: RequestClass, times: seq<real>): (r: seq<Backend>)
    ensures |r| == |bs|
  {
    if times == [] then bs
    else Place(cfg, Deal(cfg, bs, cl, times[..|times| - 1]), cl, times[|times| - 1], None).backends
  }

  lemma {:induction false} DealDealsOut(cfg: GatewayConfig, bs: seq<Backend>, idle: Backend, cl: RequestClass, times: seq<real>, from: real)
    requires SaneRouting(cfg.routing) && cfg.routing.inflightWeight > 0.0 && Idle(idle, cfg)
    requires DealtOut(bs, idle, 0, cl, from, from) && |times| <= |bs| * idle.hardLimit
    requires Nondecreasing(times) && forall k :: 0 <= k < |times| ==> from <= times[k] <= from + cfg.routing.hotWindowSec
    ensures DealtOut(Deal(cfg, bs, cl, times), idle, |times|, cl, from, if times == [] then from else times[|times| - 1])
  {
    hide Loaded, Place, Quota;
    if times != [] {
      var n := |times| - 1;
      var before, now := times[..n], times[n];
      DealDealsOut(cfg, bs, idle, cl, before, from);
      var bs1 := Deal(cfg, bs, cl, before);
      forall i | 0 <= i < |bs1|
        ensures Loaded(bs1[i], idle, Quota(n, |bs1|, i), cl, from, now)
      {
        LoadedLater(bs1[i], idle, Quota(n, |bs1|, i), cl, from, if before == [] then from else before[n - 1], now);
      }
      DealOne(cfg, bs1, idle, n, cl, from, now);
    }
  }

  /**
   * Requests of one class dispatched to identical idle backends, with none completing and all inside the
   * hot window, go round in registry order: after `n` of them backend `i` holds `n / m`, plus one when
   * `i < n % m`, so no two backends ever differ by more than one, until all stand at the hard limit.
   */
  lemma RoundRobin(cfg: GatewayConfig, bs: seq<Backend>, idle: Backend, cl: RequestClass, times: seq<real>, from: real)
    requires SaneRouting(cfg.routing) && cfg.routing.inflightWeight > 0.0 && Idle(idle, cfg)
    requires bs != [] && idle.inflight == idle.largeInflight == 0 && idle.dispatchTimes == []
    requires forall i :: 0 <= i < |bs| ==> bs[i] == idle.(name := bs[i].name)
    requires |times| <= |bs| * idle.hardLimit
    requires Nondecreasing(times) && forall k :: 0 <= k < |times| ==> from <= times[k] <= from + cfg.routing.hotWindowSec
    ensures var end, n, m := Deal(cfg, bs, cl, times), |times|, |bs|;
      && (forall i :: 0 <= i < m ==> end[i].inflight == n / m + (if i < n % m then 1 else 0))
      && (forall i, j :: 0 <= i < m && 0 <= j < m ==> end[i].inflight <= end[j].inflight + 1)
  {
    hide Place;
    assert forall i :: 0 <= i < |bs| ==> Quota(0, |bs|, i) == 0;
    DealDealsOut(cfg, bs, idle, cl, times, from);
  }
}
