/** One scheduling pass: expire, assign or put back each request of a batch. */
module Dispatcher {
  import opened Types
  import opened BackendState
  import opened Health
  import opened Registry
  import opened Scoring
  import opened Admission

  datatype Verdict = Skipped | Expired | Dispatched(target: nat) | Requeued

  /** The registry after an attempt to take a slot, and where the slot was taken. */
  datatype Placement = Placement(backends: seq<Backend>, target: Option<nat>)

  function Select(bs: seq<Backend>, ps: seq<nat>): (cs: seq<Backend>)
    requires forall k :: 0 <= k < |ps| ==> ps[k] < |bs|
    ensures |cs| == |ps| && forall k :: 0 <= k < |ps| ==> cs[k] == bs[ps[k]]
  {
    seq(|ps|, k requires 0 <= k < |ps| && ps[k] < |bs| => bs[ps[k]])
  }

  /** Screen, pick, take a slot: the part the dispatcher and the retry picker share. */
  function Place(cfg: GatewayConfig, bs: seq<Backend>, cl: RequestClass, now: real, avoid: Option<string>): (pl: Placement)
    ensures |pl.backends| == |bs|
    ensures pl.target.Some? ==> pl.target.value < |bs|
  {
    var rs := Refreshed(bs, cfg.health, now, avoid);
    var ps := Candidates(bs, cfg.health, now, avoid);
    if ps == [] then Placement(rs, None)
    else
      var p := ps[Pick(Select(rs, ps), cfg.routing, cl, now)];
      Placement(rs[p := TakeSlot(rs[p], cl, now)], Some(p))
  }

  predicate TooOld(cfg: GatewayConfig, t: Ticket, now: real) {
    now - t.arrived >= cfg.scheduler.queueMaxAgeMs as real / 1000.0
  }

  /** Neither resolved nor too old when the pass reaches it. */
  predicate Live(cfg: GatewayConfig, t: Ticket, now: real) {
    !t.done && !TooOld(cfg, t, now)
  }

  /** The body of the loop over the batch. */
  function AssignOne(cfg: GatewayConfig, bs: seq<Backend>, t: Ticket, now: real): (res: (seq<Backend>, Verdict))
    ensures |res.0| == |bs|
    ensures res.1.Dispatched? ==> res.1.target < |bs|
  {
    if t.done then (bs, Skipped)
    else if TooOld(cfg, t, now) then (bs, Expired)
    else
      var pl := Place(cfg, bs, t.cl, now, None);
      (pl.backends, if pl.target.Some? then Dispatched(pl.target.value) else Requeued)
  }

  function Pass(cfg: GatewayConfig, bs: seq<Backend>, ts: seq<Ticket>, now: real): (res: (seq<Backend>, seq<Verdict>))
    ensures |res.0| == |bs| && |res.1| == |ts|
    ensures forall i :: 0 <= i < |ts| && res.1[i].Dispatched? ==> res.1[i].target < |bs|
    decreases |ts|
  {
    if ts == [] then (bs, [])
    else
      var (bs1, v) := AssignOne(cfg, bs, ts[0], now);
      var (bs2, vs) := Pass(cfg, bs1, ts[1..], now);
      (bs2, [v] + vs)
  }

  // ---------- what a placement does ----------

  /** A slot is taken exactly when some screened backend is eligible; it is an eligible one, and only it gains. */
  lemma PlaceTakesOneEligibleSlot(cfg: GatewayConfig, bs: seq<Backend>, cl: RequestClass, now: real, avoid: Option<string>)
    ensures var pl, rs := Place(cfg, bs, cl, now, avoid), Refreshed(bs, cfg.health, now, avoid);
      && (pl.target.None? ==>
        pl.backends == rs
        && forall i :: 0 <= i < |bs| ==> !(Screened(bs[i], avoid) && Eligible(bs[i], cfg.health, now)))
      && (pl.target.Some? ==>
        var p := pl.target.value;
        && Screened(bs[p], avoid) && Eligible(bs[p], cfg.health, now)
        && pl.backends == rs[p := TakeSlot(rs[p], cl, now)])
  {
    hide TakeSlot;
    hide Eligible;
    var ps := Candidates(bs, cfg.health, now, avoid);
    CandidatesAreTheEligible(bs, cfg.health, now, avoid);
    if ps != [] {
      var k := Pick(Select(Refreshed(bs, cfg.health, now, avoid), ps), cfg.routing, cl, now);
      assert ps[k] in ps;
    } else {
      assert forall i: nat :: i !in ps;
    }
  }

  // ---------- the placement is the cheapest ----------

  /** The recent dispatches of the eligible backends, and of no others. */
  function EligibleRecent(cfg: GatewayConfig, bs: seq<Backend>, now: real, avoid: Option<string>): nat {
    if bs == [] then 0
    else
      var n := |bs| - 1;
      EligibleRecent(cfg, bs[..n], now, avoid)
      + (if Screened(bs[n], avoid) && Eligible(bs[n], cfg.health, now)
         then DispatchesInWindow(bs[n], cfg.routing.hotWindowSec, now) else 0)
  }

  /**
   * Backend `p` is eligible, no eligible backend scores lower, and none before it in the registry scores as
   * low; hot shares are taken of the recent dispatches of the eligible backends.
   */
  ghost predicate Cheapest(cfg: GatewayConfig, bs: seq<Backend>, cl: RequestClass, now: real, avoid: Option<string>, p: nat) {
    p < |bs| && Screened(bs[p], avoid) && Eligible(bs[p], cfg.health, now) &&
    var total := EligibleRecent(cfg, bs, now, avoid);
    forall i :: 0 <= i < |bs| && Screened(bs[i], avoid) && Eligible(bs[i], cfg.health, now) ==>
      && Score(bs[p], cfg.routing, cl, total, now) <= Score(bs[i], cfg.routing, cl, total, now)
      && (i < p ==> Score(bs[p], cfg.routing, cl, total, now) < Score(bs[i], cfg.routing, cl, total, now))
  }

  lemma {:induction false} TotalOfCandidates(cfg: GatewayConfig, bs: seq<Backend>, rs: seq<Backend>, now: real, avoid: Option<string>, n: nat)
    requires n <= |bs| == |rs| && forall i :: 0 <= i < |bs| ==> rs[i].dispatchTimes == bs[i].dispatchTimes
    ensures TotalRecent(Select(rs, Candidates(bs[..n], cfg.health, now, avoid)), cfg.routing, now)
            == EligibleRecent(cfg, bs[..n], now, avoid)
  {
    hide Eligible, Screened, Recent;
    if n > 0 {
      var front := bs[..n - 1];
      assert bs[..n][..n - 1] == front;
      TotalOfCandidates(cfg, bs, rs, now, avoid, n - 1);
      var ps, all := Candidates(front, cfg.health, now, avoid), Candidates(bs[..n], cfg.health, now, avoid);
      if Screened(bs[n - 1], avoid) && Eligible(bs[n - 1], cfg.health, now) {
        assert Select(rs, all)[..|ps|] == Select(rs, ps);
      } else {
        assert all == ps;
      }
    }
  }

  lemma ScoreOfScreened(b: Backend, h: HealthConfig, avoid: Option<string>, r: RoutingConfig, cl: RequestClass, total: nat, now: real)
    ensures Score(AfterScreen(b, h, now, avoid), r, cl, total, now) == Score(b, r, cl, total, now)
  {
    hide HotPenalty, ClassPenalty, Recent;
  }

  /** A placement takes the slot of the cheapest eligible backend, whichever that is; there is only one. */
  lemma PlaceIsCheapest(cfg: GatewayConfig, bs: seq<Backend>, cl: RequestClass, now: real, avoid: Option<string>, p: nat)
    ensures Place(cfg, bs, cl, now, avoid).target == Some(p) <==> Cheapest(cfg, bs, cl, now, avoid, p)
  {
    hide Place, Cheapest;
    PlaceTakesOneEligibleSlot(cfg, bs, cl, now, avoid);
    var pl := Place(cfg, bs, cl, now, avoid);
    if pl.target.Some? {
      TargetIsCheapest(cfg, bs, cl, now, avoid);
      if Cheapest(cfg, bs, cl, now, avoid, p) {
        OneCheapest(cfg, bs, cl, now, avoid, p, pl.target.value);
      }
    } else {
      NoneCheapest(cfg, bs, cl, now, avoid, p);
    }
  }

  lemma NoneCheapest(cfg: GatewayConfig, bs: seq<Backend>, cl: RequestClass, now: real, avoid: Option<string>, p: nat)
    requires forall i :: 0 <= i < |bs| ==> !(Screened(bs[i], avoid) && Eligible(bs[i], cfg.health, now))
    ensures !Cheapest(cfg, bs, cl, now, avoid, p)
  {
  }

  lemma OneCheapest(cfg: GatewayConfig, bs: seq<Backend>, cl: RequestClass, now: real, avoid: Option<string>, p: nat, q: nat)
    requires Cheapest(cfg, bs, cl, now, avoid, p) && Cheapest(cfg, bs, cl, now, avoid, q)
    ensures p == q
  {
    hide Score, Eligible, Screened, EligibleRecent;
  }

  /** The candidate picked, against any eligible backend. */
  lemma TargetAgainst(cfg: GatewayConfig, bs: seq<Backend>, cl: RequestClass, now: real, avoid: Option<string>, p: nat, i: nat)
    requires Place(cfg, bs, cl, now, avoid).target == Some(p) && p < |bs|
    requires i < |bs| && Screened(bs[i], avoid) && Eligible(bs[i], cfg.health, now)
    ensures var total := EligibleRecent(cfg, bs, now, avoid);
      && Score(bs[p], cfg.routing, cl, total, now) <= Score(bs[i], cfg.routing, cl, total, now)
      && (i < p ==> Score(bs[p], cfg.routing, cl, total, now) < Score(bs[i], cfg.routing, cl, total, now))
  {
    hide Eligible, Screened, Score, Candidates, TakeSlot, EligibleRecent, TotalRecent, Pick, AfterScreen;
    var h, r := cfg.health, cfg.routing;
    var rs, ps := Refreshed(bs, h, now, avoid), Candidates(bs, h, now, avoid);
    var cs := Select(rs, ps);
    var k, total := Pick(cs, r, cl, now), EligibleRecent(cfg, bs, now, avoid);
    CandidatesAreTheEligible(bs, h, now, avoid);
    CandidateTotal(cfg, bs, now, avoid);
    PickIsEarliestMinimum(cs, r, cl, now);
    assert i in ps;
    var q: nat :| q < |ps| && ps[q] == i;
    ScoreOfScreened(bs[p], h, avoid, r, cl, total, now);
    ScoreOfScreened(bs[i], h, avoid, r, cl, total, now);
    assert cs[k] == rs[p] && cs[q] == rs[i];
    assert Score(cs[k], r, cl, total, now) <= Score(cs[q], r, cl, total, now);
    assert i < p ==> q < k;
  }

  lemma CandidateTotal(cfg: GatewayConfig, bs: seq<Backend>, now: real, avoid: Option<string>)
    ensures TotalRecent(Select(Refreshed(bs, cfg.health, now, avoid), Candidates(bs, cfg.health, now, avoid)), cfg.routing, now)
            == EligibleRecent(cfg, bs, now, avoid)
  {
    hide Eligible, Screened, Candidates, EligibleRecent, TotalRecent, CooledDown;
    TotalOfCandidates(cfg, bs, Refreshed(bs, cfg.health, now, avoid), now, avoid, |bs|);
    assert bs[..|bs|] == bs;
  }

  lemma TargetIsCheapest(cfg: GatewayConfig, bs: seq<Backend>, cl: RequestClass, now: real, avoid: Option<string>)
    requires Place(cfg, bs, cl, now, avoid).target.Some?
    ensures Cheapest(cfg, bs, cl, now, avoid, Place(cfg, bs, cl, now, avoid).target.value)
  {
    hide Eligible, Screened, Score, EligibleRecent, Place;
    PlaceTakesOneEligibleSlot(cfg, bs, cl, now, avoid);
    var p, total := Place(cfg, bs, cl, now, avoid).target.value, EligibleRecent(cfg, bs, now, avoid);
    forall i | 0 <= i < |bs| && Screened(bs[i], avoid) && Eligible(bs[i], cfg.health, now)
      ensures Score(bs[p], cfg.routing, cl, total, now) <= Score(bs[i], cfg.routing, cl, total, now)
      ensures i < p ==> Score(bs[p], cfg.routing, cl, total, now) < Score(bs[i], cfg.routing, cl, total, now)
    {
      TargetAgainst(cfg, bs, cl, now, avoid, p, i);
    }
  }

  /** The backend to avoid has no part in who is cheapest. */
  lemma CheapestElsewhere(cfg: GatewayConfig, bs: seq<Backend>, bs': seq<Backend>, cl: RequestClass, now: real, avoid: Option<string>, p: nat)
    requires |bs| == |bs'|
    requires forall i :: 0 <= i < |bs| ==> bs'[i] == bs[i] || (!Screened(bs[i], avoid) && !Screened(bs'[i], avoid))
    ensures Cheapest(cfg, bs, cl, now, avoid, p) <==> Cheapest(cfg, bs', cl, now, avoid, p)
  {
    hide Score, Eligible, Screened, EligibleRecent;
    RecentElsewhere(cfg, bs, bs', now, avoid);
  }

  lemma {:induction false} RecentElsewhere(cfg: GatewayConfig, bs: seq<Backend>, bs': seq<Backend>, now: real, avoid: Option<string>)
    requires |bs| == |bs'|
    requires forall i :: 0 <= i < |bs| ==> bs'[i] == bs[i] || (!Screened(bs[i], avoid) && !Screened(bs'[i], avoid))
    ensures EligibleRecent(cfg, bs, now, avoid) == EligibleRecent(cfg, bs', now, avoid)
  {
    hide Eligible, Screened, DispatchesInWindow;
    if bs != [] {
      RecentElsewhere(cfg, bs[..|bs| - 1], bs'[..|bs| - 1], now, avoid);
    }
  }

  // ---------- work conservation ----------

  /** Slots a backend can still give at this instant: below the hard limit, and within the probe budget when half-open. */
  function Capacity(b: Backend, h: HealthConfig, now: real): (c: nat)
    ensures c > 0 <==> Eligible(b, h, now)
  {
    var s := AfterCooldownCheck(b, h, now);
    if !Admits(s, h) then 0
    else if s.circuit.HalfOpen? then Min(s.hardLimit - s.inflight, h.halfOpenMaxInflight - s.probes)
    else s.hardLimit - s.inflight
  }

  function FreeCapacity(bs: seq<Backend>, h: HealthConfig, now: real): nat {
    if bs == [] then 0 else FreeCapacity(bs[..|bs| - 1], h, now) + Capacity(bs[|bs| - 1], h, now)
  }

  lemma {:induction false} FreeCapacityAfter(bs: seq<Backend>, bs': seq<Backend>, h: HealthConfig, now: real, p: Option<nat>)
    requires |bs| == |bs'|
    requires forall i :: 0 <= i < |bs| && p != Some(i) ==> Capacity(bs'[i], h, now) == Capacity(bs[i], h, now)
    requires p.Some? && p.value < |bs| ==> Capacity(bs'[p.value], h, now) == Capacity(bs[p.value], h, now) - 1
    ensures FreeCapacity(bs', h, now)
            == FreeCapacity(bs, h, now) - (if p.Some? && p.value < |bs| then 1 else 0)
  {
    hide Capacity;
    if bs != [] {
      FreeCapacityAfter(bs[..|bs| - 1], bs'[..|bs| - 1], h, now, p);
    }
  }

  lemma {:induction false} NoFreeCapacity(bs: seq<Backend>, h: HealthConfig, now: real)
    ensures FreeCapacity(bs, h, now) == 0 <==> forall i :: 0 <= i < |bs| ==> !Eligible(bs[i], h, now)
  {
    hide Eligible;
    if bs != [] {
      var front := bs[..|bs| - 1];
      NoFreeCapacity(front, h, now);
      assert forall i :: 0 <= i < |front| ==> front[i] == bs[i];
    }
  }

  lemma TakeSlotUsesOne(b: Backend, h: HealthConfig, cl: RequestClass, now: real)
    requires Eligible(b, h, now)
    ensures Capacity(TakeSlot(AfterCooldownCheck(b, h, now), cl, now), h, now) == Capacity(b, h, now) - 1
  {
  }

  lemma CapacityOfChecked(b: Backend, h: HealthConfig, now: real)
    ensures Capacity(AfterCooldownCheck(b, h, now), h, now) == Capacity(b, h, now)
  {
  }

  /** A placement spends one unit of free capacity when there is any, whatever the scores say. */
  lemma PlaceSpendsOne(cfg: GatewayConfig, bs: seq<Backend>, cl: RequestClass, now: real)
    ensures var pl := Place(cfg, bs, cl, now, None);
      && (pl.target.Some? <==> FreeCapacity(bs, cfg.health, now) > 0)
      && FreeCapacity(pl.backends, cfg.health, now)
         == FreeCapacity(bs, cfg.health, now) - (if pl.target.Some? then 1 else 0)
  {
    hide Place, Capacity, TakeSlot, FreeCapacity, CooledDown, Eligible;
    var h := cfg.health;
    var pl, rs := Place(cfg, bs, cl, now, None), Refreshed(bs, h, now, None);
    PlaceTakesOneEligibleSlot(cfg, bs, cl, now, None);
    NoFreeCapacity(bs, h, now);
    forall i | 0 <= i < |bs|
      ensures Capacity(rs[i], h, now) == Capacity(bs[i], h, now)
    {
      CapacityOfChecked(bs[i], h, now);
    }
    if pl.target.Some? {
      TakeSlotUsesOne(bs[pl.target.value], h, cl, now);
    }
    FreeCapacityAfter(bs, pl.backends, h, now, pl.target);
  }

  function CountLive(cfg: GatewayConfig, ts: seq<Ticket>, now: real): nat {
    if ts == [] then 0 else (if Live(cfg, ts[0], now) then 1 else 0) + CountLive(cfg, ts[1..], now)
  }

  function CountDispatched(vs: seq<Verdict>): nat {
    if vs == [] then 0 else (if vs[0].Dispatched? then 1 else 0) + CountDispatched(vs[1..])
  }

  /** A pass dispatches exactly as many live requests as there are, or as many as there is room for. */
  lemma {:induction false} PassIsWorkConserving(cfg: GatewayConfig, bs: seq<Backend>, ts: seq<Ticket>, now: real)
    ensures var (bs', vs) := Pass(cfg, bs, ts, now);
      && CountDispatched(vs) == Min(CountLive(cfg, ts, now), FreeCapacity(bs, cfg.health, now))
      && FreeCapacity(bs', cfg.health, now) == FreeCapacity(bs, cfg.health, now) - CountDispatched(vs)
    decreases |ts|
  {
    hide FreeCapacity;
    hide Place;
    if ts != [] {
      var (bs1, v) := AssignOne(cfg, bs, ts[0], now);
      PlaceSpendsOne(cfg, bs, ts[0].cl, now);
      PassIsWorkConserving(cfg, bs1, ts[1..], now);
      assert Pass(cfg, bs, ts, now).1[1..] == Pass(cfg, bs1, ts[1..], now).1;
    }
  }

  /**
   * The verdict on every request, in closed form: resolved ones are skipped, old ones expire, and a live
   * one is dispatched exactly when fewer live ones precede it than there are free slots.
   */
  lemma {:induction false} VerdictAt(cfg: GatewayConfig, bs: seq<Backend>, ts: seq<Ticket>, now: real, i: nat)
    requires i < |ts|
    ensures var v, late := Pass(cfg, bs, ts, now).1[i], now - ts[i].arrived >= cfg.scheduler.queueMaxAgeMs as real / 1000.0;
      && (v.Skipped? <==> ts[i].done)
      && (v.Expired? <==> !ts[i].done && late)
      && (v.Dispatched? <==> !ts[i].done && !late && CountLive(cfg, ts[..i], now) < FreeCapacity(bs, cfg.health, now))
      && (v.Requeued? <==> !ts[i].done && !late && CountLive(cfg, ts[..i], now) >= FreeCapacity(bs, cfg.health, now))
    decreases i
  {
    hide FreeCapacity;
    hide Place;
    PlaceSpendsOne(cfg, bs, ts[0].cl, now);
    if i > 0 {
      var (bs1, v) := AssignOne(cfg, bs, ts[0], now);
      VerdictAt(cfg, bs1, ts[1..], now, i - 1);
      assert ts[1..][..i - 1] == ts[..i][1..];
    }
  }

  /** Each request dispatched goes to the backend that is cheapest when its turn comes. */
  lemma {:induction false} VerdictIsCheapest(cfg: GatewayConfig, bs: seq<Backend>, ts: seq<Ticket>, now: real, i: nat)
    requires i < |ts|
    ensures var v := Pass(cfg, bs, ts, now).1[i];
      v.Dispatched? ==> Cheapest(cfg, Pass(cfg, bs, ts[..i], now).0, ts[i].cl, now, None, v.target)
    decreases i
  {
    hide Place, TooOld, Cheapest;
    if i == 0 {
      var pl := Place(cfg, bs, ts[0].cl, now, None);
      if pl.target.Some? {
        PlaceIsCheapest(cfg, bs, ts[0].cl, now, None, pl.target.value);
      }
      assert ts[..0] == [];
    } else {
      var (bs1, v) := AssignOne(cfg, bs, ts[0], now);
      VerdictIsCheapest(cfg, bs1, ts[1..], now, i - 1);
      assert ts[..i][0] == ts[0] && ts[..i][1..] == ts[1..][..i - 1];
    }
  }

  // ---------- the three blocks ----------

  function Rank(v: Verdict): nat {
    match v
    case Skipped => 0
    case Expired => 0
    case Dispatched(_) => 1
    case Requeued => 2
  }

  lemma {:induction false} CountLiveMonotone(cfg: GatewayConfig, ts: seq<Ticket>, now: real, i: nat, j: nat)
    requires i <= j <= |ts|
    ensures CountLive(cfg, ts[..i], now) <= CountLive(cfg, ts[..j], now)
  {
    if i > 0 {
      assert ts[..i][1..] == ts[1..][..i - 1] && ts[..j][1..] == ts[1..][..j - 1];
      CountLiveMonotone(cfg, ts[1..], now, i - 1, j - 1);
    }
  }

  /**
   * With arrivals in queue order, the unresolved requests of a batch fall into three blocks in this
   * order: expired, dispatched, put back.
   */
  lemma BatchSplitsInThree(cfg: GatewayConfig, bs: seq<Backend>, ts: seq<Ticket>, now: real, i: nat, j: nat)
    requires forall a, b :: 0 <= a < b < |ts| ==> ts[a].arrived <= ts[b].arrived
    requires i < j < |ts| && !ts[i].done && !ts[j].done
    ensures var vs := Pass(cfg, bs, ts, now).1; Rank(vs[i]) <= Rank(vs[j])
  {
    VerdictAt(cfg, bs, ts, now, i);
    VerdictAt(cfg, bs, ts, now, j);
    CountLiveMonotone(cfg, ts, now, i, j);
  }

  // ---------- the scheduler's own code ----------

  /** The requests a pass puts back. */
  function Kept<T>(items: seq<T>, vs: seq<Verdict>): seq<T>
    requires |items| == |vs|
  {
    if items == [] then []
    else
      var n := |items| - 1;
      Kept(items[..n], vs[..n]) + (if vs[n].Requeued? then [items[n]] else [])
  }

  function Settle(f: Future, v: Verdict, bs: seq<Backend>): Future
    requires v.Dispatched? ==> v.target < |bs|
  {
    match v
    case Expired => ScheduleError
    case Dispatched(p) => Result(BackendTarget(bs[p].name))
    case _ => f
  }

  ghost function Tickets(batch: seq<PendingRequest>): (ts: seq<Ticket>)
    reads batch
    ensures |ts| == |batch| && forall k :: 0 <= k < |batch| ==> ts[k] == batch[k].View()
  {
    seq(|batch|, k requires 0 <= k < |batch| reads batch => batch[k].View())
  }

  ghost function Futures(batch: seq<PendingRequest>): (fs: seq<Future>)
    reads batch
    ensures |fs| == |batch| && forall k :: 0 <= k < |batch| ==> fs[k] == batch[k].future
  {
    seq(|batch|, k requires 0 <= k < |batch| reads batch => batch[k].future)
  }

  /** What a pass makes of the futures of its batch. */
  ghost function Settled(fs: seq<Future>, vs: seq<Verdict>, bs: seq<Backend>): (r: seq<Future>)
    requires |fs| == |vs| && forall k :: 0 <= k < |vs| && vs[k].Dispatched? ==> vs[k].target < |bs|
    ensures |r| == |fs| && forall k :: 0 <= k < |fs| ==> r[k] == Settle(fs[k], vs[k], bs)
  {
    seq(|fs|, k requires 0 <= k < |fs| && (vs[k].Dispatched? ==> vs[k].target < |bs|) => Settle(fs[k], vs[k], bs))
  }

  /**
   * The futures of a batch after a pass: a request resolved before is left as it was; one that is too old has
   * failed; of the others, one dispatched holds the name of its backend, and one put back is as it was.
   */
  ghost predicate FuturesResolved(cfg: GatewayConfig, bs: seq<Backend>, ts: seq<Ticket>, fs: seq<Future>, fs': seq<Future>,
                                  vs: seq<Verdict>, now: real)
  {
    && |ts| == |fs| == |fs'| == |vs|
    && forall k :: 0 <= k < |ts| ==>
      if ts[k].done then fs'[k] == fs[k]
      else if now - ts[k].arrived >= cfg.scheduler.queueMaxAgeMs as real / 1000.0 then fs'[k] == ScheduleError
      else if vs[k].Dispatched? then vs[k].target < |bs| && fs'[k] == Result(BackendTarget(bs[vs[k].target].name))
      else vs[k].Requeued? && fs'[k] == fs[k]
  }

  lemma SettledIsResolved(cfg: GatewayConfig, bs: seq<Backend>, ts: seq<Ticket>, fs: seq<Future>, now: real)
    requires |ts| == |fs|
    ensures var vs := Pass(cfg, bs, ts, now).1;
      FuturesResolved(cfg, bs, ts, fs, Settled(fs, vs, bs), vs, now)
  {
    hide Pass, FreeCapacity;
    var vs := Pass(cfg, bs, ts, now).1;
    forall k | 0 <= k < |ts|
      ensures vs[k].Skipped? <==> ts[k].done
      ensures vs[k].Expired? <==> !ts[k].done && now - ts[k].arrived >= cfg.scheduler.queueMaxAgeMs as real / 1000.0
    {
      VerdictAt(cfg, bs, ts, now, k);
    }
  }

  /** How many futures have come to hold a name. */
  function NewlyResolved(fs: seq<Future>, fs': seq<Future>, name: string): nat
    requires |fs| == |fs'|
  {
    if fs == [] then 0
    else (if fs[0].Pending? && fs'[0] == Result(BackendTarget(name)) then 1 else 0) + NewlyResolved(fs[1..], fs'[1..], name)
  }

  /** One turn moves one slot counter, that of the backend dispatched to, if any. */
  lemma AssignOneTakes(cfg: GatewayConfig, bs: seq<Backend>, t: Ticket, now: real, p: nat)
    requires p < |bs|
    ensures var (bs', v) := AssignOne(cfg, bs, t, now);
      && bs'[p].inflight == bs[p].inflight + (if v == Dispatched(p) then 1 else 0) && bs'[p].name == bs[p].name
      && (v.Dispatched? ==> !t.done)
  {
    hide Place, CooledDown, Eligible;
    PlaceTakesOneEligibleSlot(cfg, bs, t.cl, now, None);
    SameNamesAfterOne(cfg, bs, t, now);
  }

  /** A pass resolves to the name of a backend exactly as many futures as it takes slots of it. */
  lemma {:induction false} SlotsMatchFutures(cfg: GatewayConfig, names: seq<Backend>, bs: seq<Backend>, ts: seq<Ticket>,
                                             fs: seq<Future>, now: real, p: nat)
    requires |ts| == |fs| && DistinctNames(names) && |names| == |bs| && p < |bs|
    requires forall i :: 0 <= i < |bs| ==> bs[i].name == names[i].name
    requires forall k :: 0 <= k < |ts| && !ts[k].done ==> fs[k].Pending?
    ensures var (bs', vs) := Pass(cfg, bs, ts, now);
      NewlyResolved(fs, Settled(fs, vs, names), names[p].name) == bs'[p].inflight - bs[p].inflight
    decreases |ts|
  {
    hide AssignOne;
    if ts != [] {
      var (bs1, v) := AssignOne(cfg, bs, ts[0], now);
      AssignOneTakes(cfg, bs, ts[0], now, p);
      SameNamesAfterOne(cfg, bs, ts[0], now);
      SlotsMatchFutures(cfg, names, bs1, ts[1..], fs[1..], now, p);
      var vs := Pass(cfg, bs, ts, now).1;
      assert vs[1..] == Pass(cfg, bs1, ts[1..], now).1;
      assert Settled(fs, vs, names)[1..] == Settled(fs[1..], vs[1..], names);
    }
  }

  function CountRequeued(vs: seq<Verdict>): nat {
    if vs == [] then 0 else CountRequeued(vs[..|vs| - 1]) + (if vs[|vs| - 1].Requeued? then 1 else 0)
  }

  /** What is put back: the requests with that verdict, all of them, in the order of the batch. */
  lemma {:induction false} KeptInOrder<T>(items: seq<T>, vs: seq<Verdict>)
    requires |items| == |vs|
    ensures |Kept(items, vs)| == CountRequeued(vs)
    ensures forall k :: 0 <= k < |vs| && vs[k].Requeued? ==>
      CountRequeued(vs[..k]) < |Kept(items, vs)| && Kept(items, vs)[CountRequeued(vs[..k])] == items[k]
  {
    if items != [] {
      var n := |items| - 1;
      KeptInOrder(items[..n], vs[..n]);
      forall k | 0 <= k < |vs| && vs[k].Requeued?
        ensures CountRequeued(vs[..k]) < |Kept(items, vs)| && Kept(items, vs)[CountRequeued(vs[..k])] == items[k]
      {
        if k < n {
          assert vs[..n][..k] == vs[..k] && vs[..n][k] == vs[k];
        }
      }
    }
  }

  /** Screen, pick and take a slot, in place. */
  method TakeBackend(cfg: GatewayConfig, registry: BackendRegistry, cl: RequestClass, avoid: Option<string>, now: real)
    returns (chosen: BackendRuntimeState?)
    requires registry.Valid() && registry.health == cfg.health
    modifies registry.states
    ensures registry.Valid()
    ensures var pl := Place(cfg, old(registry.View()), cl, now, avoid);
      && registry.View() == pl.backends
      && (chosen == null <==> pl.target.None?)
      && (chosen != null ==>
        chosen == registry.states[pl.target.value] && Cheapest(cfg, old(registry.View()), cl, now, avoid, pl.target.value))
  {
    hide Cheapest;
    hide Refreshed;
    hide Candidates;
    hide Pick;
    hide TakeSlot;
    ghost var was := registry.View();
    if Place(cfg, was, cl, now, avoid).target.Some? {
      PlaceIsCheapest(cfg, was, cl, now, avoid, Place(cfg, was, cl, now, avoid).target.value);
    }
    var places := registry.EligiblePlaces(avoid, now);
    var eligible := registry.StatesAt(places);
    if eligible == [] {
      return null;
    }
    ghost var rs := registry.View();
    chosen := PickBackend(eligible, cfg.routing, cl, now);
    assert Views(eligible) == Select(rs, places);
    ghost var p := places[Pick(Select(rs, places), cfg.routing, cl, now)];
    OccupyAt(registry, p, chosen, cl, now);
  }

  /** `Occupy` on the backend at position `p`: the registry's only change. */
  method OccupyAt(registry: BackendRegistry, ghost p: nat, s: BackendRuntimeState, cl: RequestClass, now: real)
    requires registry.Valid() && p < |registry.states| && s == registry.states[p]
    modifies s
    ensures registry.Valid()
    ensures registry.View() == old(registry.View())[p := TakeSlot(old(registry.View())[p], cl, now)]
  {
    hide TakeSlot;
    Occupy(s, cl, now);
  }

  /** Count the probe, the slot and the dispatch on the chosen backend. */
  method Occupy(s: BackendRuntimeState, cl: RequestClass, now: real)
    modifies s
    ensures s.View() == TakeSlot(old(s.View()), cl, now)
  {
    OnRequestStart(s);
    s.inflight := s.inflight + 1;
    if cl == LargeChat || cl == StreamingLong {
      s.largeInflight := s.largeInflight + 1;
    }
    s.RecordDispatch(now);
  }

  /** The loop body on one request: skip, reject, assign, or ask to be put back. */
  method AssignPending(cfg: GatewayConfig, registry: BackendRegistry, pending: PendingRequest, now: real)
    returns (putBack: bool, ghost v: Verdict)
    requires registry.Valid() && registry.health == cfg.health
    modifies registry.states, pending`future
    ensures registry.Valid()
    ensures (registry.View(), v) == AssignOne(cfg, old(registry.View()), old(pending.View()), now)
    ensures pending.future == Settle(old(pending.future), v, old(registry.View()))
    ensures putBack == v.Requeued?
    ensures FuturesResolved(cfg, old(registry.View()), [old(pending.View())], [old(pending.future)], [pending.future], [v], now)
    ensures v.Dispatched? ==> Cheapest(cfg, old(registry.View()), pending.cl, now, None, v.target)
  {
    hide Place, Cheapest;
    if pending.cancelled || pending.future != Pending {
      return false, Skipped;
    }
    var age := now - pending.arrived;
    if age >= cfg.scheduler.queueMaxAgeMs as real / 1000.0 {
      Reject(pending);
      return false, Expired;
    }
    ghost var was := registry.View();
    ghost var pl := Place(cfg, was, pending.cl, now, None);
    var chosen := TakeBackend(cfg, registry, pending.cl, None, now);
    if chosen == null {
      return true, Requeued;
    }
    v := Dispatched(pl.target.value);
    assert chosen.View() == registry.View()[v.target];
    SameNames(cfg, was, pending.cl, now, None);
    pending.future := Result(BackendTarget(chosen.name));
    return false, v;
  }

  method Reject(pending: PendingRequest)
    modifies pending`future
    ensures pending.future == if old(pending.future).Pending? then ScheduleError else old(pending.future)
  {
    if pending.future == Pending {
      pending.future := ScheduleError;
    }
  }

  lemma SameNames(cfg: GatewayConfig, bs: seq<Backend>, cl: RequestClass, now: real, avoid: Option<string>)
    ensures forall i :: 0 <= i < |bs| ==> Place(cfg, bs, cl, now, avoid).backends[i].name == bs[i].name
  {
    hide Candidates;
    hide Select;
    hide Pick;
    hide CooledDown;
    hide Screened;
  }

  lemma {:induction false} SameNamesAfterOne(cfg: GatewayConfig, bs: seq<Backend>, t: Ticket, now: real)
    ensures forall i :: 0 <= i < |bs| ==> AssignOne(cfg, bs, t, now).0[i].name == bs[i].name
  {
    hide Place;
    SameNames(cfg, bs, t.cl, now, None);
  }

  /**
   * One scheduling pass over the head of the queue. The new registry, the verdicts, the futures and the
   * queue are those of `Pass` on the popped batch; nothing behind the batch is touched.
   */
  method DispatchTick(cfg: GatewayConfig, registry: BackendRegistry, queue: AdmissionQueue, now: real)
    returns (ghost vs: seq<Verdict>)
    requires registry.Valid() && registry.health == cfg.health
    requires forall a, b :: 0 <= a < b < |queue.items| ==> queue.items[a] != queue.items[b]
    modifies queue, queue.items[..BatchSize(|queue.items|, cfg.scheduler.dispatchBatchSize)], registry.states
    ensures registry.Valid()
    ensures var n := BatchSize(|old(queue.items)|, cfg.scheduler.dispatchBatchSize);
      var batch := old(queue.items)[..n];
      && (registry.View(), vs) == Pass(cfg, old(registry.View()), old(Tickets(batch)), now)
      && queue.items == Kept(batch, vs) + old(queue.items)[n..]
      && Futures(batch) == Settled(old(Futures(batch)), vs, old(registry.View()))
      && FuturesResolved(cfg, old(registry.View()), old(Tickets(batch)), old(Futures(batch)), Futures(batch), vs, now)
      && forall p :: 0 <= p < |old(registry.View())| ==>
        NewlyResolved(old(Futures(batch)), Futures(batch), old(registry.View())[p].name)
        == registry.View()[p].inflight - old(registry.View())[p].inflight
  {
    hide Pass, Kept, Settle, FuturesResolved;
    var batch := queue.PopBatch(cfg.scheduler.dispatchBatchSize);
    vs := [];
    if batch == [] {
      EmptyPass<PendingRequest>(cfg, registry.View(), now);
      ValidRegistryHasDistinctNames(registry);
      BatchResolves(cfg, registry.View(), [], [], now);
      return;
    }
    var back: seq<PendingRequest>;
    back, vs := AssignBatch(cfg, registry, batch, now);
    if back != [] {
      queue.RequeueFront(back);
    }
  }

  /**
   * How far the loop over the batch has got: `vs` are the verdicts of the first `i` requests, `fs` the
   * futures now, and the rest of the pass starts from registry `bs` with the tickets from `i` on unread.
   */
  ghost predicate Progress(cfg: GatewayConfig, bs0: seq<Backend>, ts0: seq<Ticket>, fs0: seq<Future>, now: real, i: nat,
                           bs: seq<Backend>, ts: seq<Ticket>, fs: seq<Future>, vs: seq<Verdict>)
  {
    && |ts| == |ts0| == |fs| == |fs0| && i == |vs| <= |ts0| && |bs| == |bs0|
    && (forall p :: 0 <= p < |bs| ==> bs[p].name == bs0[p].name)
    && ts[i..] == ts0[i..]
    && Pass(cfg, bs0, ts0, now) == (Pass(cfg, bs, ts[i..], now).0, vs + Pass(cfg, bs, ts[i..], now).1)
    && (forall k :: 0 <= k < i ==> vs[k].Dispatched? ==> vs[k].target < |bs0|)
    && (forall k :: 0 <= k < i ==> fs[k] == Settle(fs0[k], vs[k], bs0))
    && (forall k :: i <= k < |fs| ==> fs[k] == fs0[k])
  }

  lemma ProgressNext(cfg: GatewayConfig, bs0: seq<Backend>, ts0: seq<Ticket>, fs0: seq<Future>, now: real, i: nat,
                     bs: seq<Backend>, ts: seq<Ticket>, fs: seq<Future>, vs: seq<Verdict>,
                     ts': seq<Ticket>)
    requires i < |ts0| == |ts'| && Progress(cfg, bs0, ts0, fs0, now, i, bs, ts, fs, vs)
    requires ts'[i + 1..] == ts[i + 1..]
    ensures var (bs', v) := AssignOne(cfg, bs, ts[i], now);
      Progress(cfg, bs0, ts0, fs0, now, i + 1, bs', ts', fs[i := Settle(fs[i], v, bs)], vs + [v])
  {
    hide AssignOne;
    var (bs', v) := AssignOne(cfg, bs, ts[i], now);
    SameNamesAfterOne(cfg, bs, ts[i], now);
    assert ts[i..][0] == ts[i] && ts[i..][1..] == ts'[i + 1..];
    assert ts'[i + 1..] == ts0[i..][1..];
    assert vs + ([v] + Pass(cfg, bs', ts'[i + 1..], now).1) == vs + [v] + Pass(cfg, bs', ts'[i + 1..], now).1;
  }

  lemma ProgressEnds(cfg: GatewayConfig, bs0: seq<Backend>, ts0: seq<Ticket>, fs0: seq<Future>, now: real,
                     bs: seq<Backend>, ts: seq<Ticket>, fs: seq<Future>, vs: seq<Verdict>)
    requires |ts0| == |fs0|
    ensures Progress(cfg, bs0, ts0, fs0, now, 0, bs0, ts0, fs0, [])
    ensures Progress(cfg, bs0, ts0, fs0, now, |ts0|, bs, ts, fs, vs) ==>
      (bs, vs) == Pass(cfg, bs0, ts0, now) && fs == Settled(fs0, vs, bs0)
  {
    assert ts0[0..] == ts0;
    assert [] + Pass(cfg, bs0, ts0, now).1 == Pass(cfg, bs0, ts0, now).1;
    assert vs + [] == vs;
  }

  lemma KeptNext<T>(items: seq<T>, i: nat, vs: seq<Verdict>, v: Verdict)
    requires i < |items| && |vs| == i
    ensures Kept(items[..i + 1], vs + [v]) == Kept(items[..i], vs) + (if v.Requeued? then [items[i]] else [])
  {
    assert items[..i + 1][..i] == items[..i] && (vs + [v])[..i] == vs;
  }

  /** `AssignPending` on the request at position `i`; the others of the batch are distinct objects. */
  method AssignAt(cfg: GatewayConfig, registry: BackendRegistry, batch: seq<PendingRequest>, i: nat, now: real)
    returns (putBack: bool, ghost v: Verdict)
    requires registry.Valid() && registry.health == cfg.health
    requires forall a, b :: 0 <= a < b < |batch| ==> batch[a] != batch[b]
    requires i < |batch|
    modifies registry.states, batch[i]
    ensures registry.Valid()
    ensures (registry.View(), v) == AssignOne(cfg, old(registry.View()), old(Tickets(batch))[i], now)
    ensures Futures(batch) == old(Futures(batch))[i := Settle(old(Futures(batch))[i], v, old(registry.View()))]
    ensures Tickets(batch)[i + 1..] == old(Tickets(batch))[i + 1..]
    ensures putBack == v.Requeued?
  {
    hide AssignOne;
    putBack, v := AssignPending(cfg, registry, batch[i], now);
  }

  lemma EmptyPass<T>(cfg: GatewayConfig, bs: seq<Backend>, now: real)
    ensures Pass(cfg, bs, [], now) == (bs, [])
    ensures Kept<T>([], []) == []
  {
  }

  /** The for loop over the popped batch. */
  method AssignBatch(cfg: GatewayConfig, registry: BackendRegistry, batch: seq<PendingRequest>, now: real)
    returns (back: seq<PendingRequest>, ghost vs: seq<Verdict>)
    requires registry.Valid() && registry.health == cfg.health
    requires forall a, b :: 0 <= a < b < |batch| ==> batch[a] != batch[b]
    modifies batch, registry.states
    ensures registry.Valid()
    ensures (registry.View(), vs) == Pass(cfg, old(registry.View()), old(Tickets(batch)), now)
    ensures back == Kept(batch, vs)
    ensures Futures(batch) == Settled(old(Futures(batch)), vs, old(registry.View()))
    ensures FuturesResolved(cfg, old(registry.View()), old(Tickets(batch)), old(Futures(batch)), Futures(batch), vs, now)
    ensures forall p :: 0 <= p < |old(registry.View())| ==>
      NewlyResolved(old(Futures(batch)), Futures(batch), old(registry.View())[p].name)
      == registry.View()[p].inflight - old(registry.View())[p].inflight
  {
    hide AssignOne, Pass, Progress, Kept, Settle, FuturesResolved, NewlyResolved, DistinctNames;
    hide BackendRegistry.Valid, BackendRegistry.View, Views;
    ValidRegistryHasDistinctNames(registry);
    ghost var bs0, ts0, fs0 := registry.View(), Tickets(batch), Futures(batch);
    back, vs := [], [];
    ProgressEnds(cfg, bs0, ts0, fs0, now, bs0, ts0, fs0, vs);
    EmptyPass<PendingRequest>(cfg, bs0, now);
    assert batch[..0] == [];
    for i := 0 to |batch|
      invariant registry.Valid()
      invariant |vs| == i && back == Kept(batch[..i], vs)
      invariant Progress(cfg, bs0, ts0, fs0, now, i, registry.View(), Tickets(batch), Futures(batch), vs)
    {
      ghost var bs, ts, fs := registry.View(), Tickets(batch), Futures(batch);
      var putBack: bool;
      ghost var v: Verdict;
      putBack, v := AssignAt(cfg, registry, batch, i, now);
      ProgressNext(cfg, bs0, ts0, fs0, now, i, bs, ts, fs, vs, Tickets(batch));
      KeptNext(batch, i, vs, v);
      vs := vs + [v];
      back := if putBack then back + [batch[i]] else back;
    }
    assert batch[..|batch|] == batch;
    ProgressEnds(cfg, bs0, ts0, fs0, now, registry.View(), Tickets(batch), Futures(batch), vs);
    BatchResolves(cfg, bs0, ts0, fs0, now);
  }

  /** What a pass makes of the futures of a batch, and of the slots. */
  lemma BatchResolves(cfg: GatewayConfig, bs: seq<Backend>, ts: seq<Ticket>, fs: seq<Future>, now: real)
    requires |ts| == |fs| && DistinctNames(bs) && forall k :: 0 <= k < |ts| && !ts[k].done ==> fs[k].Pending?
    ensures var (bs', vs) := Pass(cfg, bs, ts, now);
      && FuturesResolved(cfg, bs, ts, fs, Settled(fs, vs, bs), vs, now)
      && forall p :: 0 <= p < |bs| ==> NewlyResolved(fs, Settled(fs, vs, bs), bs[p].name) == bs'[p].inflight - bs[p].inflight
  {
    hide Pass, Settled, FuturesResolved;
    SettledIsResolved(cfg, bs, ts, fs, now);
    forall p | 0 <= p < |bs|
      ensures var (bs', vs) := Pass(cfg, bs, ts, now);
        NewlyResolved(fs, Settled(fs, vs, bs), bs[p].name) == bs'[p].inflight - bs[p].inflight
    {
      SlotsMatchFutures(cfg, bs, bs, ts, fs, now, p);
    }
  }

  lemma ValidRegistryHasDistinctNames(registry: BackendRegistry)
    requires registry.Valid()
    ensures DistinctNames(registry.View())
  {
  }
}
