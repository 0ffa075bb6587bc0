/** Backend scoring: an argmin over load, latency, errors, hot share, overload and class mix. */
module Scoring {
  import opened Types
  import opened BackendState
  import opened Health

  function ClassPenalty(largeInflight: nat, cl: RequestClass): real {
    if largeInflight == 0 then 0.0
    else if cl.SmallChat? || cl.MediumChat? then MinReal(5.0, largeInflight as real * 1.5)
    else 0.0
  }

  function HotPenalty(recent: nat, total: nat, r: RoutingConfig): real {
    if total == 0 then 0.0
    else
      var share := recent as real / total as real;
      if share <= r.hotTargetShare then 0.0
      else
        var excess := share - r.hotTargetShare;
        r.hotPenaltyWeight * (excess * excess) * 100.0
  }

  function OverloadPenalty(b: Backend, r: RoutingConfig): real {
    if b.inflight <= b.softLimit then 0.0
    else r.overloadPenaltyWeight * (b.inflight - b.softLimit) as real
  }

  /** The five weighted terms. */
  function Load(b: Backend, r: RoutingConfig): real {
    r.inflightWeight * b.inflight as real
    + r.queueWeight * b.ewmaQueueMs
    + r.ttftWeight * b.ewmaTtftMs
    + r.e2eWeight * b.ewmaE2eMs
    + r.errorWeight * b.errorRate
  }

  function Score(b: Backend, r: RoutingConfig, cl: RequestClass, total: nat, now: real): real {
    Load(b, r)
    + HotPenalty(DispatchesInWindow(b, r.hotWindowSec, now), total, r)
    + OverloadPenalty(b, r)
    + ClassPenalty(b.largeInflight, cl)
  }

  /** Dispatches of all candidates inside the hot window. */
  function TotalRecent(cs: seq<Backend>, r: RoutingConfig, now: real): nat {
    if cs == [] then 0
    else TotalRecent(cs[..|cs| - 1], r, now) + DispatchesInWindow(cs[|cs| - 1], r.hotWindowSec, now)
  }

  function Scores(cs: seq<Backend>, r: RoutingConfig, cl: RequestClass, now: real): (ks: seq<real>)
    ensures |ks| == |cs|
    ensures forall i :: 0 <= i < |cs| ==> ks[i] == Score(cs[i], r, cl, TotalRecent(cs, r, now), now)
  {
    var total := TotalRecent(cs, r, now);
    seq(|cs|, i requires 0 <= i < |cs| => Score(cs[i], r, cl, total, now))
  }

  // ---------- what each part amounts to ----------

  /** A share over the target costs 100 times the weight for the square of the excess, and any other share nothing. */
  lemma HotPenaltyOfShare(recent: nat, total: nat, share: real, r: RoutingConfig)
    requires total > 0 && share * total as real == recent as real
    ensures share <= r.hotTargetShare ==> HotPenalty(recent, total, r) == 0.0
    ensures share > r.hotTargetShare ==>
      HotPenalty(recent, total, r) == 100.0 * r.hotPenaltyWeight * ((share - r.hotTargetShare) * (share - r.hotTargetShare))
  {
    var s := recent as real / total as real;
    assert s * total as real == recent as real;
    ProductZero(s - share, total as real);
    var square := (share - r.hotTargetShare) * (share - r.hotTargetShare);
    Commute(r.hotPenaltyWeight, square);
  }

  lemma Commute(w: real, x: real)
    ensures w * x * 100.0 == 100.0 * w * x
  {
  }

  /** Nothing up to the soft limit, and one weight more for every slot beyond it. */
  lemma OverloadPenaltyPerSlot(b: Backend, r: RoutingConfig)
    ensures b.inflight <= b.softLimit ==> OverloadPenalty(b, r) == 0.0
    ensures b.inflight >= b.softLimit ==>
      OverloadPenalty(b.(inflight := b.inflight + 1), r) == OverloadPenalty(b, r) + r.overloadPenaltyWeight
  {
    if b.inflight >= b.softLimit {
      var w, over := r.overloadPenaltyWeight, (b.inflight - b.softLimit) as real;
      assert w * (over + 1.0) == w * over + w;
    }
  }

  /** A score is the sum of five weighted metrics and three penalties. */
  lemma ScoreParts(b: Backend, r: RoutingConfig, cl: RequestClass, total: nat, now: real)
    ensures Score(b, r, cl, total, now)
      == Term(r.inflightWeight, b.inflight as real) + Term(r.queueWeight, b.ewmaQueueMs) + Term(r.ttftWeight, b.ewmaTtftMs)
       + Term(r.e2eWeight, b.ewmaE2eMs) + Term(r.errorWeight, b.errorRate)
       + HotPenalty(DispatchesInWindow(b, r.hotWindowSec, now), total, r) + OverloadPenalty(b, r) + ClassPenalty(b.largeInflight, cl)
  {
    hide Load, Term, HotPenalty, OverloadPenalty, ClassPenalty, DispatchesInWindow;
    LoadTerms(b, r);
  }

  /** What more of one metric adds to a score. */
  lemma ScoreMargins(b: Backend, r: RoutingConfig, cl: RequestClass, total: nat, now: real, x: real)
    ensures Score(b.(ewmaQueueMs := b.ewmaQueueMs + x), r, cl, total, now) == Score(b, r, cl, total, now) + r.queueWeight * x
    ensures Score(b.(ewmaTtftMs := b.ewmaTtftMs + x), r, cl, total, now) == Score(b, r, cl, total, now) + r.ttftWeight * x
    ensures Score(b.(ewmaE2eMs := b.ewmaE2eMs + x), r, cl, total, now) == Score(b, r, cl, total, now) + r.e2eWeight * x
    ensures Score(b.(errorRate := b.errorRate + x), r, cl, total, now) == Score(b, r, cl, total, now) + r.errorWeight * x
  {
    hide Score, Load, Term, HotPenalty, OverloadPenalty, ClassPenalty, Recent;
    TermOfSum(r.queueWeight, b.ewmaQueueMs, x);
    TermOfSum(r.ttftWeight, b.ewmaTtftMs, x);
    TermOfSum(r.e2eWeight, b.ewmaE2eMs, x);
    TermOfSum(r.errorWeight, b.errorRate, x);
    SamePenalties(b, b.(ewmaQueueMs := b.ewmaQueueMs + x), r, cl, total, now);
    SamePenalties(b, b.(ewmaTtftMs := b.ewmaTtftMs + x), r, cl, total, now);
    SamePenalties(b, b.(ewmaE2eMs := b.ewmaE2eMs + x), r, cl, total, now);
    SamePenalties(b, b.(errorRate := b.errorRate + x), r, cl, total, now);
  }

  /** With the same slots and recent dispatches two scores differ by their weighted latencies and errors. */
  lemma SamePenalties(b: Backend, b': Backend, r: RoutingConfig, cl: RequestClass, total: nat, now: real)
    requires b' == b.(ewmaQueueMs := b'.ewmaQueueMs, ewmaTtftMs := b'.ewmaTtftMs, ewmaE2eMs := b'.ewmaE2eMs, errorRate := b'.errorRate)
    ensures Score(b', r, cl, total, now) - Score(b, r, cl, total, now)
      == (Term(r.queueWeight, b'.ewmaQueueMs) - Term(r.queueWeight, b.ewmaQueueMs))
       + (Term(r.ttftWeight, b'.ewmaTtftMs) - Term(r.ttftWeight, b.ewmaTtftMs))
       + (Term(r.e2eWeight, b'.ewmaE2eMs) - Term(r.e2eWeight, b.ewmaE2eMs))
       + (Term(r.errorWeight, b'.errorRate) - Term(r.errorWeight, b.errorRate))
  {
    hide Score, Load, Term, HotPenalty, ClassPenalty, Recent;
    ScoreParts(b, r, cl, total, now);
    ScoreParts(b', r, cl, total, now);
  }

  lemma TermOfSum(w: real, x: real, y: real)
    ensures Term(w, x + y) == Term(w, x) + w * y
  {
  }

  /** One more slot costs its weight, and the overload weight too when the soft limit is reached. */
  lemma ScoreOfOneMoreSlot(b: Backend, r: RoutingConfig, cl: RequestClass, total: nat, now: real)
    ensures Score(b.(inflight := b.inflight + 1), r, cl, total, now) == Score(b, r, cl, total, now) + r.inflightWeight
      + (if b.inflight >= b.softLimit then r.overloadPenaltyWeight else 0.0)
  {
    hide Score, Load, Term, HotPenalty, ClassPenalty, Recent, OverloadPenalty;
    ScoreParts(b, r, cl, total, now);
    ScoreParts(b.(inflight := b.inflight + 1), r, cl, total, now);
    TermOfNext(r.inflightWeight, b.inflight);
    OverloadPenaltyPerSlot(b, r);
    OverloadPenaltyPerSlot(b.(inflight := b.inflight + 1), r);
  }

  lemma TermOfNext(w: real, k: nat)
    ensures Term(w, (k + 1) as real) == Term(w, k as real) + w
  {
    TermOfSum(w, k as real, 1.0);
  }

  /** Nothing else is in a score: an idle backend without latency, errors or recent dispatches scores zero. */
  lemma IdleScoresZero(b: Backend, r: RoutingConfig, cl: RequestClass, total: nat, now: real)
    requires b.inflight == b.largeInflight == 0 <= b.softLimit && b.dispatchTimes == []
    requires b.ewmaQueueMs == b.ewmaTtftMs == b.ewmaE2eMs == b.errorRate == 0.0 && r.hotTargetShare >= 0.0
    ensures Score(b, r, cl, total, now) == 0.0
  {
    hide Score, HotPenalty, OverloadPenalty, ClassPenalty, Recent;
    ScoreParts(b, r, cl, total, now);
    OverloadPenaltyPerSlot(b, r);
    NothingRecent(b, r, total, now);
    NothingLarge(cl);
  }

  lemma NothingRecent(b: Backend, r: RoutingConfig, total: nat, now: real)
    ensures b.dispatchTimes == [] && r.hotTargetShare >= 0.0 ==>
      HotPenalty(DispatchesInWindow(b, r.hotWindowSec, now), total, r) == 0.0
  {
    if b.dispatchTimes == [] && total > 0 && r.hotTargetShare >= 0.0 {
      HotPenaltyOfShare(0, total, 0.0, r);
    }
  }

  lemma NothingLarge(cl: RequestClass)
    ensures ClassPenalty(0, cl) == 0.0
  {
  }

  /** The recent share and the large work of a backend enter its score as the hot and the class penalty. */
  lemma ScorePenalties(b: Backend, b': Backend, r: RoutingConfig, cl: RequestClass, total: nat, now: real)
    requires b' == b.(largeInflight := b'.largeInflight, dispatchTimes := b'.dispatchTimes)
    ensures Score(b', r, cl, total, now) - Score(b, r, cl, total, now)
      == HotPenalty(DispatchesInWindow(b', r.hotWindowSec, now), total, r) - HotPenalty(DispatchesInWindow(b, r.hotWindowSec, now), total, r)
       + ClassPenalty(b'.largeInflight, cl) - ClassPenalty(b.largeInflight, cl)
  {
    hide HotPenalty, ClassPenalty, Recent;
  }

  // ---------- the pick ----------

  /** One pass over the keys, moving only to a strictly smaller one. */
  function ArgMin(keys: seq<real>): (p: nat)
    requires keys != []
    ensures p < |keys|
  {
    if |keys| == 1 then 0
    else
      var n := |keys| - 1;
      var p := ArgMin(keys[..n]);
      if keys[n] < keys[p] then n else p
  }

  function Pick(cs: seq<Backend>, r: RoutingConfig, cl: RequestClass, now: real): (p: nat)
    requires cs != []
    ensures p < |cs|
  {
    ArgMin(Scores(cs, r, cl, now))
  }

  /** `order` lists the positions of `keys` as a stable ascending sort puts them. */
  ghost predicate StableOrder(keys: seq<real>, order: seq<nat>) {
    && |order| == |keys|
    && (forall a :: 0 <= a < |order| ==> order[a] < |keys|)
    && (forall p: nat :: p < |keys| ==> p in order)
    && (forall a, b :: 0 <= a < b < |order| ==> Before(keys, order[a], order[b]))
  }

  ghost predicate Before(keys: seq<real>, p: nat, q: nat) {
    p < |keys| && q < |keys| && (keys[p] < keys[q] || (keys[p] == keys[q] && p < q))
  }

  lemma {:induction false} ArgMinIsEarliest(keys: seq<real>)
    requires keys != []
    ensures forall q: nat :: q < |keys| && q != ArgMin(keys) ==> Before(keys, ArgMin(keys), q)
  {
    if |keys| > 1 {
      var front := keys[..|keys| - 1];
      ArgMinIsEarliest(front);
      forall q: nat | q < |keys| && q != ArgMin(keys)
        ensures Before(keys, ArgMin(keys), q)
      {
        if q < |front| && q != ArgMin(front) {
          assert Before(front, ArgMin(front), q);
        }
      }
    }
  }

  /** The head of any stable sort by key is the one-pass minimum, for lists of any length. */
  lemma HeadOfStableSortIsArgMin(keys: seq<real>, order: seq<nat>)
    requires keys != [] && StableOrder(keys, order)
    ensures order[0] == ArgMin(keys)
  {
    ArgMinIsEarliest(keys);
    var p := ArgMin(keys);
    assert p in order;
    var a :| 0 <= a < |order| && order[a] == p;
    assert order[0] != p ==> Before(keys, p, order[0]);
    assert a > 0 ==> Before(keys, order[0], order[a]);
  }

  /** The chosen candidate scores lowest, and lower than every candidate that precedes it. */
  lemma PickIsEarliestMinimum(cs: seq<Backend>, r: RoutingConfig, cl: RequestClass, now: real)
    requires cs != []
    ensures var p, total := Pick(cs, r, cl, now), TotalRecent(cs, r, now);
      forall q: nat :: q < |cs| ==>
        && Score(cs[p], r, cl, total, now) <= Score(cs[q], r, cl, total, now)
        && (q < p ==> Score(cs[p], r, cl, total, now) < Score(cs[q], r, cl, total, now))
  {
    hide Score;
    var keys := Scores(cs, r, cl, now);
    ArgMinIsEarliest(keys);
    var p := Pick(cs, r, cl, now);
    forall q: nat | q < |cs|
      ensures keys[p] <= keys[q] && (q < p ==> keys[p] < keys[q])
    {
      assert q != p ==> Before(keys, p, q);
    }
  }

  /** A stable insertion sort of the positions by key. */
  method StableSort(keys: seq<real>) returns (order: seq<nat>)
    ensures StableOrder(keys, order)
  {
    order := [];
    for i := 0 to |keys|
      invariant StableOrder(keys[..i], order)
    {
      var a := |order|;
      while a > 0 && keys[order[a - 1]] > keys[i]
        invariant 0 <= a <= |order|
        invariant forall b :: a <= b < |order| ==> keys[order[b]] > keys[i]
      {
        a := a - 1;
      }
      InsertKeepsOrder(keys, i, order, a);
      order := order[..a] + [i] + order[a..];
    }
    assert keys[..|keys|] == keys;
  }

  lemma InsertKeepsOrder(keys: seq<real>, i: nat, order: seq<nat>, a: nat)
    requires i < |keys| && StableOrder(keys[..i], order) && a <= |order|
    requires forall b :: a <= b < |order| ==> keys[order[b]] > keys[i]
    requires a > 0 ==> keys[order[a - 1]] <= keys[i]
    ensures StableOrder(keys[..i + 1], order[..a] + [i] + order[a..])
  {
    var next, all := order[..a] + [i] + order[a..], keys[..i + 1];
    forall p: nat | p < |all|
      ensures p in next
    {
      if p < i {
        assert p < |keys[..i]| && p in order;
      } else {
        assert next[a] == i;
      }
    }
    forall b, c | 0 <= b < c < |next|
      ensures Before(all, next[b], next[c])
    {
      InsertedPair(keys, i, order, a, b, c);
    }
  }

  lemma InsertedPair(keys: seq<real>, i: nat, order: seq<nat>, a: nat, b: nat, c: nat)
    requires i < |keys| && StableOrder(keys[..i], order) && a <= |order|
    requires forall b :: a <= b < |order| ==> keys[order[b]] > keys[i]
    requires a > 0 ==> keys[order[a - 1]] <= keys[i]
    requires b < c <= |order|
    ensures var next := order[..a] + [i] + order[a..]; Before(keys[..i + 1], next[b], next[c])
  {
    if b == a {
      assert keys[order[c - 1]] > keys[i];
    } else if c == a {
      assert b < a - 1 ==> Before(keys[..i], order[b], order[a - 1]);
    } else {
      assert Before(keys[..i], order[if b < a then b else b - 1], order[if c < a then c else c - 1]);
    }
  }

  method PickBackend(candidates: seq<BackendRuntimeState>, r: RoutingConfig, cl: RequestClass, now: real)
    returns (chosen: BackendRuntimeState?)
    ensures candidates == [] <==> chosen == null
    ensures candidates != [] ==> chosen == candidates[Pick(Views(candidates), r, cl, now)]
  {
    if candidates == [] {
      return null;
    }
    var total := CountRecent(candidates, r, now);
    var scored := ScoreAll(candidates, r, cl, total, now);
    var order := StableSort(scored);
    HeadOfStableSortIsArgMin(scored, order);
    chosen := candidates[order[0]];
  }

  method CountRecent(candidates: seq<BackendRuntimeState>, r: RoutingConfig, now: real) returns (total: nat)
    ensures total == TotalRecent(Views(candidates), r, now)
  {
    ghost var cs := Views(candidates);
    total := 0;
    for i := 0 to |candidates|
      invariant total == TotalRecent(cs[..i], r, now)
    {
      assert cs[..i + 1][..i] == cs[..i];
      var d := candidates[i].DispatchShare(r.hotWindowSec, now);
      total := total + d;
    }
    assert cs[..|candidates|] == cs;
  }

  method ScoreAll(candidates: seq<BackendRuntimeState>, r: RoutingConfig, cl: RequestClass, total: nat, now: real)
    returns (scored: seq<real>)
    requires total == TotalRecent(Views(candidates), r, now)
    ensures scored == Scores(Views(candidates), r, cl, now)
  {
    hide Score;
    scored := [];
    for i := 0 to |candidates|
      invariant |scored| == i
      invariant forall j :: 0 <= j < i ==> scored[j] == Score(candidates[j].View(), r, cl, total, now)
    {
      var v := candidates[i].View();
      scored := scored + [Score(v, r, cl, total, now)];
    }
  }

  // ---------- hot share ----------

  /** The share of recent dispatches that one candidate received. */
  function Share(recent: nat, total: nat): real
    requires total > 0
  {
    recent as real / total as real
  }

  function SumOfShares(cs: seq<Backend>, r: RoutingConfig, now: real, total: nat): real
    requires total > 0
  {
    if cs == [] then 0.0
    else
      SumOfShares(cs[..|cs| - 1], r, now, total)
      + Share(DispatchesInWindow(cs[|cs| - 1], r.hotWindowSec, now), total)
  }

  lemma {:induction false} SharesAddUp(cs: seq<Backend>, r: RoutingConfig, now: real, total: nat)
    requires total > 0
    ensures SumOfShares(cs, r, now, total) == TotalRecent(cs, r, now) as real / total as real
  {
    if cs != [] {
      var d := DispatchesInWindow(cs[|cs| - 1], r.hotWindowSec, now);
      SharesAddUp(cs[..|cs| - 1], r, now, total);
      var t := TotalRecent(cs[..|cs| - 1], r, now);
      SharesAdd(t as real, d as real, total as real);
    }
  }

  lemma SharesAdd(x: real, y: real, z: real)
    requires z > 0.0
    ensures x / z + y / z == (x + y) / z
  {
    var u, v, w := x / z, y / z, (x + y) / z;
    assert u * z == x && v * z == y && w * z == x + y;
    ProductZero(u + v - w, z);
  }

  lemma ProductZero(a: real, z: real)
    requires z > 0.0 && a * z == 0.0
    ensures a == 0.0
  {
    if a > 0.0 {
      ProductPositive(a, z);
    } else if a < 0.0 {
      ProductPositive(-a, z);
    }
  }

  lemma ProductPositive(a: real, z: real)
    requires a > 0.0 && z > 0.0
    ensures a * z > 0.0
  {
  }

  lemma QuotientOfSelf(c: real)
    requires c > 0.0
    ensures c / c == 1.0 && 0.0 / c == 0.0
  {
    var u, z := c / c, 0.0 / c;
    assert u * c == c && z * c == 0.0;
    ProductZero(u - 1.0, c);
    ProductZero(z, c);
  }

  /** The shares of all candidates sum to one as soon as any of them was dispatched to recently. */
  lemma SharesSumToOne(cs: seq<Backend>, r: RoutingConfig, now: real)
    requires TotalRecent(cs, r, now) > 0
    ensures SumOfShares(cs, r, now, TotalRecent(cs, r, now)) == 1.0
  {
    SharesAddUp(cs, r, now, TotalRecent(cs, r, now));
    QuotientOfSelf(TotalRecent(cs, r, now) as real);
  }

  lemma {:induction false} TotalCoversOne(cs: seq<Backend>, r: RoutingConfig, now: real, i: nat)
    requires i < |cs|
    ensures DispatchesInWindow(cs[i], r.hotWindowSec, now) <= TotalRecent(cs, r, now)
  {
    if i < |cs| - 1 {
      TotalCoversOne(cs[..|cs| - 1], r, now, i);
    }
  }

  lemma {:induction false} TotalCoversTwo(cs: seq<Backend>, r: RoutingConfig, now: real, i: nat, j: nat)
    requires i < j < |cs|
    ensures DispatchesInWindow(cs[i], r.hotWindowSec, now) + DispatchesInWindow(cs[j], r.hotWindowSec, now)
            <= TotalRecent(cs, r, now)
  {
    var front := cs[..|cs| - 1];
    if j < |cs| - 1 {
      TotalCoversTwo(front, r, now, i, j);
    } else {
      TotalCoversOne(front, r, now, i);
    }
  }

  function HotPenaltyOf(cs: seq<Backend>, r: RoutingConfig, now: real, i: nat): real
    requires i < |cs|
  {
    HotPenalty(DispatchesInWindow(cs[i], r.hotWindowSec, now), TotalRecent(cs, r, now), r)
  }

  /** With a target of one half or more, at most one candidate at a time carries a hot penalty. */
  lemma AtMostOneHot(cs: seq<Backend>, r: RoutingConfig, now: real, i: nat, j: nat)
    requires r.hotTargetShare >= 0.5
    requires i < |cs| && j < |cs| && i != j
    ensures HotPenaltyOf(cs, r, now, i) == 0.0 || HotPenaltyOf(cs, r, now, j) == 0.0
  {
    TotalCoversTwo(cs, r, now, if i < j then i else j, if i < j then j else i);
    var total := TotalRecent(cs, r, now);
    if total > 0 {
      var di, dj := DispatchesInWindow(cs[i], r.hotWindowSec, now), DispatchesInWindow(cs[j], r.hotWindowSec, now);
      HalfOfTotal(di, total);
      HalfOfTotal(dj, total);
    }
  }

  lemma HalfOfTotal(d: nat, total: nat)
    requires total > 0
    ensures Share(d, total) > 0.5 <==> 2 * d > total
  {
    var t, x := total as real, d as real;
    assert Share(d, total) * t == x;
    MoreThanHalf(Share(d, total), t, x);
    assert (2 * d) as real == 2.0 * x;
  }

  lemma MoreThanHalf(s: real, t: real, x: real)
    requires t > 0.0 && s * t == x
    ensures s > 0.5 <==> 2.0 * x > t
  {
    if s > 0.5 {
      ProductPositive(s - 0.5, t);
    } else if s < 0.5 {
      ProductPositive(0.5 - s, t);
    }
  }

  lemma HotPenaltyBounded(cs: seq<Backend>, r: RoutingConfig, now: real, i: nat)
    requires i < |cs| && SaneRouting(r) && r.hotTargetShare <= 1.0
    ensures 0.0 <= HotPenaltyOf(cs, r, now, i)
            <= 100.0 * r.hotPenaltyWeight * ((1.0 - r.hotTargetShare) * (1.0 - r.hotTargetShare))
  {
    TotalCoversOne(cs, r, now, i);
    BoundedPenalty(DispatchesInWindow(cs[i], r.hotWindowSec, now), TotalRecent(cs, r, now), r);
  }

  lemma BoundedPenalty(d: nat, total: nat, r: RoutingConfig)
    requires d <= total && SaneRouting(r) && r.hotTargetShare <= 1.0
    ensures 0.0 <= HotPenalty(d, total, r)
            <= 100.0 * r.hotPenaltyWeight * ((1.0 - r.hotTargetShare) * (1.0 - r.hotTargetShare))
  {
    var w, room := r.hotPenaltyWeight, 1.0 - r.hotTargetShare;
    SquareMonotone(0.0, room);
    ScaleMonotone(w, 0.0, room * room);
    assert 100.0 * w * (room * room) == w * (room * room) * 100.0;
    if total > 0 {
      ShareAtMostOne(d, total);
      var excess := Share(d, total) - r.hotTargetShare;
      if excess > 0.0 {
        SquareMonotone(excess, room);
        ScaleMonotone(w, excess * excess, room * room);
      }
    }
  }

  lemma ShareAtMostOne(d: nat, total: nat)
    requires total > 0 && d <= total
    ensures 0.0 <= Share(d, total) <= 1.0
  {
    var s := Share(d, total);
    assert s * total as real == d as real;
    assert s > 1.0 ==> s * total as real > total as real;
  }

  lemma SquareMonotone(x: real, y: real)
    requires 0.0 <= x <= y
    ensures 0.0 <= x * x <= y * y
  {
    assert x * x <= x * y <= y * y;
  }

  lemma ScaleMonotone(w: real, x: real, y: real)
    requires w >= 0.0 && 0.0 <= x <= y
    ensures 0.0 <= w * x <= w * y
  {
  }

  // ---------- dominance ----------

  /** No metric of `b` is worse than that of `b'`. */
  predicate AtLeastAsGood(b: Backend, b': Backend, r: RoutingConfig, now: real) {
    && b.inflight <= b'.inflight && b.softLimit >= b'.softLimit && b.largeInflight <= b'.largeInflight
    && b.ewmaQueueMs <= b'.ewmaQueueMs && b.ewmaTtftMs <= b'.ewmaTtftMs && b.ewmaE2eMs <= b'.ewmaE2eMs
    && b.errorRate <= b'.errorRate
    && DispatchesInWindow(b, r.hotWindowSec, now) <= DispatchesInWindow(b', r.hotWindowSec, now)
  }

  /** Some metric that carries weight is better. */
  predicate BetterSomewhere(b: Backend, b': Backend, r: RoutingConfig) {
    || (r.inflightWeight > 0.0 && b.inflight < b'.inflight)
    || (r.queueWeight > 0.0 && b.ewmaQueueMs < b'.ewmaQueueMs)
    || (r.ttftWeight > 0.0 && b.ewmaTtftMs < b'.ewmaTtftMs)
    || (r.e2eWeight > 0.0 && b.ewmaE2eMs < b'.ewmaE2eMs)
    || (r.errorWeight > 0.0 && b.errorRate < b'.errorRate)
  }

  /** A backend that another candidate beats, without losing to it anywhere, is never picked. */
  lemma DominatedIsNeverPicked(cs: seq<Backend>, r: RoutingConfig, cl: RequestClass, now: real, i: nat, j: nat)
    requires SaneRouting(r) && r.queueWeight >= 0.0 && r.ttftWeight >= 0.0 && r.e2eWeight >= 0.0 && r.errorWeight >= 0.0
    requires i < |cs| && j < |cs|
    requires AtLeastAsGood(cs[i], cs[j], r, now) && BetterSomewhere(cs[i], cs[j], r)
    ensures Pick(cs, r, cl, now) != j
  {
    hide Score, Load, HotPenalty, OverloadPenalty, ClassPenalty, DispatchesInWindow;
    var b, b', total := cs[i], cs[j], TotalRecent(cs, r, now);
    BetterLoad(b, b', r);
    FewerIsCooler(DispatchesInWindow(b, r.hotWindowSec, now), DispatchesInWindow(b', r.hotWindowSec, now), total, r);
    RoomierIsLighter(b, b', r);
    LoadDecides(b, b', r, cl, total, now);
    PickIsEarliestMinimum(cs, r, cl, now);
  }

  lemma BetterLoad(b: Backend, b': Backend, r: RoutingConfig)
    requires SaneRouting(r) && r.queueWeight >= 0.0 && r.ttftWeight >= 0.0 && r.e2eWeight >= 0.0 && r.errorWeight >= 0.0
    requires b.inflight <= b'.inflight && b.ewmaQueueMs <= b'.ewmaQueueMs && b.ewmaTtftMs <= b'.ewmaTtftMs
      && b.ewmaE2eMs <= b'.ewmaE2eMs && b.errorRate <= b'.errorRate
    requires BetterSomewhere(b, b', r)
    ensures Load(b, r) < Load(b', r)
  {
    hide Load, Term;
    LoadTerms(b, r);
    LoadTerms(b', r);
    TermGrows(r.inflightWeight, b.inflight as real, b'.inflight as real);
    TermGrows(r.queueWeight, b.ewmaQueueMs, b'.ewmaQueueMs);
    TermGrows(r.ttftWeight, b.ewmaTtftMs, b'.ewmaTtftMs);
    TermGrows(r.e2eWeight, b.ewmaE2eMs, b'.ewmaE2eMs);
    TermGrows(r.errorWeight, b.errorRate, b'.errorRate);
  }

  function Term(w: real, x: real): real { w * x }

  lemma LoadTerms(b: Backend, r: RoutingConfig)
    ensures Load(b, r) == Term(r.inflightWeight, b.inflight as real) + Term(r.queueWeight, b.ewmaQueueMs)
      + Term(r.ttftWeight, b.ewmaTtftMs) + Term(r.e2eWeight, b.ewmaE2eMs) + Term(r.errorWeight, b.errorRate)
  {
  }

  lemma TermGrows(w: real, x: real, y: real)
    requires w >= 0.0 && x <= y
    ensures Term(w, x) <= Term(w, y)
    ensures w > 0.0 && x < y ==> Term(w, x) < Term(w, y)
  {
    hide Term;
    TermOfDifference(w, x, y);
    TermSign(w, y - x);
  }

  lemma TermSign(w: real, z: real)
    requires w >= 0.0 && z >= 0.0
    ensures Term(w, z) >= 0.0 && (w > 0.0 && z > 0.0 ==> Term(w, z) > 0.0)
  {
    if w > 0.0 && z > 0.0 {
      ProductPositive(w, z);
    }
  }

  lemma TermOfDifference(w: real, x: real, y: real)
    ensures Term(w, y - x) == Term(w, y) - Term(w, x)
  {
  }

  lemma FewerIsCooler(d: nat, d': nat, total: nat, r: RoutingConfig)
    requires SaneRouting(r) && d <= d'
    ensures HotPenalty(d, total, r) <= HotPenalty(d', total, r)
  {
    ProductMonotone(total, d, d');
    HotPenaltyMonotone(d, total, d', total, r);
  }

  lemma RoomierIsLighter(b: Backend, b': Backend, r: RoutingConfig)
    requires SaneRouting(r) && b.inflight <= b'.inflight && b.softLimit >= b'.softLimit
    ensures OverloadPenalty(b, r) <= OverloadPenalty(b', r)
  {
    var over, over' := Max(0, b.inflight - b.softLimit), Max(0, b'.inflight - b'.softLimit);
    TermGrows(r.overloadPenaltyWeight, over as real, over' as real);
  }

  lemma LoadDecides(b: Backend, b': Backend, r: RoutingConfig, cl: RequestClass, total: nat, now: real)
    requires Load(b, r) < Load(b', r)
    requires HotPenalty(DispatchesInWindow(b, r.hotWindowSec, now), total, r)
             <= HotPenalty(DispatchesInWindow(b', r.hotWindowSec, now), total, r)
    requires OverloadPenalty(b, r) <= OverloadPenalty(b', r)
    requires b.largeInflight <= b'.largeInflight
    ensures Score(b, r, cl, total, now) < Score(b', r, cl, total, now)
  {
    hide Load, HotPenalty, OverloadPenalty;
  }

  /** It falls on small and medium requests only, and grows with the large work in flight up to 5, reached at four. */
  lemma ClassPenaltyRange(large: nat, cl: RequestClass)
    ensures var p := ClassPenalty(large, cl);
      && (p > 0.0 <==> large > 0 && (cl.SmallChat? || cl.MediumChat?))
      && (p == 5.0 <==> large >= 4 && (cl.SmallChat? || cl.MediumChat?))
      && 0.0 <= p <= ClassPenalty(large + 1, cl) <= 5.0
      && (p > 0.0 && large <= 3 ==> p == 1.5 * large as real)
  {
  }

  /** The class penalty is advisory: it never outweighs one slot when a slot weighs more than 5. */
  lemma ClassPenaltyIsAdvisory(b: Backend, b': Backend, r: RoutingConfig, cl: RequestClass)
    requires r.inflightWeight > 5.0 && b.inflight < b'.inflight
    ensures r.inflightWeight * b.inflight as real + ClassPenalty(b.largeInflight, cl)
            < r.inflightWeight * b'.inflight as real + ClassPenalty(b'.largeInflight, cl)
  {
    hide ClassPenalty;
    ClassPenaltyRange(b.largeInflight, cl);
    ClassPenaltyRange(b'.largeInflight, cl);
    OneSlotMore(r.inflightWeight, b.inflight, b'.inflight);
  }

  lemma OneSlotMore(w: real, k: nat, k': nat)
    requires w > 5.0 && k < k'
    ensures w * k as real + 5.0 < w * k' as real
  {
    TermGrows(w, (k + 1) as real, k' as real);
    assert w * (k + 1) as real == w * k as real + w;
  }

  // ---------- dispatch feedback ----------

  /** What taking a slot does to a backend: the probe count, the slot counters and the dispatch window. */
  function TakeSlot(b: Backend, cl: RequestClass, now: real): Backend {
    var s := AfterRequestStart(b);
    AfterRecordDispatch(
      s.(inflight := s.inflight + 1, largeInflight := if cl.IsLarge() then s.largeInflight + 1 else s.largeInflight),
      now)
  }

  lemma HotPenaltyMonotone(d: nat, total: nat, d': nat, total': nat, r: RoutingConfig)
    requires SaneRouting(r)
    requires total == 0 || (total' > 0 && d * total' <= d' * total)
    ensures HotPenalty(d, total, r) <= HotPenalty(d', total', r)
  {
    if total > 0 {
      CrossMultiply(d, total, d', total');
      var s, s', t := Share(d, total), Share(d', total'), r.hotTargetShare;
      if s > t {
        SquareMonotone(s - t, s' - t);
        ScaleMonotone(r.hotPenaltyWeight, (s - t) * (s - t), (s' - t) * (s' - t));
      }
    }
    HotPenaltyNotNegative(d', total', r);
  }

  lemma HotPenaltyNotNegative(d: nat, total: nat, r: RoutingConfig)
    requires SaneRouting(r)
    ensures HotPenalty(d, total, r) >= 0.0
  {
    if total > 0 && Share(d, total) > r.hotTargetShare {
      SquareMonotone(0.0, Share(d, total) - r.hotTargetShare);
    }
  }

  lemma CrossMultiply(d: nat, total: nat, d': nat, total': nat)
    requires total > 0 && total' > 0 && d * total' <= d' * total
    ensures Share(d, total) <= Share(d', total')
  {
    var s, s' := Share(d, total), Share(d', total');
    assert s * total as real == d as real && s' * total' as real == d' as real;
    var scale := total as real * total' as real;
    assert s * scale == d as real * total' as real == (d * total') as real;
    assert s' * scale == d' as real * total as real == (d' * total) as real;
    assert scale > 0.0;
    if s > s' {
      assert s * scale > s' * scale;
    }
  }

  lemma {:induction false} TotalAfterUpdate(cs: seq<Backend>, r: RoutingConfig, now: real, c: nat, b: Backend)
    requires c < |cs|
    ensures TotalRecent(cs[c := b], r, now)
            == TotalRecent(cs, r, now) - DispatchesInWindow(cs[c], r.hotWindowSec, now)
               + DispatchesInWindow(b, r.hotWindowSec, now)
  {
    var n := |cs| - 1;
    if c < n {
      assert cs[c := b][..n] == cs[..n][c := b];
      TotalAfterUpdate(cs[..n], r, now, c, b);
    } else {
      assert cs[c := b][..n] == cs[..n];
    }
  }

  /**
   * A dispatch to candidate `c` never makes `c` look cheaper and never makes another candidate look
   * dearer, for every class of the next request, whether or not the full window drops an entry.
   */
  lemma DispatchFeedback(cs: seq<Backend>, r: RoutingConfig, now: real, c: nat, taken: RequestClass, next: RequestClass)
    requires SaneRouting(r) && r.hotWindowSec >= 0.0
    requires c < |cs| && |cs[c].dispatchTimes| <= WINDOW_CAPACITY
    ensures var after := cs[c := TakeSlot(cs[c], taken, now)];
      && Scores(cs, r, next, now)[c] <= Scores(after, r, next, now)[c]
      && forall j :: 0 <= j < |cs| && j != c ==> Scores(after, r, next, now)[j] <= Scores(cs, r, next, now)[j]
  {
    hide Score;
    var after := cs[c := TakeSlot(cs[c], taken, now)];
    var total, total' := TotalRecent(cs, r, now), TotalRecent(after, r, now);
    ChosenHeatsUp(cs, r, now, c, taken);
    ScoreMonotone(cs[c], after[c], r, next, total, total', now);
    forall j | 0 <= j < |cs| && j != c
      ensures Scores(after, r, next, now)[j] <= Scores(cs, r, next, now)[j]
    {
      OthersCoolDown(cs, r, now, j, total, total');
      ScoreMonotone(cs[j], cs[j], r, next, total', total, now);
    }
  }

  /** A score is monotone in each of its parts. */
  lemma ScoreMonotone(b: Backend, b': Backend, r: RoutingConfig, cl: RequestClass, total: nat, total': nat, now: real)
    requires Load(b, r) <= Load(b', r)
    requires HotPenalty(DispatchesInWindow(b, r.hotWindowSec, now), total, r)
             <= HotPenalty(DispatchesInWindow(b', r.hotWindowSec, now), total', r)
    requires OverloadPenalty(b, r) <= OverloadPenalty(b', r)
    requires b.largeInflight <= b'.largeInflight
    ensures Score(b, r, cl, total, now) <= Score(b', r, cl, total', now)
  {
    hide Load;
    hide HotPenalty;
    hide OverloadPenalty;
  }

  lemma ChosenHeatsUp(cs: seq<Backend>, r: RoutingConfig, now: real, c: nat, taken: RequestClass)
    requires SaneRouting(r) && r.hotWindowSec >= 0.0
    requires c < |cs| && |cs[c].dispatchTimes| <= WINDOW_CAPACITY
    ensures var b := TakeSlot(cs[c], taken, now);
      var total, total' := TotalRecent(cs, r, now), TotalRecent(cs[c := b], r, now);
      && total <= total'
      && Load(cs[c], r) <= Load(b, r)
      && HotPenalty(DispatchesInWindow(cs[c], r.hotWindowSec, now), total, r)
         <= HotPenalty(DispatchesInWindow(b, r.hotWindowSec, now), total', r)
      && OverloadPenalty(cs[c], r) <= OverloadPenalty(b, r)
      && cs[c].largeInflight <= b.largeInflight
  {
    hide HotPenalty;
    hide Load;
    hide OverloadPenalty;
    var b := TakeSlot(cs[c], taken, now);
    var d, d' := DispatchesInWindow(cs[c], r.hotWindowSec, now), DispatchesInWindow(b, r.hotWindowSec, now);
    var total, total' := TotalRecent(cs, r, now), TotalRecent(cs[c := b], r, now);
    PushRecent(cs[c].dispatchTimes, now, now - r.hotWindowSec);
    TotalAfterUpdate(cs, r, now, c, b);
    TotalCoversOne(cs, r, now, c);
    assert total' == total + (d' - d);
    OneMoreIsHotter(d, total, d' - d, r);
    LoadGrows(cs[c], b, r);
    RoomierIsLighter(cs[c], b, r);
  }

  /** From `(d + 1) / (total + 1) >= d / total`. */
  lemma OneMoreIsHotter(d: nat, total: nat, e: int, r: RoutingConfig)
    requires SaneRouting(r) && d <= total && 0 <= e <= 1
    ensures HotPenalty(d, total, r) <= HotPenalty(d + e, total + e, r)
  {
    if e == 1 {
      assert d * (total + 1) == d * total + d && (d + 1) * total == d * total + total;
      HotPenaltyMonotone(d, total, d + 1, total + 1, r);
    }
  }

  lemma LoadGrows(b: Backend, b': Backend, r: RoutingConfig)
    requires SaneRouting(r) && b.inflight <= b'.inflight
    requires b' == b'.(ewmaQueueMs := b.ewmaQueueMs, ewmaTtftMs := b.ewmaTtftMs, ewmaE2eMs := b.ewmaE2eMs, errorRate := b.errorRate)
    ensures Load(b, r) <= Load(b', r)
  {
    ScaleMonotone(r.inflightWeight, b.inflight as real, b'.inflight as real);
  }

  lemma OthersCoolDown(cs: seq<Backend>, r: RoutingConfig, now: real, j: nat, total: nat, total': nat)
    requires SaneRouting(r) && j < |cs|
    requires total == TotalRecent(cs, r, now) <= total'
    ensures var d := DispatchesInWindow(cs[j], r.hotWindowSec, now); HotPenalty(d, total', r) <= HotPenalty(d, total, r)
  {
    TotalCoversOne(cs, r, now, j);
    Dilution(DispatchesInWindow(cs[j], r.hotWindowSec, now), total, total', r);
  }

  lemma Dilution(d: nat, total: nat, total': nat, r: RoutingConfig)
    requires SaneRouting(r) && d <= total <= total'
    ensures HotPenalty(d, total', r) <= HotPenalty(d, total, r)
  {
    if total > 0 {
      ProductMonotone(d, total, total');
      HotPenaltyMonotone(d, total', d, total, r);
    } else if total' > 0 {
      assert Share(0, total') == 0.0;
    }
  }

  lemma ProductMonotone(d: nat, x: nat, y: nat)
    requires x <= y
    ensures d * x <= d * y
  {
  }
}
