/** Slot accounting: the `inflight` counters against the requests that really hold a slot, over all runs. */
module Slots {
  import opened Types
  import opened BackendState
  import opened Health
  import opened Registry
  import opened Dispatcher
  import opened Proxy
  import opened Gateway
  import opened Queueing
  import opened History

  predicate Holds(r: Request, i: nat) {
    (r.work.Calling? || r.work.Relaying?) && r.work.at == Some(i)
  }

  /** What a request of this class weighs in the counter of all slots, or in that of large ones. */
  function Weight(cl: RequestClass, large: bool): nat {
    if large && !cl.IsLarge() then 0 else 1
  }

  function HeldBy(r: Request, i: nat, large: bool): nat {
    if Holds(r, i) then Weight(r.cl, large) else 0
  }

  /** The (large) requests that hold a slot of backend `i`. */
  function Holders(rs: seq<Request>, i: nat, large: bool): nat {
    if rs == [] then 0 else Holders(rs[..|rs| - 1], i, large) + HeldBy(rs[|rs| - 1], i, large)
  }

  /** The counter the gateway keeps of them. */
  function Taken(b: Backend, large: bool): nat {
    if large then b.largeInflight else b.inflight
  }

  lemma {:induction false} HoldersUpdate(rs: seq<Request>, id: nat, r: Request, i: nat, large: bool)
    requires id < |rs|
    ensures Holders(rs[id := r], i, large) == Holders(rs, i, large) - HeldBy(rs[id], i, large) + HeldBy(r, i, large)
  {
    hide HeldBy;
    var n := |rs| - 1;
    if id < n {
      assert rs[id := r][..n] == rs[..n][id := r];
      HoldersUpdate(rs[..n], id, r, i, large);
    } else {
      assert rs[id := r][..n] == rs[..n];
    }
  }

  lemma {:induction false} HoldersCoverOne(rs: seq<Request>, id: nat, i: nat, large: bool)
    requires id < |rs|
    ensures Holders(rs, i, large) >= HeldBy(rs[id], i, large)
  {
    hide HeldBy;
    if id < |rs| - 1 {
      HoldersCoverOne(rs[..|rs| - 1], id, i, large);
    }
  }

  lemma {:induction false} LargeHoldersAreHolders(rs: seq<Request>, i: nat)
    ensures Holders(rs, i, true) <= Holders(rs, i, false)
  {
    if rs != [] {
      LargeHoldersAreHolders(rs[..|rs| - 1], i);
    }
  }

  /** The counter never overcounts, and undercounts at most by the slots given back once too often. */
  predicate Sandwiched(taken: nat, held: nat, extra: nat) {
    taken <= held <= taken + extra
  }

  predicate SlotsSandwiched(s: State) {
    && |s.extra| == |s.backends|
    && forall i, large :: 0 <= i < |s.backends| ==>
      Sandwiched(Taken(s.backends[i], large), Holders(s.requests, i, large), s.extra[i])
  }

  /** The counters are exactly the holders. */
  predicate SlotsExact(s: State) {
    forall i, large :: 0 <= i < |s.backends| ==> Taken(s.backends[i], large) == Holders(s.requests, i, large)
  }

  // ---------- what the code does to the counters ----------

  lemma PlaceTakes(cfg: GatewayConfig, bs: seq<Backend>, cl: RequestClass, now: real, avoid: Option<string>, i: nat, large: bool)
    requires i < |bs|
    ensures var pl := Place(cfg, bs, cl, now, avoid);
      Taken(pl.backends[i], large) == Taken(bs[i], large) + (if pl.target == Some(i) then Weight(cl, large) else 0)
  {
    hide Place, Eligible, CooledDown;
    PlaceTakesOneEligibleSlot(cfg, bs, cl, now, avoid);
  }

  /** Giving back `k` times. */
  function Less(taken: nat, k: nat): nat { Max(0, taken - k) }

  lemma NotingTakesNothing(bs: seq<Backend>, at: Option<nat>, o: Outcome, stream: bool, h: HealthConfig, now: real, i: nat, large: bool)
    requires i < |bs|
    ensures Taken(Noted(bs, at, o, stream, h, now)[i], large) == Taken(bs[i], large)
  {
  }

  lemma ReleaseGivesBack(bs: seq<Backend>, at: Option<nat>, cl: RequestClass, i: nat, large: bool)
    requires i < |bs|
    ensures Taken(Released(bs, at, cl)[i], large)
            == if at == Some(i) then Less(Taken(bs[i], large), Weight(cl, large)) else Taken(bs[i], large)
  {
  }

  /** The net effect of a returning call on every counter. */
  lemma ResumeSlots(cfg: GatewayConfig, bs: seq<Backend>, at: Option<nat>, cl: RequestClass, stream: bool,
                    attempts: nat, o: Outcome, now: real, i: nat, large: bool)
    requires i < |bs|
    ensures var res := Resume(cfg, bs, at, cl, stream, attempts, o, now);
      var taken, after, w := Taken(bs[i], large), Taken(res.backends[i], large), Weight(cl, large);
      && (res.next == Retry(i) ==> at != Some(i) && after == taken + w)
      && (res.next != Retry(i) && at != Some(i) ==> after == taken)
      && (at == Some(i) && res.next.OpenStream? ==> after == taken)
      && (at == Some(i) && !res.next.OpenStream? ==>
        after == Less(taken, if ReleasesTwice(cfg, bs, at, cl, stream, attempts, o, now) then 2 * w else w))
    ensures ReleasesTwice(cfg, bs, at, cl, stream, attempts, o, now) ==>
      Resume(cfg, bs, at, cl, stream, attempts, o, now).next.Answer?
  {
    hide Place, Noted, Released, Resume, Taken, Weight, Eligible;
    ResumeCases(cfg, bs, at, cl, stream, attempts, o, now);
    var noted := Noted(bs, at, o, stream, cfg.health, now);
    var rel := Released(noted, at, cl);
    NotingTakesNothing(bs, at, o, stream, cfg.health, now, i, large);
    ReleaseGivesBack(noted, at, cl, i, large);
    if !Succeeded(o) && WantsRetry(cfg, stream, attempts, o) {
      var pl := Place(cfg, rel, cl, now, Avoid(bs, at));
      PlaceTakes(cfg, rel, cl, now, Avoid(bs, at), i, large);
      ReleaseGivesBack(pl.backends, at, cl, i, large);
      PlaceTakesOneEligibleSlot(cfg, rel, cl, now, Avoid(bs, at));
      if pl.target == Some(i) && at == Some(i) {
        OthersUntouched(bs, at, o, cl, stream, cfg.health, now, i);
      }
    }
  }

  // ---------- the sandwich, on every run ----------

  lemma AssignNextSlots(cfg: GatewayConfig, s: State, i: nat, large: bool)
    requires Orderly(cfg, s) && s.phase.Holding? && s.phase.rest != [] && i < |s.backends|
    ensures var s' := AssignNext(cfg, s);
      && |s'.backends| == |s.backends| && s'.extra == s.extra
      && Taken(s'.backends[i], large) - Holders(s'.requests, i, large)
         == Taken(s.backends[i], large) - Holders(s.requests, i, large)
  {
    hide Place, VerdictEvents, TooOld, Taken, Holders, LineSound, NoOvertaking, ArrivalsOrdered;
    var id := Head(s);
    var r := s.requests[id];
    PlaceTakes(cfg, s.backends, r.cl, s.clock, None, i, large);
    HoldersUpdate(s.requests, id, AssignNext(cfg, s).requests[id], i, large);
    assert WorkSound(cfg, |s.backends|, r);
  }

  lemma {:induction false} AssignAllSlots(cfg: GatewayConfig, s: State, i: nat, large: bool)
    requires WellFormed(s) && Orderly(cfg, s) && Blocked(cfg, s) && cfg.retry.maxAttempts >= 1
    requires s.phase.Holding? && i < |s.backends|
    ensures var s' := AssignAll(cfg, s);
      && |s'.backends| == |s.backends| && s'.extra == s.extra
      && Taken(s'.backends[i], large) - Holders(s'.requests, i, large)
         == Taken(s.backends[i], large) - Holders(s.requests, i, large)
    decreases |s.phase.rest|
  {
    hide AssignNext, LineSound, NoOvertaking, ArrivalsOrdered, WorkSound, Blocked, Taken, Holders;
    if s.phase.rest != [] {
      AssignNextSlots(cfg, s, i, large);
      AssignNextOrderly(cfg, s);
      AssignAllSlots(cfg, AssignNext(cfg, s), i, large);
    }
  }

  lemma SandwichAfterRelease(taken: nat, held: nat, extra: nat, w: nat, twice: bool)
    requires Sandwiched(taken, held, extra) && w <= 1 && w <= held
    ensures Sandwiched(Less(taken, if twice then 2 * w else w), held - w, if twice then extra + 1 else extra)
  {
  }

  /** Whether a returning call ends at backend `i`, goes on to it, or leaves it alone. */
  datatype Turnover = Ends(twice: bool) | Joins | Stays

  function TurnoverAt(cfg: GatewayConfig, s: State, id: nat, o: Outcome, i: nat): Turnover
    requires WellFormed(s) && Enabled(cfg, s, Return(id, o))
  {
    var r := s.requests[id];
    var next := Resume(cfg, s.backends, r.work.at, r.cl, r.stream, r.work.attempts, o, s.clock).next;
    if next == Retry(i) then Joins
    else if r.work.at == Some(i) && !next.OpenStream? then
      Ends(ReleasesTwice(cfg, s.backends, r.work.at, r.cl, r.stream, r.work.attempts, o, s.clock))
    else Stays
  }

  /** What a returning call does to a counter and to the holders it counts. */
  lemma ReturnEffect(cfg: GatewayConfig, s: State, id: nat, o: Outcome, i: nat, large: bool)
    requires WellFormed(s) && Enabled(cfg, s, Return(id, o)) && i < |s.backends|
    ensures var s', w := ReturnStep(cfg, s, id, o), Weight(s.requests[id].cl, large);
      var held, held' := Holders(s.requests, i, large), Holders(s'.requests, i, large);
      && |s'.backends| == |s.backends|
      && match TurnoverAt(cfg, s, id, o, i)
         case Joins => held' == held + w && Taken(s'.backends[i], large) == Taken(s.backends[i], large) + w
         case Ends(twice) =>
           && w <= held && held' == held - w
           && Taken(s'.backends[i], large) == Less(Taken(s.backends[i], large), if twice then 2 * w else w)
         case Stays => held' == held && Taken(s'.backends[i], large) == Taken(s.backends[i], large)
  {
    hide Resume, ReturnEvents, ReleasesTwice, Taken, Holders, Weight, Less;
    var r, bs, s' := s.requests[id], s.backends, ReturnStep(cfg, s, id, o);
    ResumeSlots(cfg, bs, r.work.at, r.cl, r.stream, r.work.attempts, o, s.clock, i, large);
    HoldersUpdate(s.requests, id, s'.requests[id], i, large);
    HoldersCoverOne(s.requests, id, i, large);
  }

  lemma ReturnSlots(cfg: GatewayConfig, s: State, id: nat, o: Outcome, i: nat, large: bool)
    requires WellFormed(s) && Enabled(cfg, s, Return(id, o)) && i < |s.backends|
    requires Sandwiched(Taken(s.backends[i], large), Holders(s.requests, i, large), s.extra[i])
    ensures var s' := ReturnStep(cfg, s, id, o);
      && |s'.backends| == |s.backends| == |s'.extra|
      && Sandwiched(Taken(s'.backends[i], large), Holders(s'.requests, i, large), s'.extra[i])
  {
    hide Resume, ReturnEvents, ReleasesTwice, Taken, Holders, Weight, Sandwiched, Less;
    var r, taken, held := s.requests[id], Taken(s.backends[i], large), Holders(s.requests, i, large);
    ReturnEffect(cfg, s, id, o, i, large);
    ResumeSlots(cfg, s.backends, r.work.at, r.cl, r.stream, r.work.attempts, o, s.clock, i, large);
    WeightAtMostOne(r.cl, large);
    match TurnoverAt(cfg, s, id, o, i)
    case Ends(twice) => SandwichAfterRelease(taken, held, s.extra[i], Weight(r.cl, large), twice);
    case Joins => SandwichShifts(taken, held, s.extra[i], Weight(r.cl, large));
    case Stays => SandwichShifts(taken, held, s.extra[i], 0);
  }

  lemma WeightAtMostOne(cl: RequestClass, large: bool)
    ensures Weight(cl, large) <= 1
  {
  }

  lemma SandwichShifts(taken: nat, held: nat, extra: nat, w: nat)
    requires Sandwiched(taken, held, extra)
    ensures Sandwiched(taken + w, held + w, extra)
  {
  }

  lemma StreamEndSlots(s: State, id: nat, e2eMs: real, i: nat, large: bool)
    requires WellFormed(s) && id < |s.requests| && s.requests[id].work.Relaying? && i < |s.backends|
    ensures var s', r := StreamEndStep(s, id, e2eMs), s.requests[id];
      var w := if r.work.at == Some(i) then Weight(r.cl, large) else 0;
      && |s'.backends| == |s.backends| && s'.extra == s.extra
      && Taken(s'.backends[i], large) == Less(Taken(s.backends[i], large), w)
      && Holders(s'.requests, i, large) == Holders(s.requests, i, large) - w
      && w <= 1 && w <= Holders(s.requests, i, large)
  {
    hide Holders;
    HoldersUpdate(s.requests, id, StreamEndStep(s, id, e2eMs).requests[id], i, large);
    HoldersCoverOne(s.requests, id, i, large);
  }

  /** The steps that touch neither counters nor holders. */
  lemma IdleSlots(cfg: GatewayConfig, s: State, a: Action, i: nat, large: bool)
    requires Orderly(cfg, s) && Enabled(cfg, s, a) && i < |s.backends|
    requires !a.Assign? && !a.Return? && !a.StreamEnd?
    ensures var s' := Step(cfg, s, a);
      && |s'.backends| == |s.backends| && s'.extra == s.extra
      && Taken(s'.backends[i], large) == Taken(s.backends[i], large)
      && Holders(s'.requests, i, large) == Holders(s.requests, i, large)
  {
    hide Resume, ReturnEvents, ReleasesTwice, AssignAll, LineSound, NoOvertaking, ArrivalsOrdered;
    var s' := Step(cfg, s, a);
    match a
    case Arrive(cl, stream) => assert s'.requests[..|s.requests|] == s.requests;
    case TimeOut(id) =>
      HoldersUpdate(s.requests, id, s'.requests[id], i, large);
    case Wake(id) => HoldersUpdate(s.requests, id, s'.requests[id], i, large);
    case _ =>
  }

  /** Every step keeps the sandwich for every backend and both counters. */
  lemma StepSandwiched(cfg: GatewayConfig, s: State, a: Action)
    requires Orderly(cfg, s) && Steady(s) && Enabled(cfg, s, a) && cfg.retry.maxAttempts >= 1 && SlotsSandwiched(s)
    ensures SlotsSandwiched(Step(cfg, s, a))
  {
    hide LineSound, NoOvertaking, ArrivalsOrdered, WorkSound, Taken, Holders, AssignAll, ReturnStep, StreamEndStep, ArriveStep, SweepStep, FreeCapacity;
    var s' := Step(cfg, s, a);
    StepKeepsCount(cfg, s, a);
    forall i, large | 0 <= i < |s.backends|
      ensures Sandwiched(Taken(s'.backends[i], large), Holders(s'.requests, i, large), s'.extra[i])
    {
      match a
      case Assign => AssignAllSlots(cfg, s, i, large);
      case Return(id, o) => ReturnSlots(cfg, s, id, o, i, large);
      case StreamEnd(id, e2e) =>
        StreamEndSlots(s, id, e2e, i, large);
        SandwichAfterRelease(Taken(s.backends[i], large), Holders(s.requests, i, large), s.extra[i],
                             Holders(s.requests, i, large) - Holders(s'.requests, i, large), false);
      case _ => IdleSlots(cfg, s, a, i, large);
    }
  }

  lemma {:induction false} AssignAllKeepsCount(cfg: GatewayConfig, s: State)
    requires WellFormed(s) && s.phase.Holding?
    ensures |AssignAll(cfg, s).backends| == |s.backends|
    decreases |s.phase.rest|
  {
    hide AssignOne, VerdictEvents, AfterVerdict;
    if s.phase.rest != [] {
      AssignAllKeepsCount(cfg, AssignNext(cfg, s));
    }
  }

  lemma StepKeepsCount(cfg: GatewayConfig, s: State, a: Action)
    requires WellFormed(s) && Enabled(cfg, s, a)
    ensures |Step(cfg, s, a).backends| == |s.backends| == |Step(cfg, s, a).extra|
  {
    hide AssignAll, FallbackOr, Resume, ReturnEvents, ReleasesTwice;
    if a.Assign? {
      AssignAllKeepsCount(cfg, s);
    }
  }

  lemma {:induction false} RunSandwiched(cfg: GatewayConfig, s: State, acts: seq<Action>)
    requires Orderly(cfg, s) && Steady(s) && cfg.retry.maxAttempts >= 1 && SlotsSandwiched(s) && Feasible(cfg, s, acts)
    ensures SlotsSandwiched(Run(cfg, s, acts))
    decreases |acts|
  {
    hide Step, SlotsSandwiched, LineSound, NoOvertaking, ArrivalsOrdered, WorkSound, Steady;
    if acts != [] {
      StepSandwiched(cfg, s, acts[0]);
      StepOrderly(cfg, s, acts[0]);
      RunSandwiched(cfg, Step(cfg, s, acts[0]), acts[1..]);
    }
  }

  lemma StartSandwiched(entries: seq<BackendEntry>, now: real)
    ensures SlotsSandwiched(Start(entries, now)) && SlotsExact(Start(entries, now))
  {
    var s := Start(entries, now);
    forall i | 0 <= i < |s.backends|
      ensures s.backends[i].inflight == 0 && s.backends[i].largeInflight == 0
    {
      FreshRow(entries, i, HealthConfig(1, 1, 0, 0.0));
    }
  }

  /**
   * Slot accounting of the code as written, on every run: neither counter ever exceeds the number of
   * requests that hold a slot of the backend, and each falls short of it by at most `extra`, the number of
   * times a retry found no other backend and the slot was given back twice. So a backend never counts
   * more than `hardLimit` slots, and never serves more than `hardLimit + extra` requests.
   */
  lemma SlotConservation(cfg: GatewayConfig, entries: seq<BackendEntry>, now: real, acts: seq<Action>, i: nat, large: bool)
    requires SaneHealth(cfg.health) && cfg.retry.maxAttempts >= 1 && Feasible(cfg, Start(entries, now), acts)
    requires i < |Run(cfg, Start(entries, now), acts).backends|
    ensures var s := Run(cfg, Start(entries, now), acts);
      && i < |s.extra|
      && Taken(s.backends[i], large) <= Holders(s.requests, i, large) <= Taken(s.backends[i], large) + s.extra[i]
      && s.backends[i].inflight <= Max(0, s.backends[i].hardLimit)
      && Holders(s.requests, i, large) <= Max(0, s.backends[i].hardLimit) + s.extra[i]
  {
    hide Run, Feasible, Holders, LineSound, NoOvertaking, ArrivalsOrdered, WorkSound;
    var start := Start(entries, now);
    StartOrderly(cfg, entries, now);
    StartSandwiched(entries, now);
    RunSandwiched(cfg, start, acts);
    BackendsStaySound(cfg, entries, now, acts, i);
    var s := Run(cfg, start, acts);
    assert Sandwiched(Taken(s.backends[i], large), Holders(s.requests, i, large), s.extra[i]);
    assert Sandwiched(Taken(s.backends[i], false), Holders(s.requests, i, false), s.extra[i]);
    LargeHoldersAreHolders(s.requests, i);
  }

  // ---------- when the counters are exact ----------

  /** A slot is given back twice while another request holds one of the same backend. */
  predicate Damages(cfg: GatewayConfig, s: State, a: Action)
    requires WellFormed(s) && Enabled(cfg, s, a)
  {
    a.Return? &&
    var r := s.requests[a.id];
    && r.work.at.Some?
    && ReleasesTwice(cfg, s.backends, r.work.at, r.cl, r.stream, r.work.attempts, a.outcome, s.clock)
    && Holders(s.requests, r.work.at.value, false) >= 2
  }

  /** A returning call that does no damage leaves exact counters exact. */
  lemma UndamagedReturn(cfg: GatewayConfig, s: State, id: nat, o: Outcome, i: nat, large: bool)
    requires WellFormed(s) && Enabled(cfg, s, Return(id, o)) && SlotsExact(s) && i < |s.backends|
    requires !Damages(cfg, s, Return(id, o))
    ensures var s' := ReturnStep(cfg, s, id, o);
      |s'.backends| == |s.backends| && Taken(s'.backends[i], large) == Holders(s'.requests, i, large)
  {
    hide Resume, ReturnStep, ReleasesTwice, Taken, Holders;
    ReturnEffect(cfg, s, id, o, i, large);
    LargeHoldersAreHolders(s.requests, i);
    assert Taken(s.backends[i], large) == Holders(s.requests, i, large);
  }

  /** A double release beside another holder leaves the counter of all slots short. */
  lemma DamagedReturn(cfg: GatewayConfig, s: State, id: nat, o: Outcome, i: nat)
    requires WellFormed(s) && Enabled(cfg, s, Return(id, o)) && SlotsExact(s) && i < |s.backends|
    requires Damages(cfg, s, Return(id, o)) && s.requests[id].work.at == Some(i)
    ensures var s' := ReturnStep(cfg, s, id, o);
      |s'.backends| == |s.backends| && Taken(s'.backends[i], false) < Holders(s'.requests, i, false)
  {
    hide Resume, ReturnStep, ReleasesTwice, Taken, Holders;
    var r := s.requests[id];
    ReturnEffect(cfg, s, id, o, i, false);
    ResumeSlots(cfg, s.backends, r.work.at, r.cl, r.stream, r.work.attempts, o, s.clock, i, false);
    assert Taken(s.backends[i], false) == Holders(s.requests, i, false);
  }

  /** From exact counters, a step leaves them exact if and only if it is not such a double release. */
  lemma StepExact(cfg: GatewayConfig, s: State, a: Action)
    requires Orderly(cfg, s) && Steady(s) && Enabled(cfg, s, a) && cfg.retry.maxAttempts >= 1 && SlotsExact(s)
    ensures SlotsExact(Step(cfg, s, a)) <==> !Damages(cfg, s, a)
  {
    hide LineSound, NoOvertaking, ArrivalsOrdered, Taken, Holders, AssignAll, ReturnStep, StreamEndStep, ArriveStep,
      SweepStep, FreeCapacity, ReleasesTwice;
    var s' := Step(cfg, s, a);
    StepKeepsCount(cfg, s, a);
    if Damages(cfg, s, a) {
      var i := s.requests[a.id].work.at.value;
      assert WorkSound(cfg, |s.backends|, s.requests[a.id]);
      DamagedReturn(cfg, s, a.id, a.outcome, i);
      assert Taken(s'.backends[i], false) != Holders(s'.requests, i, false);
    } else {
      forall i, large | 0 <= i < |s'.backends|
        ensures Taken(s'.backends[i], large) == Holders(s'.requests, i, large)
      {
        match a
        case Assign => AssignAllSlots(cfg, s, i, large);
        case Return(id, o) => UndamagedReturn(cfg, s, id, o, i, large);
        case StreamEnd(id, e2e) => StreamEndSlots(s, id, e2e, i, large);
        case _ => IdleSlots(cfg, s, a, i, large);
      }
    }
  }

  /** The counters are exact in every state of a run. */
  predicate AlwaysExact(cfg: GatewayConfig, s: State, acts: seq<Action>)
    requires WellFormed(s) && Feasible(cfg, s, acts)
    decreases |acts|
  {
    SlotsExact(s) && (acts == [] || AlwaysExact(cfg, Step(cfg, s, acts[0]), acts[1..]))
  }

  predicate NeverDamages(cfg: GatewayConfig, s: State, acts: seq<Action>)
    requires WellFormed(s) && Feasible(cfg, s, acts)
    decreases |acts|
  {
    acts == [] || (!Damages(cfg, s, acts[0]) && NeverDamages(cfg, Step(cfg, s, acts[0]), acts[1..]))
  }

  lemma {:induction false} ExactFrom(cfg: GatewayConfig, s: State, acts: seq<Action>)
    requires Orderly(cfg, s) && Steady(s) && cfg.retry.maxAttempts >= 1 && SlotsExact(s) && Feasible(cfg, s, acts)
    ensures AlwaysExact(cfg, s, acts) <==> NeverDamages(cfg, s, acts)
    decreases |acts|
  {
    hide Step, SlotsExact, Damages, LineSound, NoOvertaking, ArrivalsOrdered, WorkSound, Steady;
    if acts != [] {
      var s' := Step(cfg, s, acts[0]);
      StepExact(cfg, s, acts[0]);
      StepOrderly(cfg, s, acts[0]);
      if SlotsExact(s') {
        ExactFrom(cfg, s', acts[1..]);
      }
    }
  }

  /**
   * Exact conservation, and exactly when it holds: the counters equal the holders throughout a run if and
   * only if no retry of the run finds no other backend while someone else holds a slot of the failed one.
   */
  lemma ExactConservation(cfg: GatewayConfig, entries: seq<BackendEntry>, now: real, acts: seq<Action>)
    requires cfg.retry.maxAttempts >= 1 && Feasible(cfg, Start(entries, now), acts)
    ensures AlwaysExact(cfg, Start(entries, now), acts) <==> NeverDamages(cfg, Start(entries, now), acts)
  {
    StartOrderly(cfg, entries, now);
    StartSandwiched(entries, now);
    ExactFrom(cfg, Start(entries, now), acts);
  }
}
