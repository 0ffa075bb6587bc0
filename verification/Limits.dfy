/** When the hard limit of a backend really bounds the requests it serves. */
module Limits {
  import opened Types
  import opened BackendState
  import opened Health
  import opened Registry
  import opened Scoring
  import opened Dispatcher
  import opened Proxy
  import opened Trace
  import opened Gateway
  import opened History
  import opened Queueing
  import opened Slots
  import opened Schedules

  /** The requests that a backend configured so may serve at a time. */
  function Room(row: Backend): nat { if row.drained then 0 else Max(0, row.hardLimit) }

  /**
   * One failure leaves an error rate of a quarter at least, and every success keeps 0.85 of it. While one
   * request is still served, the `k - 1` others that were in flight can report `2 * k - 3` successes between
   * them: two for each stream that ends, one for the stream that has not.
   */
  predicate Contained(row: Backend, h: HealthConfig) {
    var k := Room(row);
    k < 2 || Term(0.25, Pow(0.85, 2 * k - 3)) > h.maxErrorRate
  }

  /** No double release can happen, or none lets a backend back in while anybody is served uncounted. */
  predicate Harmless(cfg: GatewayConfig, rows: seq<Backend>) {
    cfg.retry.maxAttempts < 2 || forall i :: 0 <= i < |rows| ==> Contained(rows[i], cfg.health)
  }

  /** Within a cap of one quarter or more, only backends that take one request at a time are contained. */
  lemma ContainedByOneSlot(row: Backend, h: HealthConfig)
    requires h.maxErrorRate >= 0.25
    ensures Contained(row, h) <==> Room(row) <= 1
  {
    if Room(row) >= 2 {
      PowDecreases(0.85, 0, 2 * Room(row) - 3);
      NoPower(0.85, 0, 1.0);
      TermGrows(0.25, Pow(0.85, 2 * Room(row) - 3), 1.0);
    }
  }

  // ---------- what a backend in deficit can still report ----------

  /** The successes that a holder can still report: a stream's headers and its end. */
  function CreditBy(r: Request, i: nat): nat {
    if !Holds(r, i) then 0 else if r.work.Calling? then 2 else 1
  }

  function Credits(rs: seq<Request>, i: nat): nat {
    if rs == [] then 0 else Credits(rs[..|rs| - 1], i) + CreditBy(rs[|rs| - 1], i)
  }

  lemma {:induction false} CreditsUpdate(rs: seq<Request>, id: nat, r: Request, i: nat)
    requires id < |rs|
    ensures Credits(rs[id := r], i) == Credits(rs, i) - CreditBy(rs[id], i) + CreditBy(r, i)
  {
    hide CreditBy;
    var n := |rs| - 1;
    if id < n {
      assert rs[id := r][..n] == rs[..n][id := r];
      CreditsUpdate(rs[..n], id, r, i);
    } else {
      assert rs[id := r][..n] == rs[..n];
    }
  }

  lemma {:induction false} CreditsBound(rs: seq<Request>, i: nat)
    ensures Holders(rs, i, false) <= Credits(rs, i) <= 2 * Holders(rs, i, false)
  {
    if rs != [] {
      CreditsBound(rs[..|rs| - 1], i);
    }
  }

  /** The error rate once all but one of the successes that can still be reported have been. */
  function Reach(rate: real, credit: nat): real
    requires credit >= 1
  {
    Term(rate, Pow(0.85, credit - 1))
  }

  /** Every holder is counted, or the backend is shut out for as long as some holder is not. */
  predicate Level(taken: nat, held: nat, credit: nat, rate: real, cap: real, room: nat) {
    taken == held || (1 <= held < room && taken <= held <= credit && Reach(rate, credit) > cap)
  }

  lemma TermSwap(x: real, y: real)
    ensures Term(x, y) == Term(y, x)
  {
  }

  lemma ReachGrows(rate: real, rate': real, credit: nat, credit': nat)
    requires 0.0 <= rate <= rate' && 1 <= credit' <= credit
    ensures Reach(rate, credit) <= Reach(rate', credit')
  {
    hide Term, Pow;
    var p, p' := Pow(0.85, credit - 1), Pow(0.85, credit' - 1);
    PowDecreases(0.85, credit' - 1, credit - 1);
    TermGrows(rate, p, p');
    TermSwap(rate, p');
    TermSwap(rate', p');
    TermGrows(p', rate, rate');
  }

  /** A success: one less to come, and the rate is where it was going to be. */
  lemma ReachAfterSuccess(rate: real, credit: nat)
    requires credit >= 2
    ensures Reach(0.85 * rate, credit - 1) == Reach(rate, credit)
  {
    var p := Pow(0.85, credit - 2);
    PowNext(0.85, credit - 2);
    Associate(0.85, rate, p);
    Associate(0.85, p, rate);
    TermSwap(rate, Pow(0.85, credit - 1));
    TermSwap(rate, p);
  }

  lemma ReachBelowRate(rate: real, credit: nat)
    requires 0.0 <= rate && credit >= 1
    ensures Reach(rate, credit) <= rate
  {
    hide Term, Pow;
    NoPower(0.85, 0, rate);
    ReachGrows(rate, rate, credit, 1);
    TermSwap(rate, Pow(0.85, 0));
  }

  /** Within the cap every holder is counted. */
  lemma LevelWithinCap(taken: nat, held: nat, credit: nat, rate: real, cap: real, room: nat)
    requires Level(taken, held, credit, rate, cap, room) && 0.0 <= rate <= cap
    ensures taken == held
  {
    hide Reach;
    if taken != held {
      ReachBelowRate(rate, credit);
    }
  }

  /** The headers of a stream: a success, and its request stays. */
  lemma LevelAfterHeaders(taken: nat, held: nat, credit: nat, rate: real, cap: real, room: nat)
    requires Level(taken, held, credit, rate, cap, room) && credit >= 2 && credit - 1 >= held
    ensures Level(taken, held, credit - 1, 0.85 * rate, cap, room)
  {
    hide Reach;
    ReachAfterSuccess(rate, credit);
  }

  /** A request that leaves, with one release: at most one success, and at least one less to come. */
  lemma LevelAfterEnd(taken: nat, held: nat, credit: nat, rate: real, cap: real, room: nat, credit': nat, rate': real)
    requires Level(taken, held, credit, rate, cap, room) && held >= 1 && 0.0 <= rate
    requires held - 1 <= credit' < credit && rate' >= 0.85 * rate
    ensures Level(Less(taken, 1), held - 1, credit', rate', cap, room)
  {
    hide Reach;
    if taken != held && held > 1 {
      ReachAfterSuccess(rate, credit);
      ReachGrows(0.85 * rate, rate', credit - 1, credit');
    }
  }

  /** A request that fails and leaves with two releases. */
  lemma LevelAfterDouble(taken: nat, held: nat, credit: nat, rate: real, cap: real, row: Backend, h: HealthConfig, rate': real)
    requires Level(taken, held, credit, rate, cap, Room(row)) && held >= 1 && 0.0 <= rate && taken <= Room(row)
    requires Contained(row, h) && cap == h.maxErrorRate
    requires credit >= 2 && held - 1 <= credit - 2 <= 2 * (held - 1)
    requires rate' >= 0.85 * rate && rate' >= 0.25
    ensures Level(Less(taken, 2), held - 1, credit - 2, rate', cap, Room(row))
  {
    hide Term, Pow;
    if held > 1 {
      if taken == held {
        ReachGrows(0.25, rate', 2 * Room(row) - 2, credit - 2);
      } else {
        ReachAfterSuccess(rate, credit);
        ReachGrows(0.85 * rate, rate', credit - 1, credit - 2);
      }
    }
  }

  // ---------- what holds of a backend in every state of a run ----------

  lemma {:induction false} DrainedTakesNothing(b: Backend, log: seq<Event>, h: HealthConfig, from: real)
    requires Legal(b, log, h, from) && b.drained
    ensures var end := Replay(b, log, h); end.drained && end.inflight <= b.inflight
  {
    if log != [] {
      DrainedTakesNothing(b, log[..|log| - 1], h, from);
    }
  }

  /** The slot counter and the error rate of a backend, in any state of a run. */
  lemma CounterWithinRow(cfg: GatewayConfig, entries: seq<BackendEntry>, birth: real, s: State, i: nat)
    requires SaneHealth(cfg.health) && Historied(cfg, Rows(entries), birth, s) && i < |s.backends|
    ensures var b, row := s.backends[i], Rows(entries)[i];
      b.hardLimit == row.hardLimit && b.inflight <= Room(row) && 0.0 <= b.errorRate < 1.0
  {
    hide Replay, Legal;
    var row, h := Rows(entries)[i], cfg.health;
    FreshRow(entries, i, h);
    assert Logged(row, s.logs[i], s.backends[i], h, birth, s.clock);
    CircuitStaysSound(row, s.logs[i], h, birth);
    ErrorRateStaysBelowOne(row, s.logs[i], h);
    if row.drained {
      DrainedTakesNothing(row, s.logs[i], h, birth);
    }
  }

  lemma SameCount(cfg: GatewayConfig, entries: seq<BackendEntry>, birth: real, s: State)
    requires Historied(cfg, Rows(entries), birth, s)
    ensures |s.backends| == |Rows(entries)|
  {
  }

  predicate LevelAt(cfg: GatewayConfig, s: State, row: Backend, i: nat)
    requires i < |s.backends|
  {
    Level(s.backends[i].inflight, Holders(s.requests, i, false), Credits(s.requests, i), s.backends[i].errorRate,
          cfg.health.maxErrorRate, Room(row))
  }

  lemma AssignNextLevel(cfg: GatewayConfig, s: State, row: Backend, i: nat)
    requires Orderly(cfg, s) && s.phase.Holding? && s.phase.rest != [] && i < |s.backends|
    requires LevelAt(cfg, s, row, i) && s.backends[i].errorRate >= 0.0
    ensures var s' := AssignNext(cfg, s); i < |s'.backends| && LevelAt(cfg, s', row, i)
  {
    hide Place, VerdictEvents, TooOld, Holders, Credits, Level, LineSound, NoOvertaking, ArrivalsOrdered, CooledDown, Line;
    var s', id := AssignNext(cfg, s), Head(s);
    var r, b := s.requests[id], s.backends[i];
    AssignNextSlots(cfg, s, i, false);
    CreditsUpdate(s.requests, id, s'.requests[id], i);
    PlaceTakesOneEligibleSlot(cfg, s.backends, r.cl, s.clock, None);
    assert WorkSound(cfg, |s.backends|, r);
    if s'.backends[i].inflight != b.inflight {
      LevelWithinCap(b.inflight, Holders(s.requests, i, false), Credits(s.requests, i), b.errorRate, cfg.health.maxErrorRate, Room(row));
      Even(s'.backends[i].inflight, Holders(s'.requests, i, false), Credits(s'.requests, i), s'.backends[i].errorRate, cfg.health.maxErrorRate, Room(row));
    }
  }

  lemma Even(taken: nat, held: nat, credit: nat, rate: real, cap: real, room: nat)
    requires taken == held
    ensures Level(taken, held, credit, rate, cap, room)
  {
  }

  lemma {:induction false} AssignAllLevel(cfg: GatewayConfig, entries: seq<BackendEntry>, birth: real, s: State, i: nat)
    requires SaneHealth(cfg.health) && Orderly(cfg, s) && Blocked(cfg, s) && cfg.retry.maxAttempts >= 1 && s.phase.Holding?
    requires Historied(cfg, Rows(entries), birth, s) && i < |s.backends| && LevelAt(cfg, s, Rows(entries)[i], i)
    ensures var s' := AssignAll(cfg, s); i < |s'.backends| && LevelAt(cfg, s', Rows(entries)[i], i)
    decreases |s.phase.rest|
  {
    hide AssignNext, LineSound, NoOvertaking, ArrivalsOrdered, WorkSound, Blocked, LevelAt, Historied;
    SameCount(cfg, entries, birth, s);
    if s.phase.rest != [] {
      CounterWithinRow(cfg, entries, birth, s, i);
      AssignNextLevel(cfg, s, Rows(entries)[i], i);
      AssignNextOrderly(cfg, s);
      AssignNextHistoried(cfg, Rows(entries), birth, s);
      AssignAllLevel(cfg, entries, birth, AssignNext(cfg, s), i);
    }
  }

  /** Only the backend that was called has its error rate moved by a returning call; it is eligible if the call goes on to it. */
  lemma RateAfterReturn(cfg: GatewayConfig, bs: seq<Backend>, at: Option<nat>, cl: RequestClass, stream: bool,
                        attempts: nat, o: Outcome, now: real, i: nat)
    requires i < |bs|
    ensures var res := Resume(cfg, bs, at, cl, stream, attempts, o, now);
      && res.backends[i].errorRate == (
           if at != Some(i) then bs[i].errorRate
           else if Succeeded(o) then 0.85 * bs[i].errorRate else 0.25 + 0.75 * bs[i].errorRate)
      && (res.next == Retry(i) ==> bs[i].errorRate <= cfg.health.maxErrorRate)
      && (res.next.OpenStream? ==> Succeeded(o))
      && (ReleasesTwice(cfg, bs, at, cl, stream, attempts, o, now) ==> !Succeeded(o) && attempts < cfg.retry.maxAttempts)
  {
    hide Resume, Place, CooledDown;
    ResumeCases(cfg, bs, at, cl, stream, attempts, o, now);
    var rel := Released(Noted(bs, at, o, stream, cfg.health, now), at, cl);
    PlaceTakesOneEligibleSlot(cfg, rel, cl, now, Avoid(bs, at));
    OthersUntouched(bs, at, o, cl, stream, cfg.health, now, i);
  }

  /** What a returning call does to the numbers of a backend. */
  lemma ReturnNumbers(cfg: GatewayConfig, s: State, id: nat, o: Outcome, i: nat)
    requires Orderly(cfg, s) && Enabled(cfg, s, Return(id, o)) && i < |s.backends| && 0.0 <= s.backends[i].errorRate < 1.0
    ensures var s' := ReturnStep(cfg, s, id, o);
      var held, credit, rate := Holders(s.requests, i, false), Credits(s.requests, i), s.backends[i].errorRate;
      var held', credit' := Holders(s'.requests, i, false), Credits(s'.requests, i);
      && |s'.backends| == |s.backends|
      && var rate' := s'.backends[i].errorRate;
         match TurnoverAt(cfg, s, id, o, i)
         case Joins => rate <= cfg.health.maxErrorRate && s'.backends[i].inflight == s.backends[i].inflight + 1 && held' == held + 1
         case Ends(twice) =>
           && held >= 1 && held' == held - 1 && credit >= 2 && credit' == credit - 2 && held' <= credit' <= 2 * held'
           && rate' >= 0.85 * rate && (twice ==> rate' >= 0.25 && cfg.retry.maxAttempts >= 2)
           && s'.backends[i].inflight == Less(s.backends[i].inflight, if twice then 2 else 1)
         case Stays =>
           && held' == held && s'.backends[i].inflight == s.backends[i].inflight
           && ((credit' == credit && rate' == rate)
               || (credit >= 2 && credit' == credit - 1 && held <= credit' && rate' == 0.85 * rate))
  {
    hide Resume, ReturnEvents, ReleasesTwice, Holders, Credits, LineSound, NoOvertaking, ArrivalsOrdered, Line;
    var r, s' := s.requests[id], ReturnStep(cfg, s, id, o);
    ReturnEffect(cfg, s, id, o, i, false);
    CreditsUpdate(s.requests, id, s'.requests[id], i);
    CreditsBound(s.requests, i);
    CreditsBound(s'.requests, i);
    RateAfterReturn(cfg, s.backends, r.work.at, r.cl, r.stream, r.work.attempts, o, s.clock, i);
    ResumeSlots(cfg, s.backends, r.work.at, r.cl, r.stream, r.work.attempts, o, s.clock, i, false);
    assert WorkSound(cfg, |s.backends|, r);
  }

  lemma ReturnLevel(cfg: GatewayConfig, s: State, id: nat, o: Outcome, row: Backend, i: nat)
    requires Orderly(cfg, s) && Enabled(cfg, s, Return(id, o)) && i < |s.backends|
    requires LevelAt(cfg, s, row, i) && 0.0 <= s.backends[i].errorRate < 1.0 && s.backends[i].inflight <= Room(row)
    requires cfg.retry.maxAttempts < 2 || Contained(row, cfg.health)
    ensures var s' := ReturnStep(cfg, s, id, o); i < |s'.backends| && LevelAt(cfg, s', row, i)
  {
    hide ReturnStep, TurnoverAt, Holders, Credits, Level, Contained, LineSound, NoOvertaking, ArrivalsOrdered, WorkSound;
    var b, s', cap := s.backends[i], ReturnStep(cfg, s, id, o), cfg.health.maxErrorRate;
    var held, credit, credit' := Holders(s.requests, i, false), Credits(s.requests, i), Credits(s'.requests, i);
    ReturnNumbers(cfg, s, id, o, i);
    var rate' := s'.backends[i].errorRate;
    match TurnoverAt(cfg, s, id, o, i)
    case Joins =>
      LevelWithinCap(b.inflight, held, credit, b.errorRate, cap, Room(row));
      Even(s'.backends[i].inflight, Holders(s'.requests, i, false), credit', rate', cap, Room(row));
    case Ends(twice) =>
      if twice {
        LevelAfterDouble(b.inflight, held, credit, b.errorRate, cap, row, cfg.health, rate');
      } else {
        LevelAfterEnd(b.inflight, held, credit, b.errorRate, cap, Room(row), credit', rate');
      }
    case Stays =>
      if credit' != credit || rate' != b.errorRate {
        LevelAfterHeaders(b.inflight, held, credit, b.errorRate, cap, Room(row));
      }
  }

  lemma StreamEndLevel(cfg: GatewayConfig, s: State, id: nat, e2eMs: real, row: Backend, i: nat)
    requires WellFormed(s) && id < |s.requests| && s.requests[id].work.Relaying? && i < |s.backends|
    requires LevelAt(cfg, s, row, i) && 0.0 <= s.backends[i].errorRate
    ensures var s' := StreamEndStep(s, id, e2eMs); i < |s'.backends| && LevelAt(cfg, s', row, i)
  {
    hide Holders, Credits, Level;
    var r, b, s', cap := s.requests[id], s.backends[i], StreamEndStep(s, id, e2eMs), cfg.health.maxErrorRate;
    StreamEndSlots(s, id, e2eMs, i, false);
    CreditsUpdate(s.requests, id, s'.requests[id], i);
    CreditsBound(s'.requests, i);
    if r.work.at == Some(i) {
      LevelAfterEnd(b.inflight, Holders(s.requests, i, false), Credits(s.requests, i), b.errorRate, cap, Room(row),
                    Credits(s'.requests, i), s'.backends[i].errorRate);
    }
  }

  /** The steps that neither take nor give a slot. */
  lemma IdleLevel(cfg: GatewayConfig, s: State, a: Action, row: Backend, i: nat)
    requires Orderly(cfg, s) && Enabled(cfg, s, a) && i < |s.backends|
    requires !a.Assign? && !a.Return? && !a.StreamEnd? && LevelAt(cfg, s, row, i)
    ensures var s' := Step(cfg, s, a); i < |s'.backends| && LevelAt(cfg, s', row, i)
  {
    hide Holders, Level, LineSound, NoOvertaking, ArrivalsOrdered, CooledDown, Line;
    var s' := Step(cfg, s, a);
    IdleSlots(cfg, s, a, i, false);
    match a
    case Arrive(_, _) => assert s'.requests[..|s.requests|] == s.requests;
    case TimeOut(id) => CreditsUpdate(s.requests, id, s'.requests[id], i);
    case Wake(id) => CreditsUpdate(s.requests, id, s'.requests[id], i);
    case _ =>
  }

  /** Every step leaves every backend level. */
  lemma StepLevel(cfg: GatewayConfig, entries: seq<BackendEntry>, birth: real, s: State, a: Action, i: nat)
    requires SaneHealth(cfg.health) && cfg.retry.maxAttempts >= 1 && Orderly(cfg, s) && Steady(s) && Enabled(cfg, s, a)
    requires Historied(cfg, Rows(entries), birth, s) && Harmless(cfg, Rows(entries))
    requires i < |s.backends| && LevelAt(cfg, s, Rows(entries)[i], i)
    ensures var s' := Step(cfg, s, a); i < |s'.backends| && LevelAt(cfg, s', Rows(entries)[i], i)
  {
    hide LevelAt, Historied, LineSound, NoOvertaking, ArrivalsOrdered, WorkSound, AssignAll, ReturnStep, StreamEndStep,
      Contained, FreeCapacity, ArriveStep, SweepStep;
    SameCount(cfg, entries, birth, s);
    CounterWithinRow(cfg, entries, birth, s, i);
    match a
    case Assign => AssignAllLevel(cfg, entries, birth, s, i);
    case Return(id, o) => ReturnLevel(cfg, s, id, o, Rows(entries)[i], i);
    case StreamEnd(id, e2e) => StreamEndLevel(cfg, s, id, e2e, Rows(entries)[i], i);
    case _ => IdleLevel(cfg, s, a, Rows(entries)[i], i);
  }

  lemma {:induction false} RunLevel(cfg: GatewayConfig, entries: seq<BackendEntry>, birth: real, s: State, acts: seq<Action>, i: nat)
    requires SaneHealth(cfg.health) && cfg.retry.maxAttempts >= 1 && Orderly(cfg, s) && Steady(s) && Feasible(cfg, s, acts)
    requires Historied(cfg, Rows(entries), birth, s) && Harmless(cfg, Rows(entries))
    requires i < |s.backends| && LevelAt(cfg, s, Rows(entries)[i], i)
    ensures var s' := Run(cfg, s, acts);
      Historied(cfg, Rows(entries), birth, s') && i < |s'.backends| == |Rows(entries)| && LevelAt(cfg, s', Rows(entries)[i], i)
    decreases |acts|
  {
    hide Step, LevelAt, Historied, Harmless, LineSound, NoOvertaking, ArrivalsOrdered, WorkSound, Steady;
    SameCount(cfg, entries, birth, s);
    if acts != [] {
      StepLevel(cfg, entries, birth, s, acts[0], i);
      StepOrderly(cfg, s, acts[0]);
      StepHistoried(cfg, Rows(entries), birth, s, acts[0]);
      RunLevel(cfg, entries, birth, Step(cfg, s, acts[0]), acts[1..], i);
    }
  }

  /** A run after which backend `i` serves more requests than its hard limit. */
  ghost predicate Overfull(cfg: GatewayConfig, entries: seq<BackendEntry>, birth: real, acts: seq<Action>, i: nat) {
    i < |Rows(entries)| && Feasible(cfg, Start(entries, birth), acts)
    && Holders(Run(cfg, Start(entries, birth), acts).requests, i, false) > Max(0, Rows(entries)[i].hardLimit)
  }

  /** In harmless configurations no run makes a backend serve more than its room: a drained one nobody, another its hard limit. */
  lemma HoldersWithinRoom(cfg: GatewayConfig, entries: seq<BackendEntry>, birth: real, acts: seq<Action>, i: nat)
    requires SaneHealth(cfg.health) && cfg.retry.maxAttempts >= 1 && Harmless(cfg, Rows(entries))
    requires i < |Rows(entries)| && Feasible(cfg, Start(entries, birth), acts)
    ensures Holders(Run(cfg, Start(entries, birth), acts).requests, i, false) <= Room(Rows(entries)[i])
  {
    hide Run, Feasible, Historied, LineSound, NoOvertaking, ArrivalsOrdered, WorkSound, Harmless, Holders, Credits, Reach;
    var start := Start(entries, birth);
    StartOrderly(cfg, entries, birth);
    StartSandwiched(entries, birth);
    StartHistoried(cfg, entries, birth);
    assert Taken(start.backends[i], false) == Holders(start.requests, i, false);
    RunLevel(cfg, entries, birth, start, acts, i);
    CounterWithinRow(cfg, entries, birth, Run(cfg, start, acts), i);
  }

  /** With a single attempt, or with every backend contained, the hard limit holds on every run. */
  lemma HardLimitKept(cfg: GatewayConfig, entries: seq<BackendEntry>, birth: real, acts: seq<Action>, i: nat)
    requires SaneHealth(cfg.health) && cfg.retry.maxAttempts >= 1 && Harmless(cfg, Rows(entries))
    ensures !Overfull(cfg, entries, birth, acts, i)
  {
    hide Run, Feasible, Harmless, Holders;
    if i < |Rows(entries)| && Feasible(cfg, Start(entries, birth), acts) {
      HoldersWithinRoom(cfg, entries, birth, acts, i);
    }
  }

  // ---------- the settings that do not keep the limit ----------

  /** Every circuit is closed and every backend within the error cap. */
  predicate Calm(cfg: GatewayConfig, s: State) {
    && Quiet(s)
    && forall i :: 0 <= i < |s.backends| ==> s.backends[i].circuit.Closed? && s.backends[i].errorRate <= cfg.health.maxErrorRate
  }

  /** A first attempt of a stream, waiting for its headers or over. */
  predicate Fresh(r: Request) {
    r.stream && r.cl == SmallChat && !r.work.Relaying? && (r.work.Calling? ==> r.work.attempts == 1)
  }

  predicate AllFresh(rs: seq<Request>) {
    forall id :: 0 <= id < |rs| ==> Fresh(rs[id])
  }

  /** Only slots were taken, and the counters moved with the holders. */
  predicate Topped(s: State, s': State) {
    && |s'.backends| == |s.backends| && s'.clock == s.clock
    && forall i :: 0 <= i < |s.backends| ==>
      var b, b' := s.backends[i], s'.backends[i];
      && b' == b.(inflight := b'.inflight, dispatchTimes := b'.dispatchTimes)
      && Holders(s'.requests, i, false) - b'.inflight == Holders(s.requests, i, false) - b.inflight
  }

  lemma HoldersSnoc(rs: seq<Request>, r: Request, i: nat)
    ensures Holders(rs + [r], i, false) == Holders(rs, i, false) + (if Holds(r, i) then 1 else 0)
  {
    hide Holds;
    assert (rs + [r])[..|rs|] == rs;
  }

  lemma ServingTops(cfg: GatewayConfig, s: State, s': State, p: nat)
    requires Calm(cfg, s) && Assigns(cfg, s, s', SmallChat, true, p)
    ensures Calm(cfg, s') && Topped(s, s') && (AllFresh(s.requests) ==> AllFresh(s'.requests))
  {
    hide Place, PlaceEvents, Holders, Eligible;
    PlaceTakesOneEligibleSlot(cfg, s.backends, SmallChat, s.clock, None);
    forall i | 0 <= i < |s.backends|
      ensures var b, b' := s.backends[i], s'.backends[i];
        && b' == b.(inflight := b'.inflight, dispatchTimes := b'.dispatchTimes)
        && Holders(s'.requests, i, false) - b'.inflight == Holders(s.requests, i, false) - b.inflight
    {
      HoldersSnoc(s.requests, s'.requests[|s.requests|], i);
    }
  }

  lemma ToppedTwice(s: State, s1: State, s2: State)
    requires Topped(s, s1) && Topped(s1, s2)
    ensures Topped(s, s2)
  {
    hide Holders;
    forall i | 0 <= i < |s.backends|
      ensures s2.backends[i] == s.backends[i].(inflight := s2.backends[i].inflight, dispatchTimes := s2.backends[i].dispatchTimes)
    {
      var b, b1, b2 := s.backends[i], s1.backends[i], s2.backends[i];
      assert b2 == b1.(inflight := b2.inflight, dispatchTimes := b2.dispatchTimes);
      assert b1 == b.(inflight := b1.inflight, dispatchTimes := b1.dispatchTimes);
    }
  }

  /** Streams arrive and are served until no backend is eligible. */
  lemma {:induction false} FillUp(cfg: GatewayConfig, s: State) returns (acts: seq<Action>)
    requires Obliging(cfg) && Calm(cfg, s)
    ensures Feasible(cfg, s, acts)
    ensures var s' := Run(cfg, s, acts);
      && Calm(cfg, s') && Topped(s, s') && FreeCapacity(s'.backends, cfg.health, s'.clock) == 0
      && (AllFresh(s.requests) ==> AllFresh(s'.requests))
    decreases FreeCapacity(s.backends, cfg.health, s.clock)
  {
    hide Place, PlaceEvents, FreeCapacity, Run, Feasible, Topped, AllFresh;
    acts := [];
    RunOfNone(cfg, s);
    ToppedByNothing(s);
    if FreeCapacity(s.backends, cfg.health, s.clock) > 0 {
      var s', p := ServeOne(cfg, s, SmallChat, true);
      ServingTops(cfg, s, s', p);
      PlaceSpendsOne(cfg, s.backends, SmallChat, s.clock);
      var more := FillUp(cfg, s');
      RunConcat(cfg, s, Serving(SmallChat, true), more);
      ToppedTwice(s, s', Run(cfg, s', more));
      acts := Serving(SmallChat, true) + more;
    }
  }

  lemma ToppedByNothing(s: State)
    ensures Topped(s, s)
  {
  }

  /** A calm backend that is not drained and has no free slot counts at least its hard limit. */
  lemma FullCount(cfg: GatewayConfig, s: State, i: nat)
    requires Calm(cfg, s) && FreeCapacity(s.backends, cfg.health, s.clock) == 0
    requires i < |s.backends| && !s.backends[i].drained
    ensures s.backends[i].inflight >= s.backends[i].hardLimit
  {
    NoFreeCapacity(s.backends, cfg.health, s.clock);
    assert !Eligible(s.backends[i], cfg.health, s.clock);
  }

  lemma {:induction false} SomeHolder(rs: seq<Request>, i: nat) returns (id: nat)
    requires Holders(rs, i, false) > 0
    ensures id < |rs| && Holds(rs[id], i)
  {
    hide Holds;
    var n := |rs| - 1;
    if Holds(rs[n], i) {
      id := n;
    } else {
      id := SomeHolder(rs[..n], i);
    }
  }

  /** The backend called, after a timeout in the body of an error answer that nobody else can retry. */
  function Struck(b: Backend, h: HealthConfig, now: real): Backend
    requires b.inflight >= 2
  {
    AfterUpdateFailure(AfterFailure(b, h, now)).(inflight := b.inflight - 2)
  }

  /** Nothing else is eligible: the slot is given back twice. */
  lemma NoAlternative(cfg: GatewayConfig, bs: seq<Backend>, i: nat, now: real)
    requires cfg.retry.maxAttempts >= 2 && i < |bs| && bs[i].inflight >= 2
    requires forall j :: 0 <= j < |bs| ==> bs[j].circuit.Closed? && !Eligible(bs[j], cfg.health, now)
    ensures var res := Resume(cfg, bs, Some(i), SmallChat, true, 1, BodyTransport, now);
      res.next == Answer(Unreachable) && res.backends == bs[i := Struck(bs[i], cfg.health, now)]
  {
    hide Place, Eligible, Resume, AfterFailure;
    var o, h := BodyTransport, cfg.health;
    ResumeCases(cfg, bs, Some(i), SmallChat, true, 1, o, now);
    var noted := Noted(bs, Some(i), o, true, h, now);
    var rel := Released(noted, Some(i), SmallChat);
    FailureKeepsRest(bs[i], h, now);
    PlaceTakesOneEligibleSlot(cfg, rel, SmallChat, now, Avoid(bs, Some(i)));
    var pl := Place(cfg, rel, SmallChat, now, Avoid(bs, Some(i)));
    assert pl.target.None?;
    assert pl.backends == rel;
  }

  lemma FailureKeepsRest(b: Backend, h: HealthConfig, now: real)
    ensures var c := AfterFailure(b, h, now);
      && c.name == b.name && c.inflight == b.inflight && c.largeInflight == b.largeInflight
      && c.hardLimit == b.hardLimit && c.drained == b.drained && c.errorRate == b.errorRate
      && (b.circuit.Closed? ==> c.circuit.Closed? || (c.circuit.Open? && c.openedAt == Some(now)))
  {
  }

  /** One stream of backend `i` fails with nowhere to go. */
  lemma FailOne(cfg: GatewayConfig, s: State, id: nat, i: nat)
    requires cfg.retry.maxAttempts >= 2 && Calm(cfg, s) && FreeCapacity(s.backends, cfg.health, s.clock) == 0
    requires AllFresh(s.requests) && id < |s.requests| && i < |s.backends| && Holds(s.requests[id], i)
    requires s.backends[i].inflight >= 2
    ensures Enabled(cfg, s, Return(id, BodyTransport))
    ensures var s' := Step(cfg, s, Return(id, BodyTransport));
      && Quiet(s') && s'.clock == s.clock && AllFresh(s'.requests)
      && s'.backends == s.backends[i := Struck(s.backends[i], cfg.health, s.clock)]
      && Holders(s'.requests, i, false) == Holders(s.requests, i, false) - 1
  {
    hide Resume, ReturnEvents, ReleasesTwice, Holders, Eligible, FreeCapacity, Struck;
    NoFreeCapacity(s.backends, cfg.health, s.clock);
    NoAlternative(cfg, s.backends, i, s.clock);
    HoldersUpdate(s.requests, id, Step(cfg, s, Return(id, BodyTransport)).requests[id], i, false);
  }

  /** Wait out the cooldown and sweep: an open circuit becomes half-open. */
  lemma CoolDown(cfg: GatewayConfig, s: State, i: nat) returns (acts: seq<Action>)
    requires SaneHealth(cfg.health) && Quiet(s) && i < |s.backends|
    requires forall j :: 0 <= j < |s.backends| && j != i ==> s.backends[j].circuit.Closed?
    requires s.backends[i].circuit.Closed? || (s.backends[i].circuit.Open? && s.backends[i].openedAt == Some(s.clock))
    ensures Feasible(cfg, s, acts)
    ensures var s' := Run(cfg, s, acts);
      && Quiet(s') && s'.requests == s.requests && |s'.backends| == |s.backends|
      && (forall j :: 0 <= j < |s.backends| && j != i ==> s'.backends[j] == s.backends[j])
      && !s'.backends[i].circuit.Open?
      && s'.backends[i] == s.backends[i].(circuit := s'.backends[i].circuit, probes := s'.backends[i].probes, failures := s'.backends[i].failures)
  {
    hide Feasible, Run;
    var pass := Advance(CooldownSec(cfg.health));
    var s1 := Step(cfg, s, pass);
    RunOfTwo(cfg, s, pass, Sweep);
    acts := [pass, Sweep];
  }

  // ---------- successes bring the failed backend back ----------

  /** Backend `i` counts `m` of its `m + 1` requests, all of them streams that wait for their headers. */
  predicate Draining(s: State, i: nat, m: nat) {
    && Quiet(s) && i < |s.backends| && !s.backends[i].circuit.Open?
    && s.backends[i].inflight == m && Holders(s.requests, i, false) == m + 1
    && AllFresh(s.requests)
  }

  /** Nothing but backend `i` differs, and there only counters, metrics and circuit. */
  predicate OnlyAt(s: State, s': State, i: nat) {
    && i < |s.backends| == |s'.backends|
    && (forall j :: 0 <= j < |s.backends| && j != i ==> s'.backends[j] == s.backends[j])
    && s'.backends[i].hardLimit == s.backends[i].hardLimit && s'.backends[i].drained == s.backends[i].drained
  }

  /** The headers of a stream of backend `i`: its circuit closes and the request stays. */
  lemma Headers200(cfg: GatewayConfig, s: State, id: nat, i: nat, m: nat)
    requires Draining(s, i, m) && id < |s.requests| && Holds(s.requests[id], i)
    ensures Enabled(cfg, s, Return(id, Headers(200, 0.0)))
    ensures var s' := Step(cfg, s, Return(id, Headers(200, 0.0)));
      && Quiet(s') && OnlyAt(s, s', i) && s'.backends[i].circuit.Closed?
      && s'.backends[i].inflight == m && s'.backends[i].errorRate == 0.85 * s.backends[i].errorRate
      && Holders(s'.requests, i, false) == m + 1
      && s'.requests == s.requests[id := s.requests[id].(work := Relaying(Some(i)))]
  {
    hide Resume, ReturnEvents, ReleasesTwice, Holders;
    var o, r := Headers(200, 0.0), s.requests[id];
    ResumeCases(cfg, s.backends, Some(i), SmallChat, true, 1, o, s.clock);
    HoldersUpdate(s.requests, id, r.(work := Relaying(Some(i))), i, false);
    assert !ReleasesTwice(cfg, s.backends, Some(i), SmallChat, true, 1, o, s.clock) by {
      SuccessReleasesOnce(cfg, s.backends, Some(i), s.clock);
    }
  }

  lemma SuccessReleasesOnce(cfg: GatewayConfig, bs: seq<Backend>, at: Option<nat>, now: real)
    ensures !ReleasesTwice(cfg, bs, at, SmallChat, true, 1, Headers(200, 0.0), now)
  {
  }

  /** The end of that stream. */
  lemma StreamOver(cfg: GatewayConfig, s: State, id: nat, i: nat, m: nat)
    requires Quiet(s) && i < |s.backends| && id < |s.requests| && m >= 1
    requires s.requests[id].work == Relaying(Some(i)) && s.requests[id].stream && s.requests[id].cl == SmallChat
    requires forall k :: 0 <= k < |s.requests| && k != id ==> Fresh(s.requests[k])
    requires s.backends[i].circuit.Closed? && s.backends[i].inflight == m && Holders(s.requests, i, false) == m + 1
    ensures Enabled(cfg, s, StreamEnd(id, 0.0))
    ensures var s' := Step(cfg, s, StreamEnd(id, 0.0));
      Draining(s', i, m - 1) && OnlyAt(s, s', i) && s'.backends[i].errorRate == 0.85 * s.backends[i].errorRate
  {
    hide Holders;
    var s' := Step(cfg, s, StreamEnd(id, 0.0));
    HoldersUpdate(s.requests, id, s'.requests[id], i, false);
  }

  /** All but one of the streams succeed and end, and the last one succeeds and goes on. */
  lemma {:induction false} Relieve(cfg: GatewayConfig, s: State, i: nat, m: nat) returns (acts: seq<Action>)
    requires Draining(s, i, m)
    ensures Feasible(cfg, s, acts)
    ensures var s' := Run(cfg, s, acts);
      && Quiet(s') && OnlyAt(s, s', i) && s'.backends[i].circuit.Closed?
      && s'.backends[i].inflight == 0 && Holders(s'.requests, i, false) == 1
      && s'.backends[i].errorRate == Term(s.backends[i].errorRate, Pow(0.85, 2 * m + 1))
    decreases m
  {
    hide Step, Enabled, Run, Feasible, Holders, Term, Pow;
    var id := SomeHolder(s.requests, i);
    var headers, over := Return(id, Headers(200, 0.0)), StreamEnd(id, 0.0);
    Headers200(cfg, s, id, i, m);
    var s1, rate := Step(cfg, s, headers), s.backends[i].errorRate;
    if m == 0 {
      FirstPower(rate);
      RunOfNone(cfg, s1);
      RunOfMore(cfg, s, headers, []);
      acts := [headers] + [];
    } else {
      StreamOver(cfg, s1, id, i, m);
      var s2 := Step(cfg, s1, over);
      var more := Relieve(cfg, s2, i, m - 1);
      TwoPowers(rate, 2 * m - 1);
      RunOfMore(cfg, s1, over, more);
      RunOfMore(cfg, s, headers, [over] + more);
      acts := [headers] + ([over] + more);
    }
  }

  lemma FirstPower(rate: real)
    ensures 0.85 * rate == Term(rate, Pow(0.85, 1))
  {
    PowNext(0.85, 0);
    NoPower(0.85, 0, 0.85);
    TermSwap(rate, 0.85);
  }

  lemma TwoPowers(rate: real, n: nat)
    ensures Term(0.85 * (0.85 * rate), Pow(0.85, n)) == Term(rate, Pow(0.85, n + 2))
  {
    hide Term;
    OnePower(0.85 * rate, n);
    OnePower(rate, n + 1);
  }

  lemma OnePower(rate: real, n: nat)
    ensures Term(0.85 * rate, Pow(0.85, n)) == Term(rate, Pow(0.85, n + 1))
  {
    var p := Pow(0.85, n);
    PowNext(0.85, n);
    Associate(0.85, rate, p);
    Associate(0.85, p, rate);
    TermSwap(rate, Pow(0.85, n + 1));
    TermSwap(rate, p);
  }

  // ---------- the run ----------

  lemma StartCalm(cfg: GatewayConfig, entries: seq<BackendEntry>)
    requires cfg.health.maxErrorRate >= 0.0
    ensures Calm(cfg, Start(entries, 0.0)) && AllFresh(Start(entries, 0.0).requests)
    ensures forall i :: 0 <= i < |Rows(entries)| ==> Rows(entries)[i].inflight == 0 && Rows(entries)[i].errorRate == 0.0
  {
    forall i | 0 <= i < |Rows(entries)|
      ensures exists e :: Rows(entries)[i] == FromEntry(e)
    {
      FreshRow(entries, i, cfg.health);
    }
  }

  lemma StartHolders(entries: seq<BackendEntry>, i: nat)
    ensures Holders(Start(entries, 0.0).requests, i, false) == 0
  {
  }

  /** Fill every backend with streams: backend `i` counts and serves as many as its hard limit. */
  lemma FillFromStart(cfg: GatewayConfig, entries: seq<BackendEntry>, i: nat) returns (acts: seq<Action>)
    requires Obliging(cfg) && SaneHealth(cfg.health) && cfg.health.maxErrorRate >= 0.0
    requires i < |Rows(entries)| && !Rows(entries)[i].drained && Rows(entries)[i].hardLimit >= 2
    ensures Feasible(cfg, Start(entries, 0.0), acts)
    ensures var s, k := Run(cfg, Start(entries, 0.0), acts), Rows(entries)[i].hardLimit;
      && Calm(cfg, s) && AllFresh(s.requests) && FreeCapacity(s.backends, cfg.health, s.clock) == 0
      && i < |s.backends| && s.backends[i].inflight == k == Holders(s.requests, i, false)
      && s.backends[i].hardLimit == k && !s.backends[i].drained && s.backends[i].errorRate == 0.0
  {
    hide FreeCapacity, Run, Feasible, Holders, Calm, AllFresh;
    var s0 := Start(entries, 0.0);
    StartCalm(cfg, entries);
    StartHolders(entries, i);
    acts := FillUp(cfg, s0);
    FullCount(cfg, Run(cfg, s0, acts), i);
    BackendsStaySound(cfg, entries, 0.0, acts, i);
  }

  /**
   * How the hard limit `k` of a backend is exceeded: fill every backend with streams; let one of backend `i`
   * fail with nowhere to go, so that its slot is given back twice; wait out the cooldown; let `k - 2` others
   * succeed and end and the last one succeed, which makes the backend eligible; and fill up again.
   */
  lemma HardLimitCanBeExceeded(cfg: GatewayConfig, entries: seq<BackendEntry>, i: nat) returns (acts: seq<Action>)
    requires SaneHealth(cfg.health) && Obliging(cfg) && cfg.retry.maxAttempts >= 2
    requires i < |Rows(entries)| && !Contained(Rows(entries)[i], cfg.health)
    ensures Overfull(cfg, entries, 0.0, acts, i)
  {
    hide FreeCapacity, Run, Feasible, Holders, Step, Enabled, AllFresh, Term, Pow;
    var s0, k := Start(entries, 0.0), Rows(entries)[i].hardLimit;
    CapIsPositive(k, cfg.health);
    var fill := FillFromStart(cfg, entries, i);
    var s1 := Run(cfg, s0, fill);
    var strike := StrikeOne(cfg, s1, i, k);
    var s2 := Run(cfg, s1, strike);
    var relieve := Relieve(cfg, s2, i, k - 2);
    var s3 := Run(cfg, s2, relieve);
    assert 2 * (k - 2) + 1 == 2 * k - 3;
    assert Calm(cfg, s3);
    var refill := FillUp(cfg, s3);
    FullCount(cfg, Run(cfg, s3, refill), i);
    RunConcat(cfg, s2, relieve, refill);
    RunConcat(cfg, s1, strike, relieve + refill);
    RunConcat(cfg, s0, fill, strike + (relieve + refill));
    acts := fill + (strike + (relieve + refill));
  }

  lemma CapIsPositive(k: nat, h: HealthConfig)
    requires k >= 2 && Term(0.25, Pow(0.85, 2 * k - 3)) <= h.maxErrorRate
    ensures h.maxErrorRate >= 0.0
  {
    hide Term, Pow;
    PowDecreases(0.85, 0, 2 * k - 3);
    TermSign(0.25, Pow(0.85, 2 * k - 3));
  }

  /** From full backends: one stream of backend `i` fails, and the cooldown runs out. */
  lemma StrikeOne(cfg: GatewayConfig, s: State, i: nat, k: nat) returns (acts: seq<Action>)
    requires SaneHealth(cfg.health) && cfg.retry.maxAttempts >= 2 && k >= 2
    requires Calm(cfg, s) && AllFresh(s.requests) && FreeCapacity(s.backends, cfg.health, s.clock) == 0
    requires i < |s.backends| && s.backends[i].inflight == k == Holders(s.requests, i, false) && s.backends[i].errorRate == 0.0
    ensures Feasible(cfg, s, acts)
    ensures var s' := Run(cfg, s, acts);
      Draining(s', i, k - 2) && OnlyAt(s, s', i) && s'.backends[i].errorRate == 0.25
  {
    hide FreeCapacity, Run, Feasible, Holders, Step, Enabled, AllFresh, AfterFailure;
    var id := SomeHolder(s.requests, i);
    var fail := Return(id, BodyTransport);
    FailOne(cfg, s, id, i);
    FailureKeepsRest(s.backends[i], cfg.health, s.clock);
    var s1 := Step(cfg, s, fail);
    var cool := CoolDown(cfg, s1, i);
    RunOfMore(cfg, s, fail, cool);
    acts := [fail] + cool;
  }

  /**
   * The hard limits hold on every run if and only if no request is ever tried twice, or every backend in use
   * takes one request at a time or has a hard limit `k` with 0.25 * 0.85^(2k - 3) over the error cap.
   */
  lemma HardLimitHolds(cfg: GatewayConfig, entries: seq<BackendEntry>)
    requires SaneHealth(cfg.health) && cfg.retry.maxAttempts >= 1 && Obliging(cfg)
    ensures (forall birth, acts, i :: !Overfull(cfg, entries, birth, acts, i))
            <==> cfg.retry.maxAttempts < 2 || forall i :: 0 <= i < |Rows(entries)| ==> Contained(Rows(entries)[i], cfg.health)
  {
    hide Overfull, Contained;
    if Harmless(cfg, Rows(entries)) {
      forall birth, acts, i
        ensures !Overfull(cfg, entries, birth, acts, i)
      {
        HardLimitKept(cfg, entries, birth, acts, i);
      }
    } else {
      var i :| 0 <= i < |Rows(entries)| && !Contained(Rows(entries)[i], cfg.health);
      var acts := HardLimitCanBeExceeded(cfg, entries, i);
    }
  }
}
