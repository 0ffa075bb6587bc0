/** The registry of backends, in configuration order, and the eligibility rule for new dispatches. */
module Registry {
  import opened Types
  import opened BackendState
  import opened Health

  /** The checks made after the cooldown check: drain, circuit, hard limit, error cap, probe budget. */
  predicate Admits(b: Backend, h: HealthConfig) {
    && !b.drained
    && !b.circuit.Open?
    && b.inflight < b.hardLimit
    && b.errorRate <= h.maxErrorRate
    && HalfOpenAllows(b, h)
  }

  predicate Eligible(b: Backend, h: HealthConfig, now: real) {
    Admits(AfterCooldownCheck(b, h, now), h)
  }

  /** Screening skips the backend a retry must avoid; the dispatcher avoids none. */
  predicate Screened(b: Backend, avoid: Option<string>) {
    avoid.None? || b.name != avoid.value
  }

  function AfterScreen(b: Backend, h: HealthConfig, now: real, avoid: Option<string>): Backend {
    if Screened(b, avoid) then AfterCooldownCheck(b, h, now) else b
  }

  /** Every screened backend has had its cooldown check. */
  function Refreshed(bs: seq<Backend>, h: HealthConfig, now: real, avoid: Option<string>): (rs: seq<Backend>)
    ensures |rs| == |bs|
    ensures forall i :: 0 <= i < |bs| ==> rs[i] == AfterScreen(bs[i], h, now, avoid)
  {
    seq(|bs|, i requires 0 <= i < |bs| => AfterScreen(bs[i], h, now, avoid))
  }

  /** The candidates of a dispatch, as ascending positions in the registry. */
  function Candidates(bs: seq<Backend>, h: HealthConfig, now: real, avoid: Option<string>): (ps: seq<nat>)
    ensures forall k :: 0 <= k < |ps| ==> ps[k] < |bs|
  {
    if bs == [] then []
    else
      var n := |bs| - 1;
      Candidates(bs[..n], h, now, avoid)
      + (if Screened(bs[n], avoid) && Eligible(bs[n], h, now) then [n] else [])
  }

  /** Position of a backend name. */
  function Lookup(bs: seq<Backend>, name: string): (p: Option<nat>)
    ensures p.Some? ==> p.value < |bs|
  {
    if bs == [] then None
    else
      var n := |bs| - 1;
      var p := Lookup(bs[..n], name);
      if p.Some? then p else if bs[n].name == name then Some(n) else None
  }

  predicate DistinctNames(bs: seq<Backend>) {
    forall i, j :: 0 <= i < j < |bs| ==> bs[i].name != bs[j].name
  }

  /** A row under a name already present replaces that row in its place; a new name goes last. */
  function WithRow(rows: seq<Backend>, e: BackendEntry): seq<Backend> {
    var p := Lookup(rows, e.name);
    if p.Some? then rows[p.value := FromEntry(e)] else rows + [FromEntry(e)]
  }

  function Rows(entries: seq<BackendEntry>): seq<Backend> {
    if entries == [] then [] else WithRow(Rows(entries[..|entries| - 1]), entries[|entries| - 1])
  }

  class BackendRegistry {
    var states: seq<BackendRuntimeState>
    const health: HealthConfig

    ghost predicate Valid()
      reads this, states
    {
      && (forall i, j :: 0 <= i < j < |states| ==> states[i] != states[j])
      && (forall i, j :: 0 <= i < j < |states| ==> states[i].name != states[j].name)
    }

    ghost function View(): (vs: seq<Backend>)
      reads this, states
    {
      Views(states)
    }

    constructor (entries: seq<BackendEntry>, health: HealthConfig)
      ensures Valid()
      ensures this.health == health && View() == Rows(entries)
    {
      this.health := health;
      states := [];
      new;
      for k := 0 to |entries|
        invariant Valid()
        invariant View() == Rows(entries[..k])
      {
        assert entries[..k + 1][..k] == entries[..k];
        Put(entries[k]);
      }
      assert entries[..|entries|] == entries;
    }

    /** Assignment to the dictionary entry of that name. */
    method Put(e: BackendEntry)
      requires Valid()
      modifies this`states
      ensures Valid() && View() == WithRow(old(View()), e)
    {
      hide Lookup;
      LookupFinds(View(), e.name);
      var i := Find(e.name);
      var s := new BackendRuntimeState(e);
      if i < |states| {
        states := states[i := s];
      } else {
        states := states + [s];
      }
    }

    /** Where a name stands, or the number of backends when it is not there. */
    method Find(name: string) returns (i: nat)
      requires Valid()
      ensures i <= |states|
      ensures Lookup(View(), name) == if i < |states| then Some(i) else None
    {
      i := 0;
      while i < |states| && states[i].name != name
        invariant i <= |states|
        invariant Lookup(View()[..i], name).None?
      {
        assert View()[..i + 1][..i] == View()[..i];
        i := i + 1;
      }
      if i < |states| {
        assert View()[..i + 1][..i] == View()[..i];
        LookupPrefix(View(), i + 1, name);
      } else {
        assert View()[..i] == View();
      }
    }

    method Get(name: string) returns (s: BackendRuntimeState?)
      requires Valid()
      ensures s == null <==> Lookup(View(), name).None?
      ensures s != null ==> s == states[Lookup(View(), name).value]
    {
      var i := Find(name);
      return if i < |states| then states[i] else null;
    }

    method TickCircuits(now: real)
      requires Valid()
      modifies states
      ensures Valid() && View() == Refreshed(old(View()), health, now, None)
    {
      for i := 0 to |states|
        invariant forall j :: 0 <= j < i ==> states[j].View() == AfterCooldownCheck(old(states[j].View()), health, now)
        invariant forall j :: i <= j < |states| ==> states[j].View() == old(states[j].View())
      {
        MaybeTransitionFromOpen(states[i], health, now);
      }
    }

    /** Besides answering, this may move the circuit from open to half-open. */
    method IsHealthyForSchedule(s: BackendRuntimeState, now: real) returns (ok: bool)
      modifies s`failures, s`circuit, s`probes
      ensures s.View() == AfterCooldownCheck(old(s.View()), health, now)
      ensures ok == Eligible(old(s.View()), health, now)
    {
      MaybeTransitionFromOpen(s, health, now);
      if s.drained {
        return false;
      }
      if s.circuit == Open {
        return false;
      }
      if s.inflight >= s.hardLimit {
        return false;
      }
      if s.errorRate > health.maxErrorRate {
        return false;
      }
      if s.circuit == HalfOpen && !HalfOpenAllows(s.View(), health) {
        return false;
      }
      return true;
    }

    /** One element of the comprehension `s.name != avoid and is_healthy_for_schedule(s)`. */
    method Screen(i: nat, avoid: Option<string>, now: real) returns (ok: bool)
      requires Valid() && i < |states|
      modifies states[i]
      ensures Valid()
      ensures View() == old(View())[i := AfterScreen(old(View())[i], health, now, avoid)]
      ensures ok == (Screened(old(View())[i], avoid) && Eligible(old(View())[i], health, now))
    {
      if avoid.None? || states[i].name != avoid.value {
        ok := IsHealthyForSchedule(states[i], now);
      } else {
        ok := false;
      }
    }

    /** The list comprehension over `all_states` shared by the dispatcher and the retry picker, as positions. */
    method EligiblePlaces(avoid: Option<string>, now: real) returns (places: seq<nat>)
      requires Valid()
      modifies states
      ensures Valid() && View() == Refreshed(old(View()), health, now, avoid)
      ensures places == Candidates(old(View()), health, now, avoid)
    {
      hide Candidates, ScreenedTo, AfterScreen, Eligible;
      places := [];
      ghost var was := View();
      ScreenedEnds(was, health, now, avoid);
      for i := 0 to |states|
        invariant Valid()
        invariant places == Candidates(was[..i], health, now, avoid)
        invariant View() == ScreenedTo(was, i, health, now, avoid)
      {
        ScreenedNext(was, i, health, now, avoid);
        var ok := Screen(i, avoid, now);
        places := if ok then places + [i] else places;
      }
    }

    /** The states standing at the given positions. */
    function StatesAt(places: seq<nat>): (found: seq<BackendRuntimeState>)
      reads this
      requires forall k :: 0 <= k < |places| ==> places[k] < |states|
      ensures |found| == |places| && forall k :: 0 <= k < |places| ==> found[k] == states[places[k]]
    {
      seq(|places|, k requires 0 <= k < |places| && places[k] < |states| reads this => states[places[k]])
    }
  }

  lemma {:induction false} LookupPrefix(bs: seq<Backend>, k: nat, name: string)
    requires k <= |bs|
    requires Lookup(bs[..k], name).Some?
    ensures Lookup(bs, name) == Lookup(bs[..k], name)
    decreases |bs|
  {
    if k < |bs| {
      var n := |bs| - 1;
      assert bs[..n][..k] == bs[..k];
      LookupPrefix(bs[..n], k, name);
    } else {
      assert bs[..k] == bs;
    }
  }

  /** A lookup finds the name, or the name is nowhere. */
  lemma {:induction false} LookupFinds(bs: seq<Backend>, name: string)
    ensures var p := Lookup(bs, name);
      && (p.Some? ==> bs[p.value].name == name)
      && (p.None? ==> forall i :: 0 <= i < |bs| ==> bs[i].name != name)
  {
    if bs != [] {
      LookupFinds(bs[..|bs| - 1], name);
    }
  }

  lemma {:induction false} LookupAt(bs: seq<Backend>, i: nat)
    requires DistinctNames(bs) && i < |bs|
    ensures Lookup(bs, bs[i].name) == Some(i)
  {
    LookupFinds(bs[..|bs| - 1], bs[i].name);
    if i < |bs| - 1 {
      LookupAt(bs[..|bs| - 1], i);
    }
  }

  lemma {:induction false} RowsHaveDistinctNames(entries: seq<BackendEntry>)
    ensures DistinctNames(Rows(entries))
  {
    if entries != [] {
      RowsHaveDistinctNames(entries[..|entries| - 1]);
      LookupFinds(Rows(entries[..|entries| - 1]), entries[|entries| - 1].name);
    }
  }

  /** The dictionary keeps, for every name configured, the last row given under it. */
  lemma {:induction false} LastRowWins(entries: seq<BackendEntry>, k: nat)
    requires k < |entries|
    requires forall l :: k < l < |entries| ==> entries[l].name != entries[k].name
    ensures var p := Lookup(Rows(entries), entries[k].name);
      p.Some? && Rows(entries)[p.value] == FromEntry(entries[k])
  {
    hide Lookup;
    var n := |entries| - 1;
    var before, rows := Rows(entries[..n]), Rows(entries);
    var q := Lookup(before, entries[n].name);
    RowsHaveDistinctNames(entries);
    LookupFinds(before, entries[n].name);
    LookupFinds(before, entries[k].name);
    var p := if q.Some? then q.value else |before|;
    if k < n {
      assert forall l :: k < l < n ==> entries[..n][l].name != entries[..n][k].name;
      LastRowWins(entries[..n], k);
      p := Lookup(before, entries[k].name).value;
    }
    assert rows[p] == FromEntry(entries[k]);
    LookupAt(rows, p);
  }

  /** The registry with its first `i` backends screened. */
  function ScreenedTo(bs: seq<Backend>, i: nat, h: HealthConfig, now: real, avoid: Option<string>): (rs: seq<Backend>)
    requires i <= |bs|
    ensures |rs| == |bs|
  {
    Refreshed(bs[..i], h, now, avoid) + bs[i..]
  }

  lemma ScreenedNext(bs: seq<Backend>, i: nat, h: HealthConfig, now: real, avoid: Option<string>)
    requires i < |bs|
    ensures ScreenedTo(bs, i, h, now, avoid)[i] == bs[i]
    ensures ScreenedTo(bs, i + 1, h, now, avoid)
            == ScreenedTo(bs, i, h, now, avoid)[i := AfterScreen(bs[i], h, now, avoid)]
    ensures Candidates(bs[..i + 1], h, now, avoid) == Candidates(bs[..i], h, now, avoid)
      + (if Screened(bs[i], avoid) && Eligible(bs[i], h, now) then [i] else [])
  {
    assert bs[..i + 1][..i] == bs[..i];
  }

  lemma ScreenedEnds(bs: seq<Backend>, h: HealthConfig, now: real, avoid: Option<string>)
    ensures ScreenedTo(bs, 0, h, now, avoid) == bs
    ensures ScreenedTo(bs, |bs|, h, now, avoid) == Refreshed(bs, h, now, avoid)
    ensures Candidates(bs[..0], h, now, avoid) == []
    ensures bs[..|bs|] == bs
  {
  }

  /** Screening finds exactly the eligible positions, in registry order. */
  lemma {:induction false} CandidatesAreTheEligible(bs: seq<Backend>, h: HealthConfig, now: real, avoid: Option<string>)
    ensures var ps := Candidates(bs, h, now, avoid);
      && (forall i: nat :: i in ps <==> i < |bs| && Screened(bs[i], avoid) && Eligible(bs[i], h, now))
      && (forall k, l :: 0 <= k < l < |ps| ==> ps[k] < ps[l])
  {
    hide Eligible, Screened;
    if bs != [] {
      CandidatesAreTheEligible(bs[..|bs| - 1], h, now, avoid);
    }
  }

  /** With the clock frozen a second cooldown check changes nothing, so it cannot change eligibility. */
  lemma CheckTwice(b: Backend, h: HealthConfig, now: real)
    ensures AfterCooldownCheck(AfterCooldownCheck(b, h, now), h, now) == AfterCooldownCheck(b, h, now)
    ensures Eligible(AfterCooldownCheck(b, h, now), h, now) == Eligible(b, h, now)
  {
  }

  /** When a backend is eligible, whatever its circuit. */
  lemma EligibilityCondition(b: Backend, h: HealthConfig, now: real)
    requires b.circuit.Open? ==> b.openedAt.Some?
    ensures Eligible(b, h, now) <==>
      && !b.drained && b.inflight < b.hardLimit && b.errorRate <= h.maxErrorRate
      && match b.circuit
         case Closed => true
         case HalfOpen => b.probes < h.halfOpenMaxInflight
         case Open => now >= b.openedAt.value + h.openCooldownMs as real / 1000.0 && h.halfOpenMaxInflight > 0
  {
  }

  /** When an open circuit admits traffic again: only time, drain, the hard limit, the error cap and the probe limit matter. */
  lemma RecoveryCondition(b: Backend, h: HealthConfig, now: real)
    requires b.circuit.Open? && b.openedAt.Some?
    ensures Eligible(b, h, now) <==>
      && now >= b.openedAt.value + h.openCooldownMs as real / 1000.0
      && !b.drained && b.inflight < b.hardLimit && b.errorRate <= h.maxErrorRate && h.halfOpenMaxInflight > 0
  {
  }
}
