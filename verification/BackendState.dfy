/** Per-backend runtime state: slot counters, smoothed metrics, circuit fields and the dispatch window. */
module BackendState {
  import opened Types

  /** Length bound of the deque of dispatch timestamps. */
  const WINDOW_CAPACITY := 256

  /** The value of one backend's runtime state. */
  datatype Backend = Backend(
    name: string,
    softLimit: int,
    hardLimit: int,
    drained: bool,
    inflight: nat,
    largeInflight: nat,
    ewmaTtftMs: real,
    ewmaQueueMs: real,
    ewmaE2eMs: real,
    errorRate: real,
    circuit: CircuitState,
    failures: nat,
    openedAt: Option<real>,
    probes: nat,
    dispatchTimes: seq<real>)

  function FromEntry(e: BackendEntry): Backend {
    Backend(e.name, e.softLimit, e.hardLimit, e.drained, 0, 0, 50.0, 0.0, 200.0, 0.0, Closed, 0, None, 0, [])
  }

  function Ewma(prev: real, sample: real, alpha: real): real {
    alpha * sample + (1.0 - alpha) * prev
  }

  /** Append to a deque with `maxlen`: a full deque drops its oldest entry. */
  function Push(times: seq<real>, t: real): seq<real> {
    if |times| < WINDOW_CAPACITY then times + [t] else times[|times| - WINDOW_CAPACITY + 1..] + [t]
  }

  /** How many timestamps are at or after the cutoff. */
  function Recent(times: seq<real>, cutoff: real): nat {
    if times == [] then 0
    else Recent(times[..|times| - 1], cutoff) + (if times[|times| - 1] >= cutoff then 1 else 0)
  }

  function AfterRecordDispatch(b: Backend, now: real): Backend {
    b.(dispatchTimes := Push(b.dispatchTimes, now))
  }

  function DispatchesInWindow(b: Backend, windowSec: real, now: real): nat {
    Recent(b.dispatchTimes, now - windowSec)
  }

  function AfterUpdateSuccess(b: Backend, ttftMs: Option<real>, e2eMs: real): Backend {
    b.(ewmaTtftMs := if ttftMs.Some? then Ewma(b.ewmaTtftMs, ttftMs.value, 0.2) else b.ewmaTtftMs,
       ewmaE2eMs := Ewma(b.ewmaE2eMs, e2eMs, 0.2),
       errorRate := Ewma(b.errorRate, 0.0, 0.15))
  }

  function AfterUpdateFailure(b: Backend): Backend {
    b.(errorRate := Ewma(b.errorRate, 1.0, 0.25))
  }

  /** The mutable record shared by the scheduler and the proxy. */
  class BackendRuntimeState {
    const name: string
    const softLimit: int
    const hardLimit: int
    const drained: bool
    var inflight: nat
    var largeInflight: nat
    var ewmaTtftMs: real
    var ewmaQueueMs: real
    var ewmaE2eMs: real
    var errorRate: real
    var circuit: CircuitState
    var failures: nat
    var openedAt: Option<real>
    var probes: nat
    var dispatchTimes: seq<real>

    function View(): Backend
      reads this
    {
      Backend(name, softLimit, hardLimit, drained, inflight, largeInflight, ewmaTtftMs, ewmaQueueMs,
              ewmaE2eMs, errorRate, circuit, failures, openedAt, probes, dispatchTimes)
    }

    constructor (e: BackendEntry)
      ensures View() == FromEntry(e)
      ensures ewmaTtftMs == 50.0 && ewmaQueueMs == 0.0 && ewmaE2eMs == 200.0 && errorRate == 0.0
      ensures inflight == largeInflight == failures == probes == 0 && dispatchTimes == [] && circuit == Closed && openedAt == None
      ensures name == e.name && softLimit == e.softLimit && hardLimit == e.hardLimit && drained == e.drained
    {
      name, softLimit, hardLimit, drained := e.name, e.softLimit, e.hardLimit, e.drained;
      inflight, largeInflight := 0, 0;
      ewmaTtftMs, ewmaQueueMs, ewmaE2eMs, errorRate := 50.0, 0.0, 200.0, 0.0;
      circuit, failures, openedAt, probes := Closed, 0, None, 0;
      dispatchTimes := [];
    }

    method RecordDispatch(now: real)
      modifies this`dispatchTimes
      ensures View() == AfterRecordDispatch(old(View()), now)
      ensures |old(dispatchTimes)| < 256 ==> dispatchTimes == old(dispatchTimes) + [now]
      ensures |old(dispatchTimes)| == 256 ==> dispatchTimes == old(dispatchTimes)[1..] + [now]
    {
      if |dispatchTimes| >= WINDOW_CAPACITY {
        dispatchTimes := dispatchTimes[|dispatchTimes| - WINDOW_CAPACITY + 1..];
      }
      dispatchTimes := dispatchTimes + [now];
    }

    method DispatchShare(windowSec: real, now: real) returns (count: nat)
      ensures count == DispatchesInWindow(View(), windowSec, now)
    {
      var cutoff := now - windowSec;
      count := 0;
      for i := 0 to |dispatchTimes|
        invariant count == Recent(dispatchTimes[..i], cutoff)
      {
        assert dispatchTimes[..i + 1][..i] == dispatchTimes[..i];
        if dispatchTimes[i] >= cutoff {
          count := count + 1;
        }
      }
      assert dispatchTimes[..|dispatchTimes|] == dispatchTimes;
    }

    method UpdateSuccess(ttftMs: Option<real>, e2eMs: real)
      modifies this`ewmaTtftMs, this`ewmaE2eMs, this`errorRate
      ensures View() == AfterUpdateSuccess(old(View()), ttftMs, e2eMs)
      ensures ewmaE2eMs == 0.2 * e2eMs + 0.8 * old(ewmaE2eMs) && errorRate == 0.85 * old(errorRate)
      ensures ewmaTtftMs == if ttftMs.Some? then 0.2 * ttftMs.value + 0.8 * old(ewmaTtftMs) else old(ewmaTtftMs)
    {
      if ttftMs.Some? {
        ewmaTtftMs := Ewma(ewmaTtftMs, ttftMs.value, 0.2);
      }
      ewmaE2eMs := Ewma(ewmaE2eMs, e2eMs, 0.2);
      errorRate := Ewma(errorRate, 0.0, 0.15);
    }

    method UpdateFailure()
      modifies this`errorRate
      ensures View() == AfterUpdateFailure(old(View()))
      ensures errorRate == 0.25 + 0.75 * old(errorRate)
    {
      errorRate := Ewma(errorRate, 1.0, 0.25);
    }
  }

  /** The values of a list of runtime states, in list order. */
  ghost function Views(states: seq<BackendRuntimeState>): (vs: seq<Backend>)
    reads states
    ensures |vs| == |states|
    ensures forall i :: 0 <= i < |states| ==> vs[i] == states[i].View()
  {
    seq(|states|, i requires 0 <= i < |states| reads states => states[i].View())
  }

  // ---------- the bounded window against the full history ----------

  /** The last `WINDOW_CAPACITY` entries of a history. */
  function Tail(history: seq<real>): seq<real> {
    if |history| <= WINDOW_CAPACITY then history else history[|history| - WINDOW_CAPACITY..]
  }

  predicate Nondecreasing(times: seq<real>) {
    forall i, j :: 0 <= i < j < |times| ==> times[i] <= times[j]
  }

  lemma PushKeepsTail(history: seq<real>, t: real)
    ensures Push(Tail(history), t) == Tail(history + [t])
  {
  }

  /** In a nondecreasing history the entries at or after a cutoff are a suffix, of length `Recent`. */
  lemma {:induction false} RecentIsSuffix(times: seq<real>, cutoff: real)
    requires Nondecreasing(times)
    ensures Recent(times, cutoff) <= |times|
    ensures forall i :: 0 <= i < |times| ==> (times[i] >= cutoff <==> i >= |times| - Recent(times, cutoff))
  {
    if times != [] {
      var front := times[..|times| - 1];
      RecentIsSuffix(front, cutoff);
      forall i | 0 <= i < |times|
        ensures times[i] >= cutoff <==> i >= |times| - Recent(times, cutoff)
      {
        if i < |front| {
          assert times[i] == front[i];
        }
      }
    }
  }

  /** Counting in the 256-entry deque is counting in the complete history, cut off at 256. */
  lemma WindowRefinesHistory(history: seq<real>, cutoff: real)
    requires Nondecreasing(history)
    ensures Recent(Tail(history), cutoff) == Min(WINDOW_CAPACITY, Recent(history, cutoff))
  {
    hide Recent;
    var tail := Tail(history);
    var n, r := |tail|, Recent(history, cutoff);
    assert forall i :: 0 <= i < n ==> tail[i] == history[|history| - n + i];
    RecentIsSuffix(history, cutoff);
    RecentIsSuffix(tail, cutoff);
    assert forall i :: 0 <= i < n ==> (tail[i] >= cutoff <==> i >= n - Min(n, r));
    SameThreshold(tail, cutoff, Recent(tail, cutoff), Min(n, r));
  }

  lemma SameThreshold(times: seq<real>, cutoff: real, r: nat, r': nat)
    requires r <= |times| && r' <= |times|
    requires forall i :: 0 <= i < |times| ==> (times[i] >= cutoff <==> i >= |times| - r)
    requires forall i :: 0 <= i < |times| ==> (times[i] >= cutoff <==> i >= |times| - r')
    ensures r == r'
  {
    assert r > 0 ==> times[|times| - r] >= cutoff;
    assert r' > 0 ==> times[|times| - r'] >= cutoff;
  }

  /** One more dispatch: the count over the window grows by one, or stays when an entry inside it is evicted. */
  lemma PushRecent(times: seq<real>, t: real, cutoff: real)
    requires |times| <= WINDOW_CAPACITY
    requires t >= cutoff
    ensures Recent(times, cutoff) <= Recent(Push(times, t), cutoff) <= Recent(times, cutoff) + 1
  {
    assert (times + [t])[..|times|] == times;
    if |times| == WINDOW_CAPACITY {
      var kept := times[1..];
      DropFirst(times, cutoff);
      assert (kept + [t])[..|kept|] == kept;
    }
  }

  lemma {:induction false} DropFirst(times: seq<real>, cutoff: real)
    requires times != []
    ensures Recent(times, cutoff) == Recent(times[1..], cutoff) + (if times[0] >= cutoff then 1 else 0)
  {
    if |times| == 1 {
      assert times[..0] == [];
    } else {
      var front := times[..|times| - 1];
      DropFirst(front, cutoff);
      assert front[1..] == times[1..][..|times| - 2];
    }
  }
}
