/** The circuit breaker: closed, open and half-open transitions, on values and in place. */
module Health {
  import opened Types
  import opened BackendState

  function AfterRequestStart(b: Backend): Backend {
    if b.circuit.HalfOpen? then b.(probes := b.probes + 1) else b
  }

  function AfterSuccess(b: Backend): Backend {
    var c := b.(failures := 0);
    if b.circuit.HalfOpen? then c.(circuit := Closed, probes := 0, openedAt := None) else c
  }

  function AfterFailure(b: Backend, h: HealthConfig, now: real): Backend {
    var c := b.(failures := b.failures + 1);
    if b.circuit.HalfOpen? then c.(circuit := Open, openedAt := Some(now), probes := 0)
    else if b.circuit.Closed? && c.failures >= h.consecutiveFailuresOpen then
      c.(circuit := Open, openedAt := Some(now))
    else c
  }

  /** An open circuit whose cooldown has run out. */
  predicate CooledDown(b: Backend, h: HealthConfig, now: real) {
    b.circuit.Open? && b.openedAt.Some? && (now - b.openedAt.value) * 1000.0 >= h.openCooldownMs as real
  }

  function AfterCooldownCheck(b: Backend, h: HealthConfig, now: real): Backend {
    if CooledDown(b, h, now) then b.(circuit := HalfOpen, probes := 0, failures := 0) else b
  }

  predicate HalfOpenAllows(b: Backend, h: HealthConfig) {
    b.circuit.HalfOpen? ==> b.probes < h.halfOpenMaxInflight
  }

  method OnRequestStart(s: BackendRuntimeState)
    modifies s`probes
    ensures s.View() == AfterRequestStart(old(s.View()))
  {
    if s.circuit == HalfOpen {
      s.probes := s.probes + 1;
    }
  }

  method OnSuccess(s: BackendRuntimeState)
    modifies s`failures, s`circuit, s`probes, s`openedAt
    ensures s.View() == AfterSuccess(old(s.View()))
  {
    s.failures := 0;
    if s.circuit == HalfOpen {
      s.circuit := Closed;
      s.probes := 0;
      s.openedAt := None;
    }
  }

  method OnFailure(s: BackendRuntimeState, h: HealthConfig, now: real)
    modifies s`failures, s`circuit, s`probes, s`openedAt
    ensures s.View() == AfterFailure(old(s.View()), h, now)
  {
    s.failures := s.failures + 1;
    if s.circuit == HalfOpen {
      s.circuit := Open;
      s.openedAt := Some(now);
      s.probes := 0;
      return;
    }
    if s.circuit == Closed {
      if s.failures >= h.consecutiveFailuresOpen {
        s.circuit := Open;
        s.openedAt := Some(now);
      }
    }
  }

  method MaybeTransitionFromOpen(s: BackendRuntimeState, h: HealthConfig, now: real)
    modifies s`failures, s`circuit, s`probes
    ensures s.View() == AfterCooldownCheck(old(s.View()), h, now)
  {
    if s.circuit != Open || s.openedAt == None {
      return;
    }
    var elapsedMs := (now - s.openedAt.value) * 1000.0;
    if elapsedMs >= h.openCooldownMs as real {
      s.circuit := HalfOpen;
      s.probes := 0;
      s.failures := 0;
    }
  }
}
