# A verified model of the gateway's scheduling engine

The gateway queues chat completions, hands them to a pool of GPU backends chosen by score, guards every
backend with a circuit breaker and a slot counter, and proxies each request with retries. All of this runs in
one asynchronous process over shared mutable state. This project models that state and the code that
changes it, and proves what holds on every run.

## How it is organised

| file | models |
|---|---|
| `Types.dfy` | configuration, request classes, circuit states |
| `BackendState.dfy` | `BackendRuntimeState`: slot counters, smoothed metrics, circuit fields, the 256-entry dispatch window |
| `Health.dfy` | the circuit-breaker transitions |
| `Registry.dfy` | `BackendRegistry`: lookup, cooldown sweep, eligibility |
| `Scoring.dfy` | the score, the stable sort and the pick; hot-share accounting; dispatch feedback |
| `Admission.dfy` | `PendingRequest`, `AdmissionQueue` |
| `Dispatcher.dfy` | the scheduling tick |
| `Proxy.dfy`, `Retries.dfy` | what one upstream outcome does, the retry loop, and what every run of that loop does |
| `Trace.dfy` | one backend's history as an event log: error rate, failure streak, circuit, traffic bound, window |
| `Gateway.dfy` | the whole gateway as a transition system |
| `Routes.dfy` | the chat-completion handler around the queue and the proxy |
| `History.dfy`, `Queueing.dfy`, `Slots.dfy`, `Wedge.dfy`, `Recovery.dfy`, `Balance.dfy` | theorems over all runs |
| `Schedules.dfy` | runs built on purpose: serve one request, clear the queue |
| `Limits.dfy`, `Absorbing.dfy` | exactly when the hard limit holds; exactly which idle backends are never dispatched to again |
| `Accounting.dfy`, `Lockout.dfy` | every dispatch is one assignment or one retry; the circuit breaker and the error cap together |
| `Answers.dfy`, `Latency.dfy` | what a handler answers and how often it calls; the smoothed latencies, and what each outcome does to metrics and circuit |
| `Witness.dfy` | runs of other stronger claims that the code does not meet, and the exact condition for one of them |

There are two layers. The classes and methods follow the program's own code: they assign the same fields in
the same order, with the same loops and branches. Each method is proved equal to a function on values
(`Place`, `Pass`, `Resume`, `AfterFailure`, ...). Those functions make up the transition system in `Gateway`.
There, a *step* is the code that one task runs between two suspensions. The steps are: a request arrives; the
scheduler sweeps the circuits, pops a batch, assigns it, puts the rest back; a wait times out; a handler wakes
after a refusal; an upstream call returns with any outcome; a stream ends; time passes. They interleave
freely, so a theorem about `Run` is about every interleaving of requests, scheduler and clock.

The state carries history variables that no step reads. `logs` holds the events of each backend. `extra`
counts the releases for which no slot was outstanding any more. `since` in a request is the moment at which the
backend it now calls was taken for it.

## Assumptions

- The clock does not run backwards and stands still during a step. Floats are reals.
- An HTTP call is replaced by a nondeterministic outcome: a status with its duration, a timeout or connection
  error, or, for a stream, such an error while the body of an error response is read.
- An upstream call may return at any time. A wait may time out at any time from the age limit on, while its
  future is pending.
- The name of the fallback provider is not the name of a registered backend. Backend names need no
  assumption: the registry keeps one entry for each name, the last one configured (`LastRowWins`).
- Where a result needs it, its `requires` says so: at least one attempt per request, a failure threshold of at
  least one, a positive cooldown, nonnegative weights, limits and target share.

## Where the code differs from what one would expect

The model follows the code in each case.

- A retry that finds no other backend gives the same slot back twice (`app/proxy/client.py:347-353`,
  `419-424`). So the counters can fall below the number of requests really in flight, and a backend can serve
  more than its hard limit. `SlotConservation` bounds the error on every run and `ExactConservation` says
  exactly which runs have none. `HardLimitHolds` says exactly which configurations keep the hard limits on all
  runs: those with a single attempt per request, and those in which every backend in use either takes one
  request at a time or has a hard limit `k` with `0.25 * 0.85^(2k - 3)` over the error cap. With the default
  cap only one request at a time will do (`ContainedByOneSlot`). `HardLimitCanBeExceeded` builds the run for all
  the others.
- Nothing but the end of a call moves the error rate, so a backend that is over the error cap and serves
  nobody gets no request that could bring it back. `WedgedExactly` lists all the ways in which an idle backend
  is shut out for good: it is drained, over the error cap, or half-open with its probe budget spent. With the
  default settings two connection errors, one after the other, are enough, before the circuit has ever opened
  (`TwoFailuresWedge`).
- So the recovery of `docs/artichecture.md:208-219` does not come about under the default settings for a
  backend that serves nobody and had no good sample while it failed. The failures that open its circuit also put
  it over the cap, and it gets no probe when the cooldown is over: `BreakerLocksOut`, with `DefaultCapLocksOut`.
- A 4xx answer is neither a success nor a failure for the circuit (`app/proxy/client.py:322-325`, `561-564`),
  so a probe answered that way never returns its place in the probe budget. `ProbeDecides` and
  `ClientErrorWedges` show what follows, and `RefusedProbeWedges` is a run in which it takes out a backend that
  is within its error cap and has a free slot.
- `docs/artichecture.md:217` lets a half-open circuit close by a probe's success. The code closes it on any
  success (`app/backends/health.py:22-28`): `LateSuccessClosesTheCircuit` is a run in which it does. By
  `RunDated` every call under way was either made before its backend's circuit opened or is a probe, made a
  cooldown or more later. `ClosesOnlyByProbe` says exactly when a circuit, open or half-open, can be closed by
  the answer to something other than a probe: if and only if a call made before it opened still waits. Under the
  same condition a failure that is no probe's opens a half-open circuit anew, with a new cooldown, where
  `docs/artichecture.md:218` has a probe's failure: `ReopensOnlyByProbe`.
- With the fallback enabled, a request that was refused or timed out can still take a slot, past everyone in
  the queue: its fallback call fails and is retried on a registered backend. `OnlyAssignedHoldSlots` names
  exactly the configurations that rule it out.
- Streams are retried after a timeout in the body of an error response, which escapes the handler at
  `app/proxy/client.py:506-554` to the one at `374`. They are retried in no other case.
- `docs/artichecture.md:224` names `retry.retryable_statuses` as the retryable ones. The code retries every
  status from 500 up as well (`app/proxy/client.py:321`).
- `docs/artichecture.md:182` expires a request when its age exceeds the limit. The code does so from equality
  on (`app/scheduler/dispatcher.py:70`).
- The score formula in the repository's `README.md:69-73` is out of date. The model has that of
  `app/scheduler/scoring.py:50-59`.
- A finished stream counts as a good sample again, without a success for the circuit, even if it broke off
  (`app/proxy/client.py:635-640`).
- `requeue_front` does not look at the size limit (`app/queue/admission_queue.py:52-57`). The bound still
  holds because a tick does not suspend in between (`AtomicTicksKeepTheBound`). `QueueDepthOnRuns` and
  `QueueBoundCanBeExceeded` give the bound, and that it is reached, if it did.
- The second `requeue.append` of the tick (`app/scheduler/dispatcher.py:81-83`) is dead code: `PickBackend`
  returns nothing only for an empty list. The code after the retry loop runs only when no attempt is allowed.

## Model

| member | source | states |
|---|---|---|
| Slots.SlotConservation | app/proxy/client.py:82-117 | On every run, for each backend and for both counters: counter <= holders <= counter + releases made once too often. The slot counter never exceeds the hard limit, so the holders never exceed it by more than those releases |
| Slots.ExactConservation | app/proxy/client.py:347-353 | The counters equal the holders in every state of a run if and only if no retry of the run finds no other backend while another request holds a slot of the failed one |
| Limits.HardLimitHolds | app/proxy/client.py:347-353 | With room in the queue, no run makes any backend serve more requests than its hard limit if and only if requests get a single attempt, or every undrained backend has a hard limit k of at most one or with 0.25 * 0.85^(2k - 3) over the error cap. No other setting matters |
| Limits.HardLimitKept | app/proxy/client.py:82-117 | In those configurations the requests served stay within the hard limit on every run |
| Limits.HoldersWithinRoom | app/proxy/client.py:82-117 | There, a drained backend serves nobody at all |
| Limits.StepLevel | app/backends/state.py:58-67 | The invariant behind it, kept by every step: each holder of a backend is counted, or the backend is over the cap and the successes its holders can still report will not bring it under while one of them is left |
| Limits.ContainedByOneSlot | app/core/config.py:45-49 | With an error cap of one quarter or more the condition on a backend is a hard limit of at most one |
| Limits.HardLimitCanBeExceeded | app/proxy/client.py:401-424 | In the others, whatever the failure threshold and the probe limit, there is a run that exceeds it: fill all backends with streams, let one fail with nowhere to go, wait out the cooldown, let the others succeed and all but one end, fill up again |
| Slots.StepExact | app/proxy/client.py:419-424 | From exact counters, one step of any kind leaves them exact if and only if it is not such a double release |
| Slots.ResumeSlots | app/proxy/client.py:288-353 | Net effect of a returning call on every counter: the retry target gains one slot and is another backend, the old one loses one or two (never below zero), an opened stream keeps its slot, nobody else changes |
| Slots.StepSandwiched | app/scheduler/dispatcher.py:85-95 | Every step keeps both counters between the holders and the holders less the surplus releases |
| Queueing.NobodyIsOvertaken | app/scheduler/dispatcher.py:58-108 | On every run, once the scheduler has assigned a request, no earlier arrival is still waiting |
| Queueing.StepOrderly | app/scheduler/dispatcher.py:62-108 | Every step keeps the held batch followed by the queue in arrival order, free of duplicates and complete, and nobody overtaken |
| Queueing.ResolvedExactlyOnce | app/api/routes.py:214-295 | On every run a request leaves the line only by being resolved, is in it at most once, and holds a slot only if it was assigned one or its failed fallback call was retried |
| Accounting.DispatchesAccounted | app/scheduler/dispatcher.py:85-95 | On every run, for every backend: the dispatches logged by ticks are as many as the requests assigned to it, and all its other dispatches are retries, one each |
| Queueing.FatesAreFinal | app/scheduler/dispatcher.py:66-73 | Assigned, expired, timed out or refused: on no continuation does a settled outcome change |
| Witness.OnlyAssignedHoldSlots | app/api/routes.py:285-315 | In all runs of a configuration and its rows only assigned requests hold slots, if and only if it cannot call a fallback, allows a single attempt, or has no undrained backend with a positive hard limit |
| Witness.UnassignedCanTakeASlot | app/proxy/client.py:401-423 | The run behind the other direction: refused, or timed out at the age limit, the fallback call fails and the retry takes a slot |
| Queueing.TickLeavesNoneTooOld | app/scheduler/dispatcher.py:69-78 | Whatever a tick puts back is still waiting and younger than the age limit |
| Queueing.TickIsPass | app/scheduler/dispatcher.py:65-108 | The tick of the transition system has the registry, the verdicts and the requeued list of `Pass`, the specification of `DispatchTick`, and touches nobody outside the batch |
| Queueing.TickSplitsInThree | app/scheduler/dispatcher.py:65-83 | In every tick of every run the waiting requests of the batch fall into three blocks in queue order: expired, dispatched, put back |
| Queueing.AtomicTicksKeepTheBound | app/queue/admission_queue.py:25-57 | When no other task runs between pop and put-back, queue plus batch in hand never exceed the configured size, on any run |
| Queueing.QueueDepthOnRuns | app/queue/admission_queue.py:43-57 | With arrivals in between, the queue exceeds its size by one batch at most, on any run |
| Witness.QueueBoundCanBeExceeded | app/queue/admission_queue.py:52-57 | A run in which that excess is reached |
| Dispatcher.PassIsWorkConserving | app/scheduler/dispatcher.py:65-105 | A pass dispatches exactly min(live requests of the batch, free capacity), and uses up one unit of free capacity per dispatch, whatever the scores |
| Dispatcher.VerdictAt | app/scheduler/dispatcher.py:66-83 | The verdict on each request in closed form: skipped, expired, dispatched if and only if fewer live ones precede it than there are free slots, else put back |
| Dispatcher.BatchSplitsInThree | app/scheduler/dispatcher.py:65-83 | With arrivals in order, no expired request follows a dispatched one and no dispatched one follows a requeued one |
| Dispatcher.PlaceSpendsOne | app/backends/registry.py:50-65 | A slot is taken if and only if there is free capacity (hard limit, probe budget), and then exactly one unit is spent |
| Dispatcher.PlaceIsCheapest | app/scheduler/dispatcher.py:75-92 | For every registry, class and backend to avoid, the slot taken is that of backend p if and only if p is eligible, scores no higher than any eligible backend and lower than those before it, with hot shares taken of the recent dispatches of exactly the eligible ones |
| Dispatcher.VerdictIsCheapest | app/scheduler/dispatcher.py:65-95 | Each request a pass dispatches goes to the backend that is cheapest in the registry as the requests before it have left it |
| Queueing.TicksPickCheapest | app/scheduler/dispatcher.py:65-95 | The same of every tick of every run |
| Answers.RetriesPickCheapest | app/proxy/client.py:96-117 | On every run a call that is tried again goes to the cheapest eligible backend other than the one that failed |
| Retries.RetryIsCheapest | app/proxy/client.py:347-351 | The same of every returning call, in terms of the registry before it returned |
| Dispatcher.PlaceTakesOneEligibleSlot | app/scheduler/dispatcher.py:75-92 | The backend chosen is an eligible one not to be avoided and is the only one to gain a slot; none is chosen only if none is eligible |
| Dispatcher.DispatchTick | app/scheduler/dispatcher.py:51-108 | New registry and queue are those of `Pass` on the popped batch, the requests put back standing before the untouched rest. A future resolved before is unchanged; a pending one has failed exactly if it was too old, holds the name of the backend its verdict names, or is still pending and put back. As many futures come to hold the name of a backend as it gains slots |
| Dispatcher.AssignBatch | app/scheduler/dispatcher.py:62-105 | The loop over the batch gives the registry, verdicts and requeue list of `Pass`, resolves the futures as said above, and matches futures and slots |
| Dispatcher.SlotsMatchFutures | app/scheduler/dispatcher.py:85-95 | A pass resolves to the name of a backend exactly as many futures as it takes slots of it |
| Dispatcher.KeptInOrder | app/scheduler/dispatcher.py:76-83 | The requests put back are all those with that verdict, in the order of the batch |
| Dispatcher.AssignPending | app/scheduler/dispatcher.py:65-95 | One turn: too old means failed, a slot taken means the future holds the name of that backend, which is the cheapest eligible one, and otherwise the future stays pending and the request is put back |
| Dispatcher.TakeBackend | app/scheduler/dispatcher.py:75-92 | Screening, picking and occupying in place equal `Place` on values; the backend taken is the cheapest eligible one, and nothing comes back only if nobody is eligible |
| Dispatcher.Occupy | app/scheduler/dispatcher.py:85-92 | Probe count, slot counters and dispatch window change together and nothing else does |
| Dispatcher.Reject | app/scheduler/dispatcher.py:111-128 | A pending future fails, a resolved one is left alone |
| History.FailingBackendTraffic | app/backends/health.py:37-94 | On every run: after a circuit opened at t0, and until the first success, the backend gets at most probe limit times the whole cooldown periods since t0 dispatches |
| Trace.TrafficBound | app/backends/health.py:72-94 | The same for every legal event log of a backend |
| Trace.BudgetNext | app/backends/health.py:37-87 | The invariant behind it: probes of a cooldown period are paid for by that period, through failure, reopening and half-opening |
| History.BackendsStaySound | app/backends/health.py:16-94 | On every run: closed iff no opening time, closed implies failures below the threshold, half-open implies none, probes zero unless half-open and never above their limit, slots within the hard limit, error rate in [0, 1), window count equal to that of the full history |
| Trace.CircuitStaysSound | app/backends/health.py:16-87 | Those circuit facts for every legal log |
| History.FailureCountOnRuns | app/backends/health.py:37-42 | On every run the failure counter is the number of failures since the last success or half-opening |
| Trace.StreakCountsFailures | app/backends/health.py:22-42 | The same for every log of a backend |
| History.TripsAtTheThreshold | app/backends/health.py:56-59 | On every run, until the next success, a closed circuit stays closed if and only if the failures have not reached the threshold |
| Trace.ClosedUntilThreshold | app/backends/health.py:56-59 | The same for every log without a success |
| History.DispatchedOnlyWhenAdmitted | app/backends/registry.py:50-65 | On every run each dispatch, by scheduler or by retry, met a backend that passed all eligibility checks at that moment |
| History.RunHistoried | app/backends/state.py:17-45 | On every run each backend is the replay of its own legal event log, so what holds of all logs holds of all runs |
| History.ReturnBurst | app/proxy/client.py:290-353 | The events logged for a returning call replay to exactly what the code does to each backend, and are legal |
| Recovery.ClosesOnlyByProbe | app/backends/health.py:22-28 | In every state of every run, a circuit that opened at t0 and is open or half-open can be closed by the answer to a call other than a probe if and only if somebody still waits for an answer to a call made no later than t0 |
| Recovery.ReopensOnlyByProbe | app/backends/health.py:43-54 | Likewise, a half-open circuit can be opened anew, its cooldown restarted and its probe count cleared, by the failure of a call other than a probe if and only if such a call waits |
| Recovery.RunDated | app/backends/registry.py:50-65 | On every run each call under way was made no later than its backend's circuit opened, or at least a whole cooldown after |
| Recovery.RunBarred | app/backends/health.py:72-80 | From a circuit open since t0, on every run: whatever call made before the end of that cooldown is under way later was under way already, because none is made until then |
| Recovery.ClosesWithoutDispatch | app/backends/health.py:24-28 | A circuit that is not closed can close without any further dispatch to the backend if and only if some request, probe or not, is waiting for its answer |
| Recovery.StepUnprobed | app/backends/health.py:24-28 | With nobody waiting for its answer, a circuit is not closed by any step that sends the backend nothing |
| Witness.LateSuccessClosesTheCircuit | app/backends/health.py:24-28 | A run from the start in which one of two requests opens the circuit and the other one's answer closes it after the cooldown, with nothing dispatched since the opening |
| Wedge.WedgedForever | app/backends/registry.py:50-65 | A backend with no holders that is drained, over the error cap, or half-open with its probe budget spent, is dispatched to on no continuation and stays so |
| Absorbing.WedgedExactly | app/backends/registry.py:50-65 | In every state of every run, a backend that serves nobody (positive hard and probe limits) is dispatched to on no continuation if and only if it is drained, over the error cap, or half-open with its probe budget spent |
| Absorbing.Revive | app/scheduler/dispatcher.py:51-108 | The other direction: from any such state of a backend that is none of these, let the tick end, wait, clear the queue and serve until it is its turn |
| Wedge.ProbeDecides | app/proxy/client.py:290-326 | When the probe budget of a half-open backend is out and a call returns from it with nobody else in flight there (and no stream opens), the backend is wedged afterwards if and only if it is drained, the answer was a 4xx, or the error rate ends above the cap |
| Wedge.ClientErrorWedges | app/proxy/client.py:321-326 | A sole probe answered with a 4xx takes the backend out on every continuation |
| Witness.RefusedProbeWedges | app/proxy/client.py:321-326 | A run from the start in which a probe answered with a 4xx leaves an idle backend wedged, undrained, within its error cap and with a free slot |
| Witness.TwoFailuresWedge | app/backends/registry.py:59-60 | A run from the start, with the default health and retry settings, in which two connection errors leave an idle backend wedged with its circuit closed |
| Lockout.BreakerLocksOut | app/backends/health.py:56-59 | On every run, a backend whose circuit leaves the closed state with no good sample on the way, under an error cap below 1 - (3/4)^n for the n failures that take it there, is wedged once it serves nobody: it gets no probe |
| Lockout.RunPaired | app/proxy/client.py:290-325 | On every run a backend has at least as many bad samples as failures, and as many good ones as successes, over any stretch of its log |
| Lockout.DefaultCapLocksOut | app/core/config.py:45-49 | The default cap is below 1 - (3/4)^n if and only if n is at least two |
| Registry.EligibilityCondition | app/backends/registry.py:50-65 | When a backend is eligible, whatever its circuit, in terms of its own fields, the clock and the configuration |
| Registry.RecoveryCondition | app/backends/health.py:72-80 | An open backend is eligible if and only if its cooldown has run out and drain, hard limit, error cap and probe limit allow it: being due is enough, no sweep is needed |
| Registry.CheckTwice | app/backends/registry.py:50-52 | At a fixed time a second eligibility check answers as the first and changes nothing more |
| Balance.RoundRobin | app/scheduler/scoring.py:42-76 | Identical idle backends, one request class, no completions, all inside the hot window: after n picks backend i holds n/m, plus one if i < n mod m, up to the hard limit, so no two differ by more than one |
| Balance.PickTakesTurns | app/scheduler/scoring.py:63-76 | In such a registry the pick is the backend whose turn it is |
| Balance.MoreLoadScoresHigher | app/scheduler/scoring.py:42-60 | There, equal load means equal score and more load a strictly higher one, hot and overload penalties included |
| Scoring.DispatchFeedback | app/scheduler/scoring.py:19-60 | A dispatch never lowers the score of its target and never raises that of another candidate, for every class of the next request, even when the full window drops an entry |
| Scoring.ScoreMargins | app/scheduler/scoring.py:50-55 | What one more unit of each latency and of the error rate adds to a score: its own weight |
| Scoring.ScoreOfOneMoreSlot | app/scheduler/scoring.py:34-51 | One more slot adds the load weight, and from the soft limit on the overload weight |
| Scoring.ScorePenalties | app/scheduler/scoring.py:56-58 | Recent dispatches and large work enter a score as the hot and the class penalty and in no other way |
| Scoring.IdleScoresZero | app/scheduler/scoring.py:50-59 | Nothing else is in a score |
| Scoring.HotPenaltyOfShare | app/scheduler/scoring.py:25-31 | The exact penalty of a given share: 100 times the weight for the square of the excess over the target |
| Scoring.OverloadPenaltyPerSlot | app/scheduler/scoring.py:34-39 | Nothing up to the soft limit, and exactly one weight more for every slot beyond it |
| Scoring.DominatedIsNeverPicked | app/scheduler/scoring.py:50-76 | A candidate that another beats in some weighted metric, and beats in none, is never picked |
| Scoring.ClassPenaltyRange | app/scheduler/scoring.py:10-16 | The class penalty falls on small and medium requests only, at 1.5 for each large request in flight up to 5, reached at four |
| Scoring.ClassPenaltyIsAdvisory | app/scheduler/scoring.py:10-16 | The class penalty never outweighs one slot when a slot weighs more than 5 |
| Scoring.HotPenaltyMonotone | app/scheduler/scoring.py:19-31 | A larger share of recent dispatches never carries a smaller penalty |
| Scoring.PickIsEarliestMinimum | app/scheduler/scoring.py:63-76 | The pick scores lowest, and strictly lower than every candidate before it in registry order |
| Scoring.HeadOfStableSortIsArgMin | app/scheduler/scoring.py:75-76 | The head of any stable ascending order of the keys is their one-pass minimum |
| Scoring.StableSort | app/scheduler/scoring.py:75 | The positions come out as a stable ascending permutation |
| Scoring.PickBackend | app/scheduler/scoring.py:63-76 | Total, scores, sort and head give the one-pass minimum over the candidates; nothing only for no candidates |
| Scoring.CountRecent | app/scheduler/scoring.py:71-73 | The accumulated total is the number of dispatches of all candidates in the hot window |
| Scoring.ScoreAll | app/scheduler/scoring.py:74 | One score per candidate, each under the common total |
| Scoring.SharesSumToOne | app/scheduler/scoring.py:25-27 | The shares of all candidates sum to one once any of them had a recent dispatch |
| Scoring.AtMostOneHot | app/scheduler/scoring.py:27-31 | With a target share of one half or more, no two candidates carry a hot penalty at once |
| Scoring.HotPenaltyBounded | app/scheduler/scoring.py:30-31 | A hot penalty lies between zero and 100 * weight * (1 - target)^2 |
| BackendState.WindowRefinesHistory | app/backends/state.py:45-56 | Counting in the 256-entry window is counting in the full history, cut off at 256 |
| BackendState.PushRecent | app/backends/state.py:47-49 | One more dispatch raises the count by one or, when it evicts a recent entry, not at all |
| Trace.ShareRefinesHistory | app/backends/state.py:45-56 | After every legal log the hot-share count is min(256, dispatches of the whole log since the cutoff) |
| Trace.ErrorRateStaysBelowOne | app/backends/state.py:58-67 | The error rate stays in [0, 1) under every interleaving of outcomes |
| Trace.UninterruptedFailures | app/backends/state.py:65-67 | n failures with no good sample between them give 1 - (3/4)^n (1 - e0) |
| Trace.UninterruptedSuccesses | app/backends/state.py:58-63 | n good samples with no failure between them give e0 (17/20)^n |
| Trace.TwoFailuresReachTheDefaultCap | app/core/config.py:45-49 | From zero, uninterrupted failures pass the default cap if and only if there are two or more |
| Trace.FiveSuccessesUndoFiveFailures | app/core/config.py:45-49 | After five uninterrupted failures the rate is back under the default cap if and only if five good samples followed |
| BackendState.BackendRuntimeState.constructor | app/backends/registry.py:23-31 | A configured row starts closed and idle, at 50 ms to first token, 200 ms end to end and no errors |
| BackendState.BackendRuntimeState.RecordDispatch | app/backends/state.py:47-49 | The window gains the time and, when full, loses its oldest entry; nothing else changes |
| BackendState.BackendRuntimeState.DispatchShare | app/backends/state.py:51-56 | The loop's count is the number of entries at or after the cutoff |
| Latency.EqualE2eSamples | app/backends/state.py:62 | After n good samples of x ms, whatever else happens, the end-to-end average is x + (4/5)^n (e0 - x) |
| Latency.EqualTtftSamples | app/backends/state.py:60-61 | The same of the time to first token, counting the samples that carry one |
| Latency.LatencyStaysBetween | app/backends/state.py:12-14 | Each average stays between the least and the greatest of its start and its samples, and the queue average never moves |
| Latency.LatencyAfterEvent | app/backends/state.py:58-67 | A good sample moves an average a fifth of the way to it; no other event moves any |
| Latency.LatencyOnRuns | app/backends/state.py:58-63 | All of this between any two states of any run |
| Latency.MetricsAfterReturn | app/proxy/client.py:290-325 | Which samples a returning call gives its backend, by status and kind of call |
| Latency.CircuitAfterReturn | app/proxy/client.py:290-325 | What it does to the failure streak and the circuit: below 400, from 400 to 499, anything else |
| Latency.MetricsAfterStreamEnd | app/proxy/client.py:635-640 | The end of a stream gives an end-to-end sample and no first-token one |
| BackendState.BackendRuntimeState.UpdateSuccess | app/backends/state.py:58-63 | Four fifths of the old latency and one of the sample; without a first-token sample that average stays; the error rate falls to 0.85 of itself |
| BackendState.BackendRuntimeState.UpdateFailure | app/backends/state.py:65-67 | Only the error rate moves |
| Health.OnRequestStart | app/backends/health.py:16-19 | Only a half-open backend counts a probe |
| Health.OnSuccess | app/backends/health.py:22-28 | The streak ends; a half-open circuit closes with its probe count and opening time cleared |
| Health.OnFailure | app/backends/health.py:37-59 | The streak grows; a half-open circuit reopens, a closed one opens at the threshold, an open one keeps its opening time |
| Health.MaybeTransitionFromOpen | app/backends/health.py:72-80 | Exactly the open circuits whose cooldown has run out become half-open, with probes and streak at zero |
| Registry.BackendRegistry.constructor | app/backends/registry.py:16-20 | The registry holds the configured rows, a repeated name overwriting its earlier row in place |
| Registry.LastRowWins | app/backends/registry.py:18-20 | Every configured name is found, with the last row given under it |
| Registry.RowsHaveDistinctNames | app/backends/registry.py:18-20 | Whatever is configured, the registry's names are distinct |
| Registry.BackendRegistry.Get | app/backends/registry.py:37-39 | The state under that name, or nothing if and only if there is none |
| Registry.BackendRegistry.TickCircuits | app/backends/registry.py:41-44 | Every backend, and nothing else, has its cooldown check |
| Registry.BackendRegistry.IsHealthyForSchedule | app/backends/registry.py:50-65 | The answer is eligibility after the cooldown check, which is the only effect |
| Registry.BackendRegistry.EligiblePlaces | app/proxy/client.py:103-107 | The comprehension finds the candidates and gives every screened backend its cooldown check, but not the one to avoid |
| Registry.CandidatesAreTheEligible | app/scheduler/dispatcher.py:75 | The candidates are exactly the eligible backends, in registry order |
| Admission.PendingRequest.constructor | app/core/types.py:46-60 | A new request is pending and not cancelled |
| Admission.AdmissionQueue.constructor | app/queue/admission_queue.py:20-23 | A new queue is empty |
| Admission.AdmissionQueue.Enqueue | app/queue/admission_queue.py:25-31 | Accepted, at the tail, if and only if the queue is below its size; else nothing changes |
| Admission.AdmissionQueue.PopBatch | app/queue/admission_queue.py:43-50 | The batch is the prefix of that many items (none for a count of zero or less), the rest stays in order |
| Admission.AdmissionQueue.RequeueFront | app/queue/admission_queue.py:52-57 | The items stand in their own order before the old contents, at any depth |
| Proxy.ReleaseDispatch | app/proxy/client.py:82-93 | One slot of the named backend is given back, never below zero; an unknown name changes nothing |
| Proxy.Vacate | app/proxy/client.py:91-93 | The counters of that backend, the large one only for the large classes |
| Proxy.PickRetryTarget | app/proxy/client.py:96-117 | The retry goes to the cheapest eligible backend with the failed one avoided, and takes its slot; none only if nobody else is eligible |
| Proxy.NoteOutcome | app/proxy/client.py:290-325 | Success, failure and sample updates for each kind of outcome, the first-token sample capped at ten seconds for buffered calls |
| Proxy.FinishStreaming | app/proxy/client.py:505-587 | After the suspension of a streaming call, registry and ending are those of `Resume` |
| Proxy.ReleaseAndRepick | app/proxy/client.py:347-351 | The slot is given back before the pick, so the pick sees the freed registry, and never the failed backend |
| Proxy.RetryOrGiveUp | app/proxy/client.py:328-372 | No retry due: one release and the upstream's answer; an alternative: its slot is taken; none: the slot is given back a second time |
| Proxy.FinishAttempt | app/proxy/client.py:267-446 | One turn of the loop after its suspension: it goes on if and only if an attempt is left, another backend is eligible, and the outcome is retryable, spelled out by status, configuration and kind of call; a stream opens exactly on a status below 400; any other status is relayed unchanged, and only a timeout or connection error becomes a 504. The registry is that of `Resume` |
| Proxy.ProxyChatCompletion | app/proxy/client.py:219-474 | The loop terminates within the allowed attempts; its turns form a retry chain from the first target; registry and answer are those of the last turn; the code after the loop runs if and only if no attempt is allowed |
| Proxy.FallbackTouchesNoBackend | app/proxy/client.py:88-90 | The end of a call to the fallback records nothing and gives nothing back on any backend; at most one is taken for a retry |
| Proxy.EndStream | app/proxy/client.py:635-640 | The end of a stream gives its backend a good sample without a first-token time and one slot back; the circuit and every other backend stay as they are |
| Proxy.ResumeEnds | app/proxy/client.py:321-372 | The same of every returning call: which ones may be tried again, which open a stream, and what the others answer |
| Proxy.AvoidByName | app/proxy/client.py:103-107 | Avoiding a name nobody has (the fallback's) is avoiding nobody |
| Proxy.OthersUntouched | app/proxy/client.py:290-353 | A finished call changes no name and no backend but its own |
| Proxy.RetriesExactly | app/proxy/client.py:321-351 | A call is followed by another if and only if an attempt is left, some other backend is eligible, and it was buffered and ended in a status from 500 up, an error status configured as retryable, or a timeout or connection error, or broke off in the body of an error answer |
| Answers.ReturnedHandler | app/proxy/client.py:288-372 | What the handler does then, in every state: try again exactly under those conditions and elsewhere, relay a stream, or answer with the upstream's status or as unreachable |
| Answers.CallsAreCounted | app/proxy/client.py:242-243 | On every run no request is called more often than is allowed, and the attempt number of a call is the number of calls made so far |
| Retries.NextTurn | app/proxy/client.py:347-351 | In every chain a continued turn moves to a different backend, eligible at that moment, and takes exactly one slot there and none elsewhere |
| Retries.ChainLength | app/proxy/client.py:242-243 | No chain is longer than the number of attempts allowed |
| Retries.StreamsRetryOnlyOnBodyTimeouts | app/proxy/client.py:558-560 | A stream is called again only after a timeout while the body of an error answer was read |
| Retries.LastTurn | app/proxy/client.py:353-372 | The last turn allowed never asks for another; it relays the upstream's status unchanged, or a 504 if there was none |
| Routes.Admit | app/api/routes.py:214-379 | The refusal is queue-full if and only if the queue was full, queue-age if and only if the request was queued and its wait ran out, no-backend if and only if the scheduler rejected it; it is marked cancelled exactly if its wait ran out |
| Routes.ChatCompletions | app/api/routes.py:214-390 | After an assignment the first call goes to the assigned backend. After a refusal the handler is where the transition system puts it: the answer, the fallback called, or the fallback unavailable |
| Answers.AnswersMatchFates | app/api/routes.py:216-379 | On every run a request answered queue-full, queue-age or no-backend was refused by the queue, timed out in it, or was rejected by the scheduler; without a fallback the reverse holds of answered requests, with one there are no such answers, and without its key they are answered fallback-unavailable |
| Answers.ArrivalIsQueued | app/queue/admission_queue.py:25-31 | A request arriving in a run is refused if and only if the queue is full, and otherwise waits at its tail |
| Answers.PopTakesTheHead | app/queue/admission_queue.py:43-50 | The batch of a tick is the head of the queue, as long as the batch size allows |

## Left out

- HTTP itself (`httpx`, timeouts per phase, response bodies, base URLs): each call is one nondeterministic outcome.
- Starlette responses, SSE bytes, header filtering, JSON rewriting, conversation headers: plumbing over libraries.
- Request validation, classification and conversation ids: short branch tables; the request class is an input.
- Logging, Prometheus metrics, `/ready`, `/version`, `sync_backend_gauges`: they change no scheduling state.
- YAML loading and the environment: configuration is a value, and `keySet` says whether the fallback key is present.
- Pacing and shutdown in `run_scheduler_loop`: the two calls of its body are modelled, when it makes them is not.
- `asyncio` locks and tasks: a lock body never suspends, so queue methods are atomic; `wait_for` returns the result once the future holds one, as in Python 3.11, the version of the Dockerfile. From 3.12 on, which `pyproject.toml` also allows, a timer that fires before the waiter has woken discards the result, and the slot taken is not given back: not modelled.
- Exceptions other than timeouts and connection errors, cancellation of tasks, and a stream that is never iterated: the code gives no slot back in these cases and neither does a step of the model.
- Floating-point rounding: metrics and scores are real numbers.
- `ewma_queue_ms` stays at its initial value, as in the code; no signal feeds it.
- AwaitUpstream: its contract lets any other task change any backend during a call, but not the names; what other tasks really do is in `Gateway`.
- AwaitDispatch: likewise for the wait in the handler; the future it leaves is an input of the handler's contract.
- Liveness: nothing is said about when the scheduler runs, so no request is shown to be served eventually.
