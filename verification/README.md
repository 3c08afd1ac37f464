# SmartQueue in Dafny

SmartQueue is a JavaScript task scheduler. Callers `add` tasks, each with an id, an urgency
and a `run` function. Each `schedule()` pass scores the pending tasks and launches the
best-scoring ones, up to a concurrency ceiling (`maxConcurrency`). The score is a learned
value from a Q-table plus a weighted sum of the urgency and two probe readings. When a run
settles, the task's Q-value gets a one-step temporal-difference update (reward +1 on success,
-1 on failure). The task then leaves the registry and the running set, and the queue
schedules again. A small M/M/1-style controller estimates the queueing delay and nudges the
ceiling by one within [1, 10]. A metrics collector keeps the queue length, a window of the
last 100 wait times and a count of completed tasks.

The model is a functional state machine. One `Queue` value is the whole instance state,
and every operation is a pure transition:

| module | file | models |
|---|---|---|
| `RealArith` | realarith.dfy | the sign of a product of positive reals, used by the score and delay proofs |
| `Registry` | registry.dfy | the `tasks` `Map` (insertion order, `set` replaces in place, `delete`) and the `Option` a lookup returns |
| `Ranking` | ranking.dfy | the stable sort of a pass by descending score |
| `Scorer` | scorer.dfy | `getState`, `getScore`, `updateQValue` and the Q-table |
| `Controller` | controller.dfy | `estimateWaitTime`, `adjustConcurrency` |
| `Metrics` | metrics.dfy | `updateMetrics`, `metrics()` |
| `SmartQueue` | queue.dfy | the constructor, `add`, `schedule`, `execute`, and the wiring |
| `QueueInvariants` | invariants.dfy | admission order, the bookkeeping invariant, the ceiling bound |
| `Trace` | trace.dfy | runs of events and what every run keeps |
| `Scenarios` | scenarios.dfy | the two cases of tests/queue.test.js, a failed run, and the two discrepancies below |

Asynchrony becomes discrete events:
- `Add` is one `add` call.
- `Dispatch` is one `schedule()` pass: the deferred one that `add` queues, or the one in `execute`'s `finally`.
- `Settle(k, succeeded, now, p)` is the resolution of the `k`-th launched execution that has not settled yet, followed by its re-dispatch.
- `AdjustConcurrency` is one `adjustConcurrency()` call.

The launched executions are kept as a sequence (`inflight`) of the task records `execute` holds.
The outcome of `run()`, the clock (`Date.now()`) and the two probes (`state.resource()`,
`state.userContext()`) are parameters of the events. `Trace.Run` applies a sequence of events.

Two behaviours of the code differ from what a caller might expect, and the model follows the code:
- Duplicate ids: a caller might expect `add` to reject an id that is already queued. The code's `Map.set` overwrites the record (`Registry.Put`, `SmartQueue.Add`). `Scenarios.DuplicateIdEmptiesRegistry` shows where that leads.
- The ceiling: a caller might expect the running count never to exceed the ceiling. The code's `adjustConcurrency` can lower the ceiling below the number of running tasks, since nothing is preempted (`Scenarios.TuneUndercutsRunning`). Submissions, passes and settlements do keep the bound (`QueueInvariants.CeilingKept`, `Trace.UntunedWithinCeiling`), in runs where no `run` throws synchronously (see `SmartQueue.Dispatch` under "## Left out").

## Model

| member | source | states |
|---|---|---|
| Registry.Put | src/queue.js:21 | `Map.set`: afterwards the id maps to the new record and every other id's lookup is unchanged. A new id is appended at the end; a known id is replaced in place with no other entry moved. Ids stay distinct. |
| Registry.Remove | src/queue.js:67 | `Map.delete`: an absent id leaves the registry as it is. A present id shrinks it by one, removes exactly that id from the id set and keeps every other record, in the same relative (insertion) order. |
| Ranking.SortByScore | src/queue.js:42 | The sort returns a permutation (same multiset) of the scored candidates. |
| Ranking.SortRanked | src/queue.js:42 | Stability: candidates listed in registry order sort into descending score, with ties in registry order. |
| Ranking.RankedDistinct | src/queue.js:42 | A ranked list never repeats an entry. |
| Scorer.Round2 | src/scorer.js:28-34 | `toFixed(2)`: the sign is kept exactly when the reading is negative, and the magnitude plus half a hundredth lies in the hundredth that is returned (halves round away from zero). |
| Scorer.RoundNegation | src/scorer.js:28-34 | A negative reading prints as a minus sign followed by its magnitude printed alone. |
| Scorer.SignedZeroKeys | src/scorer.js:28-34 | -0.001 and 0.001 give different keys (`"-0.00"`, `"0.00"`), and -0.015 rounds to -0.02. |
| Scorer.StateOf | src/scorer.js:28-34 | `getState`: the two readings and the urgency, each as `toFixed(2)` gives it. No contract of its own; `Scorer.SharedKey` states what the key distinguishes. |
| Scorer.KeyOf | src/scorer.js:4-7 | The qKey: the state paired with the task id. No contract of its own; see `Scorer.SharedKey`. |
| Scorer.Value | src/scorer.js:42-46 | A table read, `qTable.get(k) \|\| 0`: the stored value of a present key and 0 for an absent one. No contract of its own; `Scorer.Seed` and `Scorer.UpdateQValue` state what reads see before and after a write. |
| Scorer.Score | src/scorer.js:14-25 | `getScore`'s formula. No contract of its own; its properties are `Scorer.ScoreDifference`, `Scorer.ScoreUrgencyMonotone`, `Scorer.ScoreResourceMonotone`, `Scorer.ScoreIgnoresStatus` and `Scorer.SeedKeepsScores`. |
| Scorer.Seed | src/scorer.js:9-12 | A missing key is inserted with 0, and no present entry and no value a read sees is changed. |
| Scorer.SeedKeepsScores | src/scorer.js:9-15 | Seeding before scoring does not change any score. |
| Scorer.ScoreDifference | src/scorer.js:20-25 | Within one reading the probe terms cancel: two scores differ by their Q-value difference plus the urgency weight times the urgency difference. |
| Scorer.ScoreUrgencyMonotone | src/scorer.js:20-25 | With equal Q-values and a positive urgency weight, a strictly higher urgency gives a strictly higher score. |
| Scorer.ScoreResourceMonotone | src/scorer.js:20-25 | Lower resource load gives a higher score: for one task under two readings with the same user context, a positive resource weight and equal Q-values, the lighter load scores strictly higher. |
| Scorer.SharedKey | src/scorer.js:4-7 | Under one reading two tasks share a Q-key exactly when they share the id and the rounded urgency. |
| Scorer.ScoreIgnoresStatus | src/scorer.js:14-25 | The score does not depend on the task's status. |
| Scorer.MaxValue | src/scorer.js:44-47 | `Math.max` over a non-empty registry: at least every task's value at the state, and equal to one of them. |
| Scorer.NextAsWritten | src/scorer.js:44-47 | The next-state estimate as written: `-Infinity` on an empty registry, the maximum otherwise (the `\|\| 0` fallback never fires on the empty case). |
| Scorer.NextValue | src/scorer.js:44-47 | Corrected next-state estimate: 0 on an empty registry; otherwise an upper bound of the registry's values that one of them attains. |
| Scorer.NextAgreesWhenNonEmpty | src/scorer.js:44-47 | The written and corrected estimates agree exactly when the registry is non-empty. |
| Scorer.UpdateQValue | src/scorer.js:36-51 | The update writes only the task's key. The new value moves from the current one by `alpha` times the temporal-difference error `reward + gamma * next - current`. |
| Scorer.NextAtLeastCurrent | src/queue.js:60-67 | At update time the settling task is still registered, so the next-state maximum is at least its own current value. |
| Scorer.LoneZeroUpdate | src/scorer.js:42-50 | A lone task whose entry reads 0 (absent or zero) ends at `alpha * reward`: -alpha after a failure, +alpha after a success. |
| Scorer.FailureLowersValue | src/queue.js:64 | With a positive learning rate, a failure strictly lowers a lone task's zero entry. |
| Controller.Estimate | src/scheduler.js:3-8 | The estimate is `Infinity` exactly when the queue length reaches 60 times the ceiling, and `-Infinity` exactly for a zero ceiling and a negative length (a division by +0). Otherwise, for a non-negative length, it is non-negative and 0 exactly for an empty queue. |
| Controller.EstimateIncreasing | src/scheduler.js:7 | For a fixed positive ceiling, the finite estimate grows strictly with the queue length. |
| Controller.Adjust | src/scheduler.js:10-17 | The ceiling drops by one exactly when the wait exceeds 5000 ms (overload included) and it is above 1. It rises by one exactly when it did not drop, the wait is below 1000 ms (`-Infinity` included) and it is below 10. It never moves by more than one. |
| Controller.AdjustInBounds | src/scheduler.js:12-15 | A ceiling in [1, 10] stays in [1, 10]. |
| Controller.ZeroCeilingGrows | src/scheduler.js:3-16 | A zero ceiling under a negative queue length estimates `-Infinity`, which is below 1000 ms, so the ceiling grows to 1. |
| Controller.IdleAtCap | src/scheduler.js:3-17 | An empty queue at ceiling 10 estimates 0 ms and keeps the ceiling at 10. |
| Metrics.Push | src/metrics.js:4-8 | The window gains the new wait at its end and loses its oldest element only once it holds 100. |
| Metrics.UpdateMetrics | src/metrics.js:3-12 | The wait `now - startTime` goes through `Push` into the window and is its last element. The queue length is untouched, and `completed` grows by one exactly when the status is completed. |
| Metrics.WindowKeepsMostRecent | src/metrics.js:4-8 | After any sequence of records, the window is exactly the last (at most 100) wait times in order. |
| Metrics.PushKeepsLast | src/metrics.js:4-8 | One record keeps exactly the last (at most 100) elements. |
| Metrics.Sum | src/queue.js:78 | The `reduce` from 0. No contract of its own; `Metrics.Report` and `Metrics.AverageBetween` state what the average built on it means. |
| Metrics.Report | src/queue.js:74-82 | `metrics()` copies the counters. Its average times the window size is the window's sum, and it is 0 for an empty window. |
| Metrics.AverageBetween | src/queue.js:77-79 | The reported average lies between any lower and upper bound of the recorded waits. |
| SmartQueue.OrDefault | src/queue.js:5-12 | `option \|\| fallback`: an omitted or falsy option takes the default, any other value is kept. |
| SmartQueue.Init | src/queue.js:2-14 | The constructor gives an empty registry, running set, table and metrics. The ceiling defaults to 4 when the option is omitted or 0. Weights, rate and discount take their options or defaults. |
| SmartQueue.Add | src/queue.js:19-27 | `add` returns a pending record (urgency 0.5 by default) and stores it under its id, leaving other ids' lookups alone. It adds one to the queue length and changes nothing else. A fresh id is appended. |
| SmartQueue.Collect | src/queue.js:32-39 | Candidates are exactly the pending tasks, each with its score and registry position, in registry order. |
| SmartQueue.SeedAll | src/queue.js:36-39 | Scoring the candidates gives each of them a key, and changes no present entry and no value a read sees. |
| SmartQueue.SeedAllKeys | src/queue.js:36-39 | Scoring adds exactly the candidates' missing keys to the table, and no other key. |
| SmartQueue.Fires | src/queue.js:30-33 | Whether a pass gets past `schedule`'s two early returns. No contract of its own; `SmartQueue.FiresExactly` states its meaning. |
| SmartQueue.FiresExactly | src/queue.js:30-33 | A pass goes on exactly when the running set is below the ceiling and some registered task is pending. |
| SmartQueue.Dispatch | src/queue.js:29-52 | `schedule()` is a no-op with a full ceiling or nothing pending. Otherwise it launches min(pending, free slots) tasks after the earlier ones, adds exactly the launched ids to `running`, keeps the bound `\|running\| <= ceiling`, and touches nothing else. |
| SmartQueue.Chosen | src/queue.js:45 | The slice: a non-empty prefix of the ranking of length min(pending, free slots). |
| SmartQueue.Launch | src/queue.js:45-48 | The admission loop. No contract of its own; `SmartQueue.LaunchFacts` states its effect. |
| SmartQueue.LaunchFacts | src/queue.js:45-48 | The loop appends the chosen records, marked running, after the earlier launches; the ids it adds to `running` are exactly the chosen ids, and `running` grows by at most the number chosen. |
| SmartQueue.DispatchRegistryAndTable | src/queue.js:36-47 | A pass only marks the launched tasks running and changes no Q-value a read sees. |
| SmartQueue.DispatchTableKeys | src/queue.js:30-39 | A pass adds to the Q-table exactly the keys of the pending tasks it scores, and adds nothing when it returns early. |
| SmartQueue.Complete | src/queue.js:54-68 | Settling removes the id from `running`, leaves the registry as `Registry.Remove` of that id (every other record kept, in order) and lowers the queue length by one. Success counts a completion and pushes `now - startTime` into the wait window; failure records neither. The table is the `Scorer.UpdateQValue` step for the settled record, with reward +1 on success and -1 on failure, taken over the registry before the removal. |
| SmartQueue.CompleteKeepsOtherKeys | src/queue.js:60-64 | A settlement writes only the settled task's own Q-key, whatever status it records. |
| SmartQueue.Outcome | src/queue.js:57-62 | The status write of a settlement. No contract of its own; `SmartQueue.SettledRecord` states its meaning. |
| SmartQueue.Reward | src/queue.js:60-64 | The reward passed to `updateQValue`. No contract of its own; `SmartQueue.SettledRecord` states its meaning. |
| SmartQueue.SettledRecord | src/queue.js:57-64 | A settled record differs from the launched one only in its status: completed exactly on success, failed exactly on failure. It keeps its Q-key. The reward is +1 or -1, positive exactly on success. |
| SmartQueue.Settle | src/queue.js:54-69 | With the re-dispatch: the settled id is gone from the registry, the queue length drops by one, `completed` grows by one exactly on success, and the ceiling is kept. |
| SmartQueue.AdjustConcurrency | src/queue.js:188-195 | Only the ceiling moves, by at most one, and a ceiling in [1, 10] stays there. |
| SmartQueue.EstimateWaitTime | src/queue.js:181-186 | `estimateWaitTime()` on the instance: `Infinity` exactly when the queue length reaches 60 times the ceiling, `-Infinity` exactly for a zero ceiling and a negative length, and otherwise, for a non-negative length, a non-negative delay that is 0 exactly for an empty queue. |
| SmartQueue.TuneFollowsEstimate | src/queue.js:188-195 | `adjustConcurrency()` lowers the ceiling exactly when the estimate is above 5000 ms and the ceiling above 1. Otherwise it raises the ceiling exactly when the estimate is below 1000 ms and the ceiling below 10. |
| SmartQueue.MetricsOf | src/queue.js:74-82 | `metrics()` on the instance: the current counters, and an average whose product with the window size is the window's sum, or 0 for an empty window. |
| QueueInvariants.CandidateShape | src/queue.js:32-38 | Every candidate is a pending registry entry carrying its own score and position. |
| QueueInvariants.PendingIsRanked | src/queue.js:32-42 | Every pending task appears in the ranking. |
| QueueInvariants.DispatchAdmitsBest | src/queue.js:36-48 | Every task a pass launches outranks every pending task it leaves behind: higher score, or equal score and earlier registry position. |
| QueueInvariants.RunningAreRunning | src/queue.js:46-47 | Under the invariant, every id in `running` names a registered task whose status is running. |
| QueueInvariants.InitInv | src/queue.js:2-14 | A new instance satisfies the bookkeeping invariant: distinct ids, running = ids in flight, queue length = registry size. |
| QueueInvariants.AddInv | src/queue.js:19-22 | `add` with a fresh id keeps the invariant. |
| QueueInvariants.DispatchInv | src/queue.js:29-52 | A pass keeps the invariant. |
| QueueInvariants.CompleteInv | src/queue.js:54-68 | Settling a launched execution keeps the invariant. |
| QueueInvariants.SettleInv | src/queue.js:54-69 | Settling plus the re-dispatch keeps the invariant. |
| QueueInvariants.AdjustInv | src/queue.js:188-195 | `adjustConcurrency` keeps the invariant, and under the invariant the queue length is never negative. |
| QueueInvariants.CeilingKept | src/queue.js:30-45 | Adding, dispatching and settling never push `running` past the ceiling. |
| Trace.Step | src/queue.js:19-72 | Submissions and passes always apply. Tuning always applies. A settlement applies exactly when its launch exists. |
| Trace.StepInv | src/queue.js:19-72 | Under the invariant a step with a fresh id keeps it, and a settlement is refused only for a launch that does not exist. |
| Trace.RunInv | src/queue.js:19-72 | A run with fresh ids from an invariant state never gets stuck and ends in an invariant state. |
| Trace.RunCounts | src/queue.js:22-68 | Along any run the queue length is the start value plus submissions minus settlements, `completed` grows by the successes, and a ceiling in [1, 10] stays there. |
| Trace.FromInit | src/queue.js:2-68 | From a new instance with fresh ids, and with no `run` that throws synchronously, queue length = registry size = submissions - settlements, `completed` = successes, and `running` = the ids in flight. |
| Trace.UntunedWithinCeiling | src/queue.js:30-45 | A run without `adjustConcurrency` keeps `\|running\| <= ceiling`. |
| Scenarios.SingleTaskAdded | tests/queue.test.js:4-14 | `add({id: 'test'})` on a ceiling-1 queue stores one pending record of urgency 0.5 with queue length 1. |
| Scenarios.SingleTaskLaunches | tests/queue.test.js:3-14 | The deferred pass launches that task. |
| Scenarios.SingleTaskCompletes | tests/queue.test.js:3-30 | Its successful settlement gives `completed` 1 and queue length 0, records one wait and empties registry and running set. |
| Scenarios.SingleTaskReport | tests/queue.test.js:19-29 | `metrics()` then reports queue length 0, one completion and the single wait as the average. |
| Scenarios.HighestUrgencyFirst | tests/queue.test.js:32-80 | Three adds (0.8, 0.6, 0.9) on a ceiling of 2: the first pass launches task3, then task1, and leaves task2 pending. |
| Scenarios.SingleTaskFails | src/queue.js:61-68 | A failed run empties the queue and records neither a completion nor a wait. |
| Scenarios.LoneRewarded | src/queue.js:54-68 | Settling a lone launched task whose entry reads 0 leaves that entry at the learning rate times the ±1 reward. |
| Scenarios.SingleTaskRewarded | src/queue.js:57-64 | The settled task's Q-value goes from 0 to the learning rate on success and to minus it on failure. |
| Scenarios.ShrinkThreeOverTwo | src/scheduler.js:3-13 | Three queued against a ceiling of 2 estimate above 5000 ms, and the ceiling drops to 1. |
| Scenarios.TuneUndercutsRunning | src/scheduler.js:10-13 | Tuning right after the second test's first pass sets the ceiling to 1 while two tasks run. |
| Scenarios.DuplicateIdEmptiesRegistry | src/queue.js:172-175 | Re-adding a running id and settling the first run leaves an empty registry while the second run is in flight. That run's next-state estimate is `-Infinity` as written and 0 corrected. |

## Left out

- The debug overlay (`initDebugger`, `updateDebugger`, src/debugger.js) and the build configuration: DOM output with no effect on scheduling.
- Real asynchrony: `await`, `setTimeout` and promise interleavings are abstracted into the `Add`, `Dispatch`, `Settle` and `AdjustConcurrency` events, applied atomically in any order `Trace.Run` is given.
- SmartQueue.Dispatch: a pass and a settlement are each atomic, so a settlement never happens inside a pass. In the source, `execute` is `async`, and a `run` that throws synchronously reaches `catch` and `finally` before any `await` (src/queue.js:54-69). Its `schedule()` then runs nested inside the admission loop (src/queue.js:45-48), and the outer loop keeps walking its precomputed slice without re-checking status. Example: ceiling 2, task A whose `run` throws synchronously and an asynchronous task B, added in one tick. The outer pass takes [A, B]; A settles at once and the nested pass launches B; the outer loop then launches B a second time. One successful submission then counts 2 completions, the queue length ends at -1, and B's second settlement takes the maximum over an empty registry. When the probes change between calls, the nested ranking can differ and push `running` past the ceiling. None of this is modelled, and the ceiling and counting properties (`QueueInvariants.CeilingKept`, `Trace.UntunedWithinCeiling`, `Trace.FromInit`, `Trace.RunCounts`) hold only for runs without such a throw.
- `Date.now()` and the probes `state.resource()`/`state.userContext()` are parameters. The default probes (0.5 and 1) are one such reading, so the scenarios, which hold for every reading, cover them. One probe reading is used for the whole event, although the source calls the probes afresh for each score.
- The `run` function, the result and the error payload (`task.result`, `task.error`): only success or failure is modelled.
- Numbers are exact reals and integers. IEEE-754 rounding, `NaN` and infinities in the inputs are not modelled. `Scorer.Round2` rounds exact halves of the real reading, where the source rounds the nearest binary double; it also does not model `toFixed`'s exponent notation for magnitudes of 10^21 and above. `JSON.stringify` of the state is the `StateKey` datatype.
- Scorer.KeyOf: task ids are strings. The source accepts any value as an id; the `Map` keeps `1` and `"1"` (or two objects) apart while the qKey template prints them alike, so they would share Q-values. That sharing is not modelled.
- `Scorer.NextAsWritten`: a JavaScript number is reduced to finite or `-Infinity`. The `-Infinity` Q-value the source would then store is not modelled; the rest of the model uses the corrected `Scorer.NextValue`.
- The `waitTime: 0` field of a task record is never read and is not modelled.
- `SmartQueue.Init`: the `maxConcurrency` option is an integer. Non-integer and non-number options are not modelled.
- `QueueInvariants.AddInv`: the bookkeeping invariant is proved only while submitted ids are fresh. A re-used id breaks it; see `Scenarios.DuplicateIdEmptiesRegistry`.
- SmartQueue.SeedAll: its own contract says only that every candidate's key is present, not that no other key is added. `SmartQueue.SeedAllKeys` and `SmartQueue.DispatchTableKeys` state the exact key set as lemmas. Carrying that set on the function makes every proof that unfolds a pass much more expensive.
- `SmartQueue.Settle`: the ensures says nothing about `running` after the re-dispatch. The bound is stated separately by `QueueInvariants.CeilingKept`.
- The prototype copies of `getScore`, `getState`, `updateQValue`, `estimateWaitTime`, `adjustConcurrency` and `updateMetrics` in src/scorer.js, src/scheduler.js and src/metrics.js match the class methods in src/queue.js. They are modelled once; rows cite whichever file is clearer.

## Findings

| source | as written | input that shows it | evidently intended | confidence | as-written member | corrected member |
|---|---|---|---|---|---|---|
| src/queue.js:172-175 (same in src/scorer.js:44-47) | `Math.max(...values) \|\| 0` over the registry. With an empty registry, `Math.max()` is `-Infinity`, which is truthy, so the fallback does not apply and the Q-value becomes `-Infinity`. | Ceiling 2. Add "a", dispatch, add "a" again, dispatch, settle the first run: the registry is empty while the second run of "a" is in flight, and its settlement takes the maximum over no tasks. | The fallback gives 0 when there is no next task. | medium — not executed | Scorer.NextAsWritten (exhibited by Scenarios.DuplicateIdEmptiesRegistry) | Scorer.NextValue (with Scorer.NextAgreesWhenNonEmpty; used by Scorer.UpdateQValue) |
