# Race participant, modelled in Dafny

The race tracker app shows two participants whose progress bars fill on a timer. Each
participant (`RaceParticipant`) is a small state machine. Its configuration is a name,
a maximum progress, a tick delay, an increment per tick and an initial progress. When the
participant is built, only the maximum, the increment and the delay are checked to be
positive. Its one mutable counter, `currentProgress`, starts at the initial progress.
`run()` waits one delay and then adds the increment, and repeats while the counter is
below the maximum. The wait is the only point where it can be cancelled. `reset()` sets
the counter to 0.

This project models that class in `RaceParticipant.dfy` (module `RaceParticipants`).
`RaceParticipantTests.dfy` (module `RaceParticipantTests`) restates the class's unit tests
as client methods that use only the class's contracts.

- The configuration is a set of `const` fields. The three checked values have the subset
  type `Positive`, so the checks made at construction stay known for the object's lifetime.
- `RaceParticipant.Create` stands for the Kotlin constructor together with its `init`
  checks. It returns `Err` with the first failing check, in the initialiser's order (maximum,
  then increment, then delay), or `Ok` with a fresh participant. The Dafny constructor is
  the part that runs after the checks pass.
- Time is counted in ticks. One tick (`Tick`) is a completed wait followed by its
  increment. `Run` is the loop left to finish. `RunFor(k)` is the loop cancelled at the
  first wait after `k` completed ticks. The cancelled wait adds nothing, and the method
  returns `Cancelled` to its caller, as the source rethrows the cancellation. If the run
  reaches the maximum within `k` ticks, it returns `Finished` instead.
- What a run does to the counter is given by pure functions: `Advance` (at most `k` loop
  iterations), `TicksToFinish` and `RunToEnd`. The lemmas prove their closed forms, their
  bounds and how pause and resume combine.

The code does not keep progress within `[0, maxProgress]`, although the comment on
`progressFactor` (RaceParticipant.kt:50-52) expects a ratio between 0 and 1.
`initialProgress` is never checked against the maximum. A final value above the maximum is
possible whenever the increment does not divide the distance: the run stops only once
progress is at or past the maximum. The model follows the code. `OvershootExample` shows a
run with maximum 100 and increment 3 ending at 102.

## Model

| member | source | states |
|---|---|---|
| `RaceParticipants.CheckConfig` | app/src/main/java/com/example/racetrackerapp/RaceParticipant.kt:20-24 | accepts exactly when maxProgress, progressIncrement and progressDelayMillis are all > 0; otherwise it reports the first check that fails, in the order maximum, increment, delay, together with the offending value |
| `RaceParticipants.RaceParticipant.Create` | app/src/main/java/com/example/racetrackerapp/RaceParticipant.kt:10-27 | fails with exactly the error that CheckConfig reports; on success it gives a fresh participant holding the given configuration, with currentProgress equal to initialProgress and no bound checked against the maximum |
| `RaceParticipants.RaceParticipant.constructor` | app/src/main/java/com/example/racetrackerapp/RaceParticipant.kt:10-16 | stores name, maximum, delay, increment and initial progress, and starts currentProgress at initialProgress |
| `RaceParticipants.RaceParticipant.Tick` | app/src/main/java/com/example/racetrackerapp/RaceParticipant.kt:31-33 | taken only while currentProgress < maxProgress; raises currentProgress by exactly progressIncrement; the configuration is const and cannot change |
| `RaceParticipants.RaceParticipant.Run` | app/src/main/java/com/example/racetrackerapp/RaceParticipant.kt:29-40 | terminates, with the decreasing measure maxProgress - currentProgress; ends at RunToEnd of the starting value, which is start + TicksToFinish * increment and at least maxProgress; performs no tick when it starts at or above the maximum; otherwise ends below maxProgress + progressIncrement |
| `RaceParticipants.RaceParticipant.RunFor` | app/src/main/java/com/example/racetrackerapp/RaceParticipant.kt:29-40 | a run cancelled at the wait after k ticks ends at Advance(start, k), that is start + min(k, TicksToFinish) * increment, so the cancelled wait adds nothing; it reports Finished exactly when the maximum was reached, that is exactly when TicksToFinish <= k, and Cancelled otherwise |
| `RaceParticipants.RaceParticipant.Reset` | app/src/main/java/com/example/racetrackerapp/RaceParticipant.kt:42-47 | sets currentProgress to 0 whatever initialProgress is and however far a run has got |
| `RaceParticipants.TicksToFinishIsLeast` | app/src/main/java/com/example/racetrackerapp/RaceParticipant.kt:31-33 | the loop's tick count is 0 from at or above the maximum; otherwise it is the least t >= 1 with start + t * increment >= maxProgress |
| `RaceParticipants.AdvanceClosedForm` | app/src/main/java/com/example/racetrackerapp/RaceParticipant.kt:31-33 | k guarded loop iterations raise progress by exactly progressIncrement per tick performed, and min(k, TicksToFinish) ticks are performed |
| `RaceParticipants.RunToEndBounds` | app/src/main/java/com/example/racetrackerapp/RaceParticipant.kt:31-35 | a completed run ends at start + TicksToFinish * increment, which is >= maxProgress; it equals the start when that is already >= maxProgress, and is below maxProgress + progressIncrement otherwise |
| `RaceParticipants.AdvancePastFinish` | app/src/main/java/com/example/racetrackerapp/RaceParticipant.kt:29-40 | a run allowed at least TicksToFinish ticks ends exactly where the uninterrupted run ends |
| `RaceParticipants.AdvanceAccumulates` | app/src/main/java/com/example/racetrackerapp/RaceParticipant.kt:29-40 | k ticks, a cancellation and then j ticks give the same progress as k + j ticks of one run |
| `RaceParticipants.AdvanceBounds` | app/src/main/java/com/example/racetrackerapp/RaceParticipant.kt:31-33 | progress never decreases while running; from below the maximum it stays below maxProgress + progressIncrement; it is still below the maximum after k ticks exactly when k < TicksToFinish |
| `RaceParticipants.ResetDuringWait` | app/src/main/java/com/example/racetrackerapp/RaceParticipant.kt:31-33 | a reset while the loop waits has the pending increment added to 0 unchecked; since maxProgress > 0 the check would hold, so j ticks of the suspended loop equal j ticks of a run from 0, which is min(j, TicksToFinish) increments |
| `RaceParticipants.OvershootExample` | app/src/main/java/com/example/racetrackerapp/RaceParticipant.kt:31-35 | with maximum 100 and increment 3, a run from 0 ends at 102: the loop does not clamp at the maximum |
| `RaceParticipantTests.UnitIncrementTicks` | app/src/test/java/com/example/racetrackerapp/RaceParticipantTests.kt:18-24 | with increment 1, the number of ticks to finish is the distance to the maximum |
| `RaceParticipantTests.NewTestParticipant` | app/src/test/java/com/example/racetrackerapp/RaceParticipantTests.kt:18-24 | the tests' participant: maximum 100, delay 500, increment 1, progress 0 |
| `RaceParticipantTests.StartedRaceProgresses` | app/src/test/java/com/example/racetrackerapp/RaceParticipantTests.kt:26-33 | after k <= 100 elapsed delays the progress is k; the run is still pending unless k is 100 |
| `RaceParticipantTests.FinishedRaceReachesMax` | app/src/test/java/com/example/racetrackerapp/RaceParticipantTests.kt:35-43 | after maxProgress elapsed delays the run has returned and progress equals maxProgress, which is 100 |
| `RaceParticipantTests.CompletedRunEndsAtMax` | app/src/test/java/com/example/racetrackerapp/RaceParticipantTests.kt:35-43 | the uninterrupted run of the tests' participant ends at exactly 100 |
| `RaceParticipantTests.ResetMidRace` | app/src/test/java/com/example/racetrackerapp/RaceParticipantTests.kt:45-53 | a reset after 20 ticks gives 0 at once, and j further ticks then give j |
| `RaceParticipantTests.ResetIgnoresInitialProgress` | app/src/main/java/com/example/racetrackerapp/RaceParticipant.kt:42-47 | a participant built with any initial progress starts there and is at 0 after a reset |
| `RaceParticipantTests.PausedRaceStops` | app/src/test/java/com/example/racetrackerapp/RaceParticipantTests.kt:55-69 | cancelling after 5 ticks reports Cancelled and leaves progress 5, both at cancellation and afterwards |
| `RaceParticipantTests.PauseAndResume` | app/src/test/java/com/example/racetrackerapp/RaceParticipantTests.kt:71-84 | k ticks, a cancellation, then j more ticks give k and then k + j, for k + j <= 100 |
| `RaceParticipantTests.PauseTwice` | app/src/test/java/com/example/racetrackerapp/RaceParticipantTests.kt:71-84 | two pauses of 5 ticks each end at 10 |
| `RaceParticipantTests.RejectsNonPositiveMaxProgress` | app/src/test/java/com/example/racetrackerapp/RaceParticipantTests.kt:86-90 | with the other parameters at their defaults, any maxProgress <= 0 is refused with the maximum-progress error |
| `RaceParticipantTests.RejectsNonPositiveDelay` | app/src/test/java/com/example/racetrackerapp/RaceParticipantTests.kt:92-96 | with the other parameters at their defaults, any progressDelayMillis <= 0 is refused with the delay error |
| `RaceParticipantTests.RejectsNonPositiveIncrement` | app/src/test/java/com/example/racetrackerapp/RaceParticipantTests.kt:98-102 | with the other parameters at their defaults, any progressIncrement <= 0 is refused with the increment error |
| `RaceParticipantTests.AcceptsDefaults` | app/src/main/java/com/example/racetrackerapp/RaceParticipant.kt:10-16 | the default configuration (100, 500, 1, 0) is accepted, and the new participant's progress is 0 |

## Left out

- `delay(progressDelayMillis)`, suspension and coroutines. A wait is an abstract tick, and cancellation is the point where `RunFor` stops. The delay value is kept only as a validated configuration field. Virtual time in the tests counts ticks.
- Rethrowing `CancellationException`: the model returns `Cancelled` to the caller instead of throwing.
- `progressFactor`. It is a floating-point ratio used only by the progress bar.
- `RaceTrackerApp.kt`: the Compose user interface and the race coordination built on `LaunchedEffect` and `coroutineScope` (launching, joining and cancelling both runs together). That is framework concurrency and is not part of this model.
- `mutableStateOf`, which makes the counter observable to the interface, and the commented-out logging.
- Kotlin `Int` and `Long` widths. Progress, maximum, increment and delay are mathematical integers, so the 32-bit wrap-around of `currentProgress += progressIncrement` is not modelled. This matters: with 32-bit `Int` the source's `run()` need not terminate. For example, maximum `Int.MAX_VALUE`, increment 2 and initial progress 0 visit only even values, wrap from 2^31 - 2 to `Int.MIN_VALUE` and loop forever. `Run`'s termination and its `currentProgress >= maxProgress` hold for unbounded integers only.
- RaceParticipant.Reset during a running loop: in the source, `reset()` can be called while `run()` is suspended in `delay`, and the loop then adds its pending increment without checking the loop condition again. The model has no concurrent run, so this is modelled as a run stopped with `RunFor` (whose `Cancelled` then means "still waiting"), a `Reset`, and a new `RunFor` from 0 that checks the condition at once. The two agree because the condition `0 < maxProgress` always holds after a reset; `ResetDuringWait` proves this. `ResetMidRace` and `StartedRaceProgresses` use the same reading of `Cancelled`.
- The `data class` members generated by Kotlin (`equals`, `hashCode`, `copy`, `toString`), and the `private` visibility of the increment, the initial progress and the counter's setter. Dafny has no visibility modifiers. Only the class's own methods assign the counter.
- Default parameter values. Dafny has no defaults, so they are the named constants `DefaultMaxProgress`, `DefaultProgressDelayMillis`, `DefaultProgressIncrement` and `DefaultInitialProgress`, and callers pass them explicitly.
- The exception messages of the failed checks. The error carries the offending value, but not the message text.
