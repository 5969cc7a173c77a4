/**
 The participant's unit tests as client code: each scenario drives a participant only
 through the methods of RaceParticipants and states the outcome the test asserts.
 The tests' participant has maximum 100, delay 500 ms, increment 1 and initial
 progress 0; one tick stands for one elapsed delay.
 */
module RaceParticipantTests {
  import opened RaceParticipants

  /** With increment 1 the number of ticks left is the distance to the maximum. */
  lemma UnitIncrementTicks(progress: int, maxProgress: int)
    requires progress <= maxProgress
    ensures TicksToFinish(progress, maxProgress, 1) == maxProgress - progress
  {
    TicksToFinishIsLeast(progress, maxProgress, 1);
  }

  method NewTestParticipant() returns (p: RaceParticipant)
    ensures fresh(p)
    ensures p.maxProgress == 100 && p.progressDelayMillis == 500 && p.progressIncrement == 1
    ensures p.currentProgress == 0
  {
    p := new RaceParticipant("Test", 100, 500, 1, 0);
  }

  /** After `k` elapsed delays the progress is `k`; the run is still waiting below 100. */
  method StartedRaceProgresses(k: nat) returns (progress: int, outcome: RunOutcome)
    requires k <= 100
    ensures progress == k
    ensures outcome == (if k == 100 then Finished else Cancelled)
  {
    var p := NewTestParticipant();
    UnitIncrementTicks(0, 100);
    outcome := p.RunFor(k);
    progress := p.currentProgress;
  }

  /** After maxProgress elapsed delays the run has returned with progress at the maximum. */
  method FinishedRaceReachesMax() returns (progress: int, maxProgress: int, outcome: RunOutcome)
    ensures progress == 100 && maxProgress == 100 && outcome == Finished
  {
    var p := NewTestParticipant();
    UnitIncrementTicks(0, 100);
    outcome := p.RunFor(p.maxProgress);
    progress, maxProgress := p.currentProgress, p.maxProgress;
  }

  /** A run left to complete ends exactly at the maximum when the increment is 1. */
  method CompletedRunEndsAtMax() returns (progress: int)
    ensures progress == 100
  {
    var p := NewTestParticipant();
    UnitIncrementTicks(0, 100);
    p.Run();
    progress := p.currentProgress;
  }

  /**
   A reset after 20 ticks of a run that is still going gives progress 0, and the run's
   later ticks count from 0. The run still waiting after 20 ticks is `RunFor` returning
   `Cancelled`, and its continuation is a new `RunFor` from 0; ResetDuringWait shows that
   this agrees with the suspended loop adding its pending increment unchecked.
   */
  method ResetMidRace(j: nat) returns (afterReset: int, afterMore: int)
    requires j <= 100
    ensures afterReset == 0
    ensures afterMore == j
  {
    var p := NewTestParticipant();
    UnitIncrementTicks(0, 100);
    var outcome := p.RunFor(p.maxProgress / 5);
    p.Reset();
    afterReset := p.currentProgress;
    outcome := p.RunFor(j);
    afterMore := p.currentProgress;
  }

  /** A reset gives 0 whatever the initial progress was. */
  method ResetIgnoresInitialProgress(initialProgress: int) returns (before: int, after: int)
    ensures before == initialProgress
    ensures after == 0
  {
    var p := new RaceParticipant("Test", 100, 500, 1, initialProgress);
    before := p.currentProgress;
    p.Reset();
    after := p.currentProgress;
  }

  /**
   Cancelling after 5 ticks leaves progress 5: the cancelled wait adds nothing, and
   since nothing else writes the progress, later time changes nothing either.
   */
  method PausedRaceStops() returns (beforeCancel: int, afterCancel: int, outcome: RunOutcome)
    ensures beforeCancel == 5 && afterCancel == 5
    ensures outcome == Cancelled
  {
    var p := NewTestParticipant();
    UnitIncrementTicks(0, 100);
    outcome := p.RunFor(5);
    beforeCancel := p.currentProgress;
    afterCancel := p.currentProgress;
  }

  /** Two runs of `k` and `j` ticks with a cancellation between them give `k + j`. */
  method PauseAndResume(k: nat, j: nat) returns (first: int, second: int)
    requires k + j <= 100
    ensures first == k && second == k + j
  {
    var p := NewTestParticipant();
    UnitIncrementTicks(0, 100);
    var outcome := p.RunFor(k);
    first := p.currentProgress;
    UnitIncrementTicks(k, 100);
    outcome := p.RunFor(j);
    second := p.currentProgress;
  }

  /** The test's numbers: two pauses of 5 ticks each end at 10. */
  method PauseTwice() returns (progress: int)
    ensures progress == 10
  {
    var first;
    first, progress := PauseAndResume(5, 5);
  }

  /** A non-positive maximum, with the other parameters at their defaults, is refused. */
  method RejectsNonPositiveMaxProgress(maxProgress: int) returns (r: Result<RaceParticipant>)
    requires maxProgress <= 0
    ensures r == Err(MaxProgressNotPositive(maxProgress))
  {
    r := RaceParticipant.Create("Test Racer", maxProgress, DefaultProgressDelayMillis,
                                DefaultProgressIncrement, DefaultInitialProgress);
  }

  /** A non-positive delay, with the other parameters at their defaults, is refused. */
  method RejectsNonPositiveDelay(progressDelayMillis: int) returns (r: Result<RaceParticipant>)
    requires progressDelayMillis <= 0
    ensures r == Err(ProgressDelayNotPositive(progressDelayMillis))
  {
    r := RaceParticipant.Create("Test Racer", DefaultMaxProgress, progressDelayMillis,
                                DefaultProgressIncrement, DefaultInitialProgress);
  }

  /** A non-positive increment, with the other parameters at their defaults, is refused. */
  method RejectsNonPositiveIncrement(progressIncrement: int) returns (r: Result<RaceParticipant>)
    requires progressIncrement <= 0
    ensures r == Err(ProgressIncrementNotPositive(progressIncrement))
  {
    r := RaceParticipant.Create("Test Racer", DefaultMaxProgress, DefaultProgressDelayMillis,
                                progressIncrement, DefaultInitialProgress);
  }

  /** The defaults are a valid configuration, and the new participant starts at 0. */
  method AcceptsDefaults(name: string) returns (progress: int)
    ensures progress == 0
  {
    var r := RaceParticipant.Create(name, DefaultMaxProgress, DefaultProgressDelayMillis,
                                    DefaultProgressIncrement, DefaultInitialProgress);
    progress := r.value.currentProgress;
  }
}
