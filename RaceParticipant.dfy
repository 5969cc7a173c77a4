/**
 A race participant: a progress counter that advances by a fixed increment once per
 timer tick until it reaches its maximum, and that can be cancelled at the wait before
 each tick and reset to zero.

 Time is modelled in discrete ticks: one tick is a completed wait followed by its
 increment. A run that is cancelled while waiting is a run that stops after a given
 number of completed ticks; the wait that is cancelled adds nothing.
 */
module RaceParticipants {

  /** The configuration values that the participant's initialiser requires to be > 0. */
  type Positive = x: int | x > 0 witness 1

  /** The argument error raised by a failed `require` in the initialiser, with the offending value. */
  datatype ConfigError =
    | MaxProgressNotPositive(maxProgress: int)
    | ProgressIncrementNotPositive(progressIncrement: int)
    | ProgressDelayNotPositive(progressDelayMillis: int)

  datatype Option<T> = None | Some(value: T)

  datatype Result<T> = Ok(value: T) | Err(error: ConfigError)

  /** How a run ends: it returns normally, or its pending wait is cancelled. */
  datatype RunOutcome = Finished | Cancelled

  /** Defaults of the participant's optional parameters. */
  const DefaultMaxProgress: int := 100
  const DefaultProgressDelayMillis: int := 500
  const DefaultProgressIncrement: int := 1
  const DefaultInitialProgress: int := 0

  function Min(a: int, b: int): int { if a <= b then a else b }

  /**
   The initialiser's three checks, made in its order (maximum, increment, delay); the
   first that fails is the error reported. `None` means the configuration is accepted.
   */
  function CheckConfig(maxProgress: int, progressDelayMillis: int, progressIncrement: int): (r: Option<ConfigError>)
    ensures r == None <==> maxProgress > 0 && progressIncrement > 0 && progressDelayMillis > 0
    ensures r == Some(MaxProgressNotPositive(maxProgress)) <==> maxProgress <= 0
    ensures r == Some(ProgressIncrementNotPositive(progressIncrement)) <==>
              maxProgress > 0 && progressIncrement <= 0
    ensures r == Some(ProgressDelayNotPositive(progressDelayMillis)) <==>
              maxProgress > 0 && progressIncrement > 0 && progressDelayMillis <= 0
  {
    if maxProgress <= 0 then Some(MaxProgressNotPositive(maxProgress))
    else if progressIncrement <= 0 then Some(ProgressIncrementNotPositive(progressIncrement))
    else if progressDelayMillis <= 0 then Some(ProgressDelayNotPositive(progressDelayMillis))
    else None
  }

  // ---------------------------------------------------------------------------
  // The meaning of run(): functions of the progress value alone
  // ---------------------------------------------------------------------------

  /**
   Progress after at most `k` iterations of run()'s loop from `progress`: an iteration
   happens only while progress is below the maximum and adds `increment`.
   */
  function Advance(progress: int, maxProgress: int, increment: int, k: nat): int
    decreases k
  {
    if k == 0 || progress >= maxProgress then progress
    else Advance(progress + increment, maxProgress, increment, k - 1)
  }

  /** The number of ticks run() performs from `progress` before its loop condition fails. */
  function TicksToFinish(progress: int, maxProgress: int, increment: Positive): nat
    decreases maxProgress - progress
  {
    if progress >= maxProgress then 0
    else 1 + TicksToFinish(progress + increment, maxProgress, increment)
  }

  /** The progress at which run() returns normally when it starts from `progress`. */
  function RunToEnd(progress: int, maxProgress: int, increment: Positive): int
    decreases maxProgress - progress
  {
    if progress >= maxProgress then progress
    else RunToEnd(progress + increment, maxProgress, increment)
  }

  /**
   TicksToFinish is the least number of increments that brings `progress` to the
   maximum: one fewer still leaves it below.
   */
  lemma {:induction false} TicksToFinishIsLeast(progress: int, maxProgress: int, increment: Positive)
    ensures progress >= maxProgress ==> TicksToFinish(progress, maxProgress, increment) == 0
    ensures progress < maxProgress ==>
              var t := TicksToFinish(progress, maxProgress, increment);
              t >= 1 && progress + (t - 1) * increment < maxProgress <= progress + t * increment
    decreases maxProgress - progress
  {
    if progress < maxProgress {
      var next := progress + increment;
      var t' := TicksToFinish(next, maxProgress, increment);
      TicksToFinishIsLeast(next, maxProgress, increment);
      if next < maxProgress {
        assert (1 + t') * increment == increment + t' * increment;
        assert (1 + t' - 1) * increment == increment + (t' - 1) * increment;
      }
    }
  }

  /**
   Closed form of the tick loop: after at most `k` ticks the progress has risen by
   exactly `increment` per tick actually performed, and a tick is performed only while
   the maximum has not been reached.
   */
  lemma {:induction false} AdvanceClosedForm(progress: int, maxProgress: int, increment: Positive, k: nat)
    ensures Advance(progress, maxProgress, increment, k) ==
              progress + Min(k, TicksToFinish(progress, maxProgress, increment)) * increment
    decreases k
  {
    if k > 0 && progress < maxProgress {
      var next := progress + increment;
      AdvanceClosedForm(next, maxProgress, increment, k - 1);
      var m := Min(k - 1, TicksToFinish(next, maxProgress, increment));
      assert Min(k, TicksToFinish(progress, maxProgress, increment)) == 1 + m;
      assert (1 + m) * increment == increment + m * increment;
    }
  }

  /**
   A run that returns normally ends at or above the maximum, performs no tick when it
   starts there, overshoots the maximum by less than one increment otherwise, and has
   raised progress by exactly TicksToFinish increments.
   */
  lemma {:induction false} RunToEndBounds(progress: int, maxProgress: int, increment: Positive)
    ensures RunToEnd(progress, maxProgress, increment) ==
              progress + TicksToFinish(progress, maxProgress, increment) * increment
    ensures RunToEnd(progress, maxProgress, increment) >= maxProgress
    ensures progress >= maxProgress ==> RunToEnd(progress, maxProgress, increment) == progress
    ensures progress < maxProgress ==> RunToEnd(progress, maxProgress, increment) < maxProgress + increment
    decreases maxProgress - progress
  {
    TicksToFinishIsLeast(progress, maxProgress, increment);
    if progress < maxProgress {
      var next := progress + increment;
      var t' := TicksToFinish(next, maxProgress, increment);
      RunToEndBounds(next, maxProgress, increment);
      assert (1 + t') * increment == increment + t' * increment;
    }
  }

  /** Enough ticks for the run to finish give the same progress as the run to completion. */
  lemma {:induction false} AdvancePastFinish(progress: int, maxProgress: int, increment: Positive, k: nat)
    requires k >= TicksToFinish(progress, maxProgress, increment)
    ensures Advance(progress, maxProgress, increment, k) == RunToEnd(progress, maxProgress, increment)
  {
    AdvanceClosedForm(progress, maxProgress, increment, k);
    RunToEndBounds(progress, maxProgress, increment);
  }

  /**
   Pausing and resuming accumulates: `k` ticks, a cancellation, then `j` more ticks
   give the same progress as `k + j` ticks of one uninterrupted run.
   */
  lemma {:induction false} AdvanceAccumulates(progress: int, maxProgress: int, increment: int, k: nat, j: nat)
    ensures Advance(Advance(progress, maxProgress, increment, k), maxProgress, increment, j) ==
              Advance(progress, maxProgress, increment, k + j)
    decreases k
  {
    if k > 0 && progress < maxProgress {
      AdvanceAccumulates(progress + increment, maxProgress, increment, k - 1, j);
    }
  }

  /**
   While running, progress never decreases, and from below the maximum it never goes
   one full increment past it.
   */
  lemma AdvanceBounds(progress: int, maxProgress: int, increment: Positive, k: nat)
    ensures progress <= Advance(progress, maxProgress, increment, k)
    ensures progress < maxProgress ==> Advance(progress, maxProgress, increment, k) < maxProgress + increment
    ensures Advance(progress, maxProgress, increment, k) < maxProgress <==>
              k < TicksToFinish(progress, maxProgress, increment)
  {
    AdvanceClosedForm(progress, maxProgress, increment, k);
    TicksToFinishIsLeast(progress, maxProgress, increment);
    var t := TicksToFinish(progress, maxProgress, increment);
    var m := Min(k, t);
    assert 0 <= m * increment;
    if progress < maxProgress {
      assert m * increment <= t * increment;
      if k < t {
        assert k * increment <= (t - 1) * increment;
      }
    }
  }

  /**
   A reset while run() is suspended in its wait: the pending increment is then added to
   0 without the loop condition being checked again. Because the maximum is positive,
   that condition holds at 0 anyway, so the suspended loop's next `j` ticks give what
   `j` ticks of a run started at 0 give; `j` ticks from 0 raise progress by
   min(j, TicksToFinish) increments.
   */
  lemma ResetDuringWait(maxProgress: Positive, increment: Positive, j: nat)
    requires j > 0
    ensures Advance(0, maxProgress, increment, j) == Advance(increment, maxProgress, increment, j - 1)
    ensures Advance(0, maxProgress, increment, j) == Min(j, TicksToFinish(0, maxProgress, increment)) * increment
  {
    AdvanceClosedForm(0, maxProgress, increment, j);
  }

  /**
   Progress does not stop at the maximum: with an increment that does not divide the
   distance, a completed run ends above it (100 and increment 3 end at 102).
   */
  lemma OvershootExample()
    ensures RunToEnd(0, 100, 3) == 102
  {
    RunToEndBounds(0, 100, 3);
    TicksToFinishIsLeast(0, 100, 3);
  }

  // ---------------------------------------------------------------------------
  // The participant
  // ---------------------------------------------------------------------------

  class RaceParticipant {
    const name: string
    const maxProgress: Positive
    const progressDelayMillis: Positive
    const progressIncrement: Positive
    const initialProgress: int

    /** The only mutable state; written by run() and reset() only. */
    var currentProgress: int

    /** A participant whose configuration has already passed the initialiser's checks. */
    constructor (name: string, maxProgress: Positive, progressDelayMillis: Positive,
                 progressIncrement: Positive, initialProgress: int)
      ensures this.name == name && this.maxProgress == maxProgress
      ensures this.progressDelayMillis == progressDelayMillis
      ensures this.progressIncrement == progressIncrement && this.initialProgress == initialProgress
      ensures currentProgress == initialProgress
    {
      this.name := name;
      this.maxProgress := maxProgress;
      this.progressDelayMillis := progressDelayMillis;
      this.progressIncrement := progressIncrement;
      this.initialProgress := initialProgress;
      currentProgress := initialProgress;
    }

    /**
     Construction with the initialiser's checks: an error for the first non-positive
     maximum, increment or delay, otherwise a new participant whose progress starts at
     `initialProgress`, which is not checked against the maximum.
     */
    static method Create(name: string, maxProgress: int, progressDelayMillis: int,
                         progressIncrement: int, initialProgress: int) returns (r: Result<RaceParticipant>)
      ensures r.Err? <==> CheckConfig(maxProgress, progressDelayMillis, progressIncrement).Some?
      ensures r.Err? ==> Some(r.error) == CheckConfig(maxProgress, progressDelayMillis, progressIncrement)
      ensures r.Ok? ==> fresh(r.value)
      ensures r.Ok? ==> r.value.name == name && r.value.maxProgress == maxProgress
                        && r.value.progressDelayMillis == progressDelayMillis
                        && r.value.progressIncrement == progressIncrement
                        && r.value.initialProgress == initialProgress
                        && r.value.currentProgress == initialProgress
    {
      match CheckConfig(maxProgress, progressDelayMillis, progressIncrement)
      case Some(e) =>
        r := Err(e);
      case None =>
        var p := new RaceParticipant(name, maxProgress, progressDelayMillis, progressIncrement, initialProgress);
        r := Ok(p);
    }

    /** One completed wait followed by its increment; taken only under the loop condition. */
    method Tick()
      requires currentProgress < maxProgress
      modifies this
      ensures currentProgress == old(currentProgress) + progressIncrement
    {
      currentProgress := currentProgress + progressIncrement;
    }

    /** run() left to complete: ticks while progress is below the maximum. */
    method Run()
      modifies this
      ensures currentProgress == RunToEnd(old(currentProgress), maxProgress, progressIncrement)
      ensures currentProgress == old(currentProgress)
                                 + TicksToFinish(old(currentProgress), maxProgress, progressIncrement) * progressIncrement
      ensures currentProgress >= maxProgress
      ensures old(currentProgress) >= maxProgress ==> currentProgress == old(currentProgress)
      ensures old(currentProgress) < maxProgress ==> currentProgress < maxProgress + progressIncrement
    {
      while currentProgress < maxProgress
        invariant RunToEnd(currentProgress, maxProgress, progressIncrement) ==
                  RunToEnd(old(currentProgress), maxProgress, progressIncrement)
        decreases maxProgress - currentProgress
      {
        Tick();
      }
      RunToEndBounds(old(currentProgress), maxProgress, progressIncrement);
    }

    /**
     run() cancelled at its first wait after `k` completed ticks. If the maximum is
     reached within `k` ticks the run returns normally instead; otherwise the wait that
     is cancelled adds nothing and the cancellation is reported to the caller.
     */
    method RunFor(k: nat) returns (outcome: RunOutcome)
      modifies this
      ensures currentProgress == Advance(old(currentProgress), maxProgress, progressIncrement, k)
      ensures currentProgress == old(currentProgress)
                                 + Min(k, TicksToFinish(old(currentProgress), maxProgress, progressIncrement)) * progressIncrement
      ensures outcome == Finished <==> currentProgress >= maxProgress
      ensures outcome == Finished <==> TicksToFinish(old(currentProgress), maxProgress, progressIncrement) <= k
    {
      AdvanceClosedForm(currentProgress, maxProgress, progressIncrement, k);
      AdvanceBounds(currentProgress, maxProgress, progressIncrement, k);
      var ticks: nat := 0;
      while currentProgress < maxProgress
        invariant ticks <= k
        invariant Advance(currentProgress, maxProgress, progressIncrement, k - ticks) ==
                  Advance(old(currentProgress), maxProgress, progressIncrement, k)
        decreases k - ticks
      {
        if ticks == k {
          return Cancelled;
        }
        Tick();
        ticks := ticks + 1;
      }
      return Finished;
    }

    /** Progress back to zero, whatever the initial progress and however far a run has got. */
    method Reset()
      modifies this
      ensures currentProgress == 0
    {
      currentProgress := 0;
    }
  }
}
