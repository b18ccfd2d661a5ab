/**
 * The per-step view models of the motor-control assessments. The motion
 * sensor step coordinates a countdown, the prompt scheduler and the
 * recorder's lifecycle, and turns recorder failures into an error result in
 * the step's result slot. The tapping step adds the tap aggregator.
 *
 * Asynchronous work runs here as sequential steps: the outcome of the
 * recorder's start and stop is a parameter, and speech completes before
 * `Speak` returns. Texts handed to the speech engine are kept in the ghost
 * log `spoken`.
 */
module ViewModels {
  import opened Wrappers
  import opened Recorder
  import opened Prompts
  import opened Countdown
  import opened Tapping

  /** What `stopRecorder()` returns: none unless the recorder was running, and a thrown error wrapped in an error result. */
  function StopRecorderResult(status: RecorderStatus, identifier: string, outcome: StopOutcome): (r: Option<ResultData>)
    ensures r.Some? <==> status == Running
    ensures r.Some? && outcome.Finished? ==> r.value == outcome.result
    ensures r.Some? && outcome.StopFailed? ==> r.value == ErrorResultObject(identifier, outcome.error)
  {
    if status != Running then None
    else match outcome
      case Finished(result) => Some(result)
      case StopFailed(error) => Some(ErrorResultObject(identifier, error))
  }

  class MotionSensorStepViewModel {
    /** The step's fixed duration, in seconds. */
    const duration: real
    /** Registered prompts, by whole-second offset, with the hand already substituted. */
    const spokenInstructions: map<int, string>
    /** The step node's identifier, carried by error results. */
    const identifier: string
    const recorder: MotionRecorder
    var instructionCache: set<int>
    var countdown: real
    var isPaused: bool
    /** The host's result slot for this step (`branchNodeResult.asyncResults`). */
    var asyncResults: Option<seq<ResultData>>
    ghost var spoken: seq<string>

    ghost predicate Valid()
      reads this, recorder
    {
      && recorder.Valid()
      && 0.0 <= duration
      && 0.0 <= countdown <= duration
      && instructionCache <= spokenInstructions.Keys
    }

    constructor (duration: real, spokenInstructions: map<int, string>, identifier: string,
                 assessmentIdentifier: string, branchIdentifier: string,
                 asyncResults: Option<seq<ResultData>>)
      requires 0.0 <= duration
      ensures Valid() && fresh(recorder)
      ensures this.duration == duration && this.spokenInstructions == spokenInstructions
      ensures this.identifier == identifier && this.asyncResults == asyncResults
      ensures recorder.status == Idle && recorder.runningDuration == 0.0 && recorder.calls == []
      ensures recorder.currentStepPath == assessmentIdentifier + "/" + branchIdentifier
      ensures countdown == duration && instructionCache == {} && !isPaused && spoken == []
    {
      this.duration := duration;
      this.spokenInstructions := spokenInstructions;
      this.identifier := identifier;
      recorder := new MotionRecorder(assessmentIdentifier + "/" + branchIdentifier);
      instructionCache := {};
      countdown := duration;
      isPaused := false;
      this.asyncResults := asyncResults;
      spoken := [];
    }

    /** `speak(at:)`: speaks the prompt for `Key(t, duration)` unless it is already cached or not registered. */
    method Speak(t: real)
      requires Valid()
      modifies this`instructionCache, this`spoken
      ensures Valid()
      ensures var s := SpeakStep(old(instructionCache), spokenInstructions, duration, t);
        instructionCache == s.cache && spoken == old(spoken) + UtteranceLog(s.utterance)
    {
      var key := Key(t, duration);
      if key in instructionCache || key !in spokenInstructions {
        return;
      }
      instructionCache := instructionCache + {key};
      spoken := spoken + [spokenInstructions[key]];
    }

    /** `resetCountdown()`: the recorder's clock reads zero, the countdown is full and the prompt cache is empty. */
    method ResetCountdown()
      requires Valid()
      modifies recorder, this`countdown, this`instructionCache
      ensures Valid()
      ensures recorder.status == old(recorder.status) && recorder.runningDuration == 0.0
      ensures recorder.calls == old(recorder.calls) + [ClockReset]
      ensures countdown == duration && instructionCache == {}
    {
      recorder.ResetClock();
      countdown := duration;
      instructionCache := {};
    }

    /** `startRecorder()`: starts an idle recorder; a start failure resets its clock and fills the slot with an error result. */
    method StartRecorder(outcome: StartOutcome)
      requires Valid()
      modifies recorder, this`asyncResults
      ensures Valid()
      ensures old(recorder.status) != Idle ==> unchanged(recorder) && asyncResults == old(asyncResults)
      ensures old(recorder.status) == Idle ==> recorder.status == StatusAfterStart(outcome)
      ensures old(recorder.status) == Idle && outcome.Started? ==>
        && recorder.calls == old(recorder.calls) + [StartCall]
        && recorder.runningDuration == old(recorder.runningDuration)
        && asyncResults == old(asyncResults)
      ensures old(recorder.status) == Idle && outcome.StartFailed? ==>
        && recorder.calls == old(recorder.calls) + [StartCall, ClockReset]
        && recorder.runningDuration == 0.0
        && asyncResults == Some([ErrorResultObject(identifier, outcome.error)])
    {
      if recorder.status != Idle {
        return;
      }
      recorder.Start(outcome);
      if outcome.StartFailed? {
        recorder.ResetClock();
        asyncResults := Some([ErrorResultObject(identifier, outcome.error)]);
      }
    }

    /** `updateCountdown()`: one poll against the recorder's clock. */
    method UpdateCountdown() returns (r: Option<Tick>)
      requires Valid()
      modifies this`countdown
      ensures Valid()
      ensures var p := UpdateCountdownStep(isPaused, old(countdown), duration, recorder.runningDuration);
        r == p.tick && countdown == p.countdown
    {
      if isPaused || countdown <= 0.0 {
        return None;
      }
      var time := recorder.runningDuration;
      countdown := Max(0.0, duration - time);
      r := Some(Tick(time, countdown == 0.0));
    }

    /** Assigning `isPaused`: its observer forwards pause or resume once the recorder has reached `Starting`. */
    method SetPaused(paused: bool)
      requires Valid()
      modifies this`isPaused, recorder
      ensures Valid()
      ensures isPaused == paused
      ensures !AtLeast(old(recorder.status), Starting) ==> unchanged(recorder)
      ensures AtLeast(old(recorder.status), Starting) ==>
        && recorder.runningDuration == old(recorder.runningDuration)
        && recorder.calls == old(recorder.calls) + [if paused then PauseCall else ResumeCall]
        && recorder.status == (if paused then StatusAfterPause(old(recorder.status)) else StatusAfterResume(old(recorder.status)))
    {
      isPaused := paused;
      if !AtLeast(recorder.status, Starting) {
        return;
      }
      if paused {
        recorder.Pause();
      } else {
        recorder.Resume();
      }
    }

    /** `stopRecorder()`: stops a running recorder and reports its result, or the error it threw. */
    method StopRecorder(outcome: StopOutcome) returns (result: Option<ResultData>)
      requires Valid()
      modifies recorder
      ensures Valid()
      ensures result == StopRecorderResult(old(recorder.status), identifier, outcome)
      ensures old(recorder.status) != Running ==> unchanged(recorder)
      ensures old(recorder.status) == Running ==>
        && recorder.status == StatusAfterStop(outcome)
        && recorder.runningDuration == old(recorder.runningDuration)
        && recorder.calls == old(recorder.calls) + [StopCall]
    {
      if recorder.status != Running {
        return None;
      }
      recorder.Stop(outcome);
      match outcome
      case Finished(data) =>
        result := Some(data);
      case StopFailed(error) =>
        result := Some(ErrorResultObject(identifier, error));
    }

    /**
     * `stop()`: stops the recorder and requests the final prompt (the one
     * keyed by the full duration); only once both have happened is the slot
     * written, and only when the recorder produced a result.
     */
    method Stop(outcome: StopOutcome)
      requires Valid()
      modifies recorder, this`instructionCache, this`spoken, this`asyncResults
      ensures Valid()
      ensures old(recorder.status) != Running ==> unchanged(recorder)
      ensures old(recorder.status) == Running ==>
        && recorder.status == StatusAfterStop(outcome)
        && recorder.runningDuration == old(recorder.runningDuration)
        && recorder.calls == old(recorder.calls) + [StopCall]
      ensures var s := SpeakStep(old(instructionCache), spokenInstructions, duration, duration);
        instructionCache == s.cache && spoken == old(spoken) + UtteranceLog(s.utterance)
      ensures var r := StopRecorderResult(old(recorder.status), identifier, outcome);
        asyncResults == if r.Some? then Some([r.value]) else old(asyncResults)
    {
      var result := StopRecorder(outcome);
      Speak(duration);
      if result.Some? {
        asyncResults := Some([result.value]);
      }
    }

    /**
     * `stop()` when the final prompt finishes before the recorder: the same
     * final state as `Stop`, so the join does not depend on which of the two
     * concurrent tasks completes first.
     */
    method StopSpeakingFirst(outcome: StopOutcome)
      requires Valid()
      modifies recorder, this`instructionCache, this`spoken, this`asyncResults
      ensures Valid()
      ensures old(recorder.status) != Running ==> unchanged(recorder)
      ensures old(recorder.status) == Running ==>
        && recorder.status == StatusAfterStop(outcome)
        && recorder.runningDuration == old(recorder.runningDuration)
        && recorder.calls == old(recorder.calls) + [StopCall]
      ensures var s := SpeakStep(old(instructionCache), spokenInstructions, duration, duration);
        instructionCache == s.cache && spoken == old(spoken) + UtteranceLog(s.utterance)
      ensures var r := StopRecorderResult(old(recorder.status), identifier, outcome);
        asyncResults == if r.Some? then Some([r.value]) else old(asyncResults)
    {
      Speak(duration);
      var result := StopRecorder(outcome);
      if result.Some? {
        asyncResults := Some([result.value]);
      }
    }
  }

  class TappingStepViewModel {
    /** The motion-sensor step this tapping step extends. */
    const step: MotionSensorStepViewModel
    var tappingResult: TappingResult
    var previousButton: Option<TappingButtonIdentifier>
    var tapCount: int

    ghost predicate Valid()
      reads this, step, step.recorder
    {
      step.Valid() && tappingResult.tapCount == tapCount
    }

    constructor (duration: real, spokenInstructions: map<int, string>, identifier: string,
                 assessmentIdentifier: string, branchIdentifier: string,
                 asyncResults: Option<seq<ResultData>>, hand: Option<HandSelection>)
      requires 0.0 <= duration
      ensures Valid() && fresh(step) && fresh(step.recorder)
      ensures step.duration == duration && step.spokenInstructions == spokenInstructions
      ensures step.identifier == identifier && step.asyncResults == asyncResults
      ensures step.recorder.status == Idle && step.recorder.runningDuration == 0.0 && step.recorder.calls == []
      ensures step.recorder.currentStepPath == assessmentIdentifier + "/" + branchIdentifier
      ensures step.countdown == duration && step.instructionCache == {} && !step.isPaused && step.spoken == []
      ensures tappingResult == TappingResult([], 0, hand)
      ensures previousButton == None && tapCount == 0
    {
      step := new MotionSensorStepViewModel(duration, spokenInstructions, identifier,
                                            assessmentIdentifier, branchIdentifier, asyncResults);
      tappingResult := TappingResult([], 0, hand);
      previousButton := None;
      tapCount := 0;
    }

    /** `initialTapOccurred`: the recorder has left `Idle`. */
    function InitialTapOccurred(): (b: bool)
      reads step, step.recorder
      ensures b <==> step.recorder.status != Idle
    {
      PastIdle(step.recorder.status)
    }

    /** `tappedScreen(...)`: an event outside the tap window is discarded; inside it is recorded as by `AddTappingSample`. */
    method TappedScreen(currentButton: TappingButtonIdentifier, location: Point, duration: real, systemUptime: real)
      requires Valid()
      modifies this
      ensures Valid()
      ensures !TapWindowOpen(step.recorder.status, step.recorder.runningDuration, step.duration) ==>
        unchanged(this)
      ensures TapWindowOpen(step.recorder.status, step.recorder.runningDuration, step.duration) ==>
        && tappingResult.samples == old(tappingResult.samples) +
             [MakeSample(systemUptime, step.recorder.runningDuration, step.recorder.currentStepPath,
                         currentButton, location, duration)]
        && TapState(previousButton, tapCount) == Debounce(TapState(old(previousButton), old(tapCount)), currentButton)
        && tappingResult.hand == old(tappingResult.hand)
    {
      if !TapWindowOpen(step.recorder.status, step.recorder.runningDuration, step.duration) {
        return;
      }
      AddTappingSample(currentButton, location, duration, systemUptime);
    }

    /**
     * `addTappingSample(...)`: appends exactly one sample, then counts a tap
     * when the button is real and differs from the last counted one; the
     * result object's tap count mirrors `tapCount`.
     */
    method AddTappingSample(currentButton: TappingButtonIdentifier, location: Point, duration: real, systemUptime: real)
      requires Valid()
      modifies this
      ensures Valid()
      ensures tappingResult.samples == old(tappingResult.samples) +
        [MakeSample(systemUptime, step.recorder.runningDuration, step.recorder.currentStepPath,
                    currentButton, location, duration)]
      ensures TapState(previousButton, tapCount) == Debounce(TapState(old(previousButton), old(tapCount)), currentButton)
      ensures tappingResult.tapCount == tapCount && tappingResult.hand == old(tappingResult.hand)
    {
      var sample := TapSample(systemUptime - duration,
                              CaptureTimestamp(step.recorder.runningDuration, duration),
                              step.recorder.currentStepPath, currentButton, location, duration);
      tappingResult := tappingResult.(samples := tappingResult.samples + [sample]);
      if currentButton == NoButton || previousButton == Some(currentButton) {
        return;
      }
      tapCount := tapCount + 1;
      tappingResult := tappingResult.(tapCount := tapCount);
      previousButton := Some(currentButton);
    }
  }
}
