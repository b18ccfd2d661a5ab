/**
 * Client runs of the view models: what a caller can conclude from the
 * methods' contracts alone.
 */
module Scenarios {
  import opened Wrappers
  import opened Recorder
  import opened Countdown
  import opened Tapping
  import opened ViewModels

  /**
   * A failed start resets the recorder's clock but not the countdown, so the
   * poll after it raises the countdown back to the full duration: with a
   * 10-second step, a poll at 3 seconds leaves 7, and the poll after the
   * failed start leaves 10.
   */
  method FailedStartRaisesCountdown() returns (before: real, after: real)
    ensures before == 7.0 && after == 10.0
  {
    var vm := new MotionSensorStepViewModel(10.0, map[], "tapping", "assessment", "branch", None);
    vm.recorder.Advance(3.0);
    var first := vm.UpdateCountdown();
    before := vm.countdown;
    vm.StartRecorder(StartFailed("e"));
    var second := vm.UpdateCountdown();
    after := vm.countdown;
  }

  /** A prompt spoken, requested again, then reset and requested once more is spoken twice in all. */
  method PromptRepeatsAfterReset(text: string) returns (ghost log: seq<string>)
    ensures log == [text, text]
  {
    var vm := new MotionSensorStepViewModel(10.0, map[5 := text], "tremor", "assessment", "branch", None);
    vm.Speak(5.2);
    vm.Speak(5.9);
    vm.ResetCountdown();
    vm.Speak(5.0);
    log := vm.spoken;
  }

  /** Six events left, left, right, none, right, left record six samples and count three taps. */
  method AlternatingTaps() returns (samples: nat, tapCount: int, resultTapCount: int)
    ensures samples == 6 && tapCount == 3 && resultTapCount == 3
  {
    var vm := new TappingStepViewModel(30.0, map[], "tapping", "assessment", "branch", None, Some(LeftHand));
    var at := Point(0.0, 0.0);
    vm.AddTappingSample(LeftButton, at, 0.1, 100.0);
    vm.AddTappingSample(LeftButton, at, 0.1, 100.5);
    vm.AddTappingSample(RightButton, at, 0.1, 101.0);
    vm.AddTappingSample(NoButton, at, 0.1, 101.5);
    vm.AddTappingSample(RightButton, at, 0.1, 102.0);
    vm.AddTappingSample(LeftButton, at, 0.1, 102.5);
    samples := |vm.tappingResult.samples|;
    tapCount := vm.tapCount;
    resultTapCount := vm.tappingResult.tapCount;
  }
}
