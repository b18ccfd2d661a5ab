/**
 * The motion recorder the step view model drives. Its implementation is a
 * foreign library; this module keeps only what the view model observes of it:
 * an ordered status, the running duration of its clock, the step path it
 * stamps on samples, and a log of the calls made to it. The outcome of an
 * asynchronous start or stop (success, or the error it throws) is supplied
 * by the caller.
 */
module Recorder {

  /** The recorder's lifecycle states, in their declared order. */
  datatype RecorderStatus = Idle | Starting | Running | Paused | Stopping | Stopped | Failed

  /** Position of a status in the declared order; `Idle` is the least. */
  function Rank(s: RecorderStatus): (r: nat)
    ensures r <= 6
    ensures r == 0 <==> s == Idle
  {
    match s
    case Idle => 0
    case Starting => 1
    case Running => 2
    case Paused => 3
    case Stopping => 4
    case Stopped => 5
    case Failed => 6
  }

  /** Swift's `status >= other` on the comparable status enum. */
  predicate AtLeast(s: RecorderStatus, other: RecorderStatus)
  {
    Rank(s) >= Rank(other)
  }

  /** Swift's `status > .idle`: the recorder has left its initial state. */
  predicate PastIdle(s: RecorderStatus)
  {
    Rank(s) > Rank(Idle)
  }

  /** The calls the view model makes on the recorder. */
  datatype RecorderCall = StartCall | PauseCall | ResumeCall | StopCall | ClockReset

  /** A result handed to the host: the recorder's own result, or an error result tagged with the step's identifier. */
  datatype ResultData =
    | MotionRecord(identifier: string, stepPath: string)
    | ErrorResultObject(identifier: string, error: string)

  /** How `recorder.start()` ends: it returns, or it throws `error`. */
  datatype StartOutcome = Started | StartFailed(error: string)

  /** How `recorder.stop()` ends: it returns `result`, or it throws `error`. */
  datatype StopOutcome = Finished(result: ResultData) | StopFailed(error: string)

  function StatusAfterStart(outcome: StartOutcome): RecorderStatus
  {
    if outcome.Started? then Running else Failed
  }

  function StatusAfterStop(outcome: StopOutcome): RecorderStatus
  {
    if outcome.Finished? then Stopped else Failed
  }

  function StatusAfterPause(s: RecorderStatus): RecorderStatus
  {
    if s == Running then Paused else s
  }

  function StatusAfterResume(s: RecorderStatus): RecorderStatus
  {
    if s == Paused then Running else s
  }

  class MotionRecorder {
    var status: RecorderStatus
    /** `clock.runningDuration()`, in seconds. */
    var runningDuration: real
    const currentStepPath: string
    ghost var calls: seq<RecorderCall>

    ghost predicate Valid()
      reads this
    {
      0.0 <= runningDuration
    }

    constructor (initialStepPath: string)
      ensures Valid()
      ensures status == Idle && runningDuration == 0.0 && calls == []
      ensures currentStepPath == initialStepPath
    {
      status := Idle;
      runningDuration := 0.0;
      currentStepPath := initialStepPath;
      calls := [];
    }

    method Start(outcome: StartOutcome)
      requires Valid()
      modifies this
      ensures Valid()
      ensures status == StatusAfterStart(outcome)
      ensures runningDuration == old(runningDuration)
      ensures calls == old(calls) + [StartCall]
    {
      status := StatusAfterStart(outcome);
      calls := calls + [StartCall];
    }

    method Pause()
      requires Valid()
      modifies this
      ensures Valid()
      ensures status == StatusAfterPause(old(status))
      ensures runningDuration == old(runningDuration)
      ensures calls == old(calls) + [PauseCall]
    {
      status := StatusAfterPause(status);
      calls := calls + [PauseCall];
    }

    method Resume()
      requires Valid()
      modifies this
      ensures Valid()
      ensures status == StatusAfterResume(old(status))
      ensures runningDuration == old(runningDuration)
      ensures calls == old(calls) + [ResumeCall]
    {
      status := StatusAfterResume(status);
      calls := calls + [ResumeCall];
    }

    method Stop(outcome: StopOutcome)
      requires Valid()
      modifies this
      ensures Valid()
      ensures status == StatusAfterStop(outcome)
      ensures runningDuration == old(runningDuration)
      ensures calls == old(calls) + [StopCall]
    {
      status := StatusAfterStop(outcome);
      calls := calls + [StopCall];
    }

    /** `clock.reset()`: the running duration reads zero afterwards. */
    method ResetClock()
      requires Valid()
      modifies this
      ensures Valid()
      ensures status == old(status)
      ensures runningDuration == 0.0
      ensures calls == old(calls) + [ClockReset]
    {
      runningDuration := 0.0;
      calls := calls + [ClockReset];
    }

    /** The passage of `dt` seconds on the recorder's clock, driven by the environment. */
    method Advance(dt: real)
      requires Valid() && 0.0 <= dt
      modifies this
      ensures Valid()
      ensures status == old(status) && calls == old(calls)
      ensures runningDuration == old(runningDuration) + dt
    {
      runningDuration := runningDuration + dt;
    }
  }
}
