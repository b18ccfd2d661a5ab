/**
 * The tap aggregator of a tapping step: every accepted touch event is
 * recorded as a sample, and a debounce rule on the previously counted button
 * decides whether the event raises the tap count.
 */
module Tapping {
  import opened Wrappers
  import opened Recorder

  /** The button a touch lands on; `NoButton` is the neutral value (`.none`). */
  datatype TappingButtonIdentifier = LeftButton | RightButton | NoButton

  datatype HandSelection = LeftHand | RightHand

  datatype Point = Point(x: real, y: real)

  /** One recorded touch. `uptime` is the system uptime at capture, `timestamp` the step clock at capture. */
  datatype TapSample = TapSample(
    uptime: real,
    timestamp: real,
    stepPath: string,
    buttonIdentifier: TappingButtonIdentifier,
    location: Point,
    duration: real)

  /** The tapping step's result object. */
  datatype TappingResult = TappingResult(samples: seq<TapSample>, tapCount: int, hand: Option<HandSelection>)

  /** The state the debounce rule works on: the last counted button and the tap count. */
  datatype TapState = TapState(previousButton: Option<TappingButtonIdentifier>, tapCount: int)

  /** Events are taken only once the recorder has left `Idle` and while the clock is inside the step's duration. */
  predicate TapWindowOpen(status: RecorderStatus, elapsed: real, duration: real)
  {
    elapsed < duration && PastIdle(status)
  }

  /** The capture offset of a touch held for `duration` seconds, read at clock time `elapsed`. */
  function CaptureTimestamp(elapsed: real, duration: real): (r: real)
    ensures 0.0 <= r && elapsed - duration <= r
    ensures r == 0.0 || r == elapsed - duration
    ensures 0.0 <= duration && 0.0 <= elapsed ==> r <= elapsed
  {
    if elapsed - duration >= 0.0 then elapsed - duration else 0.0
  }

  function MakeSample(systemUptime: real, elapsed: real, stepPath: string,
                      button: TappingButtonIdentifier, location: Point, duration: real): TapSample
  {
    TapSample(systemUptime - duration, CaptureTimestamp(elapsed, duration), stepPath, button, location, duration)
  }

  /** The debounce rule applied to one event. */
  function Debounce(s: TapState, button: TappingButtonIdentifier): (r: TapState)
    ensures r.tapCount == s.tapCount + 1 <==> button != NoButton && s.previousButton != Some(button)
    ensures r.tapCount == s.tapCount + 1 ==> r.previousButton == Some(button)
    ensures r.tapCount != s.tapCount + 1 ==> r == s
  {
    if button != NoButton && s.previousButton != Some(button) then
      TapState(Some(button), s.tapCount + 1)
    else
      s
  }

  /** The debounce rule applied to a series of events, in arrival order. */
  function TapRun(s: TapState, buttons: seq<TappingButtonIdentifier>): TapState
    decreases |buttons|
  {
    if buttons == [] then s else TapRun(Debounce(s, buttons[0]), buttons[1..])
  }

  /** The events that press a real button. */
  function Pressed(buttons: seq<TappingButtonIdentifier>): (r: seq<TappingButtonIdentifier>)
    ensures |r| <= |buttons|
    ensures forall i :: 0 <= i < |r| ==> r[i] != NoButton
    decreases |buttons|
  {
    if buttons == [] then []
    else if buttons[0] == NoButton then Pressed(buttons[1..])
    else [buttons[0]] + Pressed(buttons[1..])
  }

  /** The last real button among `buttons`, or `prev` when there is none, scanning from the end. */
  function LastPressed(prev: Option<TappingButtonIdentifier>, buttons: seq<TappingButtonIdentifier>): Option<TappingButtonIdentifier>
    decreases |buttons|
  {
    if buttons == [] then prev
    else if buttons[|buttons| - 1] != NoButton then Some(buttons[|buttons| - 1])
    else LastPressed(prev, buttons[..|buttons| - 1])
  }

  /** The neutral button is transparent: dropping every `NoButton` event changes neither the count nor the previous button. */
  lemma {:induction false} NoButtonIsTransparent(s: TapState, buttons: seq<TappingButtonIdentifier>)
    ensures TapRun(s, buttons) == TapRun(s, Pressed(buttons))
    decreases |buttons|
  {
    if buttons != [] {
      NoButtonIsTransparent(Debounce(s, buttons[0]), buttons[1..]);
      if buttons[0] != NoButton {
        var p := [buttons[0]] + Pressed(buttons[1..]);
        assert p[0] == buttons[0] && p[1..] == Pressed(buttons[1..]);
      }
    }
  }

  /** The tap count only grows, and by at most one per real-button event. */
  lemma {:induction false} TapCountBounds(s: TapState, buttons: seq<TappingButtonIdentifier>)
    ensures s.tapCount <= TapRun(s, buttons).tapCount <= s.tapCount + |Pressed(buttons)|
    decreases |buttons|
  {
    if buttons != [] {
      TapCountBounds(Debounce(s, buttons[0]), buttons[1..]);
    }
  }

  lemma {:induction false} LastPressedAppend(prev: Option<TappingButtonIdentifier>, buttons: seq<TappingButtonIdentifier>, b: TappingButtonIdentifier)
    ensures LastPressed(prev, [b] + buttons) == LastPressed(if b != NoButton then Some(b) else prev, buttons)
    decreases |buttons|
  {
    var bs := [b] + buttons;
    if buttons != [] {
      assert bs[|bs| - 1] == buttons[|buttons| - 1];
      assert bs[..|bs| - 1] == [b] + buttons[..|buttons| - 1];
      LastPressedAppend(prev, buttons[..|buttons| - 1], b);
    } else {
      assert bs[..|bs| - 1] == [];
    }
  }

  /** After a series of events the previous button is the last real button pressed, if any was pressed. */
  lemma {:induction false} PreviousIsLastPressed(s: TapState, buttons: seq<TappingButtonIdentifier>)
    ensures TapRun(s, buttons).previousButton == LastPressed(s.previousButton, buttons)
    decreases |buttons|
  {
    if buttons != [] {
      var s' := Debounce(s, buttons[0]);
      PreviousIsLastPressed(s', buttons[1..]);
      assert s'.previousButton == if buttons[0] != NoButton then Some(buttons[0]) else s.previousButton;
      LastPressedAppend(s.previousButton, buttons[1..], buttons[0]);
      assert [buttons[0]] + buttons[1..] == buttons;
    }
  }

  /** Holding down one button counts at most once, however many events it produces. */
  lemma {:induction false} RepeatedButtonCountsOnce(s: TapState, b: TappingButtonIdentifier, n: nat)
    ensures TapRun(s, seq(n, _ => b)).tapCount <= s.tapCount + 1
    ensures s.previousButton == Some(b) ==> TapRun(s, seq(n, _ => b)) == s
    decreases n
  {
    if n > 0 {
      var bs := seq(n, _ => b);
      var s' := Debounce(s, b);
      assert bs[0] == b && bs[1..] == seq(n - 1, _ => b);
      RepeatedButtonCountsOnce(s', b, n - 1);
      if s'.tapCount == s.tapCount + 1 {
        assert s'.previousButton == Some(b);
      }
    }
  }

  /** The sequence left, left, right, none, right, left counts three taps. */
  lemma AlternatingExample()
    ensures TapRun(TapState(None, 0), [LeftButton, LeftButton, RightButton, NoButton, RightButton, LeftButton])
         == TapState(Some(LeftButton), 3)
  {
  }
}
