/**
 * Properties of the orientation manager over one event and over whole
 * sequences of events.
 */
module OrientationTrace {
  import opened OrientationTypes
  import opened OrientationLogic

  /** Something that happens to a manager. */
  datatype Event =
    | DisplayEvent(display: Option<SurfaceRotation>)  // onDisplayChanged; None for an unknown display id
    | TiltEvent(rotationDegrees: int)                  // onOrientationChanged
    | TargetEvent(target: OutputOrientation)           // setTargetOutputOrientation

  /** The platform delivers display and tilt events only to registered listeners. */
  function Deliver(s: ManagerState, e: Event): (r: Outcome)
    ensures !s.listening && !e.TargetEvent? ==> r == Outcome(s, [])
    ensures e.TargetEvent? ==> r.fired == []
  {
    match e
    case DisplayEvent(display) => if s.listening then DisplayChanged(s, display) else Outcome(s, [])
    case TiltEvent(degrees) => if s.listening then OrientationChanged(s, degrees) else Outcome(s, [])
    case TargetEvent(target) => Outcome(SetTarget(s, target), [])
  }

  /** Deliver a sequence of events in order; the callbacks fired, concatenated. */
  function Run(s: ManagerState, events: seq<Event>): (r: Outcome)
    decreases |events|
  {
    if events == [] then Outcome(s, [])
    else
      var first := Deliver(s, events[0]);
      var rest := Run(first.state, events[1..]);
      Outcome(rest.state, first.fired + rest.fired)
  }

  // ---------------------------------------------------------------------
  // One event

  /** A second re-evaluation with nothing changed in between fires nothing. */
  lemma MaybeNotifyIdempotent(s: ManagerState)
    ensures MaybeNotify(MaybeNotify(s).state) == Outcome(MaybeNotify(s).state, [])
  {
  }

  /** The same display rotation delivered twice fires callbacks the first time only. */
  lemma RepeatedDisplayEventSilent(s: ManagerState, rotation: SurfaceRotation)
    ensures DisplayChanged(DisplayChanged(s, Some(rotation)).state, Some(rotation)).fired == []
  {
  }

  /** Setting the target fires nothing and leaves the reported values and rotations alone. */
  lemma SetTargetTouchesOnlyModeAndListening(s: ManagerState, target: OutputOrientation)
    ensures Deliver(s, TargetEvent(target)) ==
      Outcome(s.(target := target, listening := target == Device || target == Preview), [])
  {
  }

  /**
   * In PREVIEW or a locked mode a tilt never fires the output callback, as
   * long as the last reported output is the current one.
   */
  lemma TiltSilentOutsideDeviceMode(s: ManagerState, degrees: int)
    requires s.target != Device
    requires s.lastOutput == Some(OutputOrientationOf(s))
    ensures forall n | n in OrientationChanged(s, degrees).fired :: n.PreviewChanged?
  {
  }

  /**
   * The condition above is needed: a mode switch does not re-evaluate, so
   * after DEVICE -> PREVIEW the last reported output can be stale, and the
   * next tilt reports the preview's orientation although the tilt itself
   * moved nothing the output depends on.
   */
  lemma TiltAfterModeSwitchReports()
    ensures
      var device := ManagerState(Device, Some(LandscapeRight), Some(LandscapeLeft), ROTATION_90, ROTATION_270, true);
      var preview := SetTarget(device, Preview);
      OrientationChanged(preview, 300).fired == [OutputChanged(LandscapeLeft)]
  {
  }

  /**
   * DEVICE mode, device at 0 degrees, both values already reported: a tilt to
   * 100 degrees reports LANDSCAPE_RIGHT only.
   */
  lemma TiltScenario()
    ensures
      var s := ManagerState(Device, Some(Portrait), Some(Portrait), ROTATION_0, ROTATION_0, true);
      OrientationChanged(s, 100).fired == [OutputChanged(LandscapeRight)]
  {
  }

  /**
   * Switching from DEVICE to PREVIEW with the display at 90 and the device at
   * 270 degrees changes the output orientation at once, but no callback fires.
   */
  lemma ModeSwitchScenario()
    ensures
      var device := ManagerState(Device, Some(LandscapeRight), Some(LandscapeLeft), ROTATION_90, ROTATION_270, true);
      var r := Deliver(device, TargetEvent(Preview));
      OutputOrientationOf(r.state) == LandscapeLeft && r.fired == [] && r.state.lastOutput == Some(LandscapeRight)
  {
  }

  // ---------------------------------------------------------------------
  // Sequences of events

  /** Events that are all `setTargetOutputOrientation` calls. */
  predicate OnlyTargetEvents(events: seq<Event>) {
    forall i | 0 <= i < |events| :: events[i].TargetEvent?
  }

  /** Events none of which is a `setTargetOutputOrientation` call. */
  predicate NoTargetEvents(events: seq<Event>) {
    forall i | 0 <= i < |events| :: !events[i].TargetEvent?
  }

  /**
   * Mode switches never move the preview: however many targets are set,
   * the rotations and the reported values stay as they were and nothing fires.
   */
  lemma {:induction false} ModeSwitchesKeepPreview(s: ManagerState, events: seq<Event>)
    requires OnlyTargetEvents(events)
    ensures Run(s, events).fired == []
    ensures PreviewOrientationOf(Run(s, events).state) == PreviewOrientationOf(s)
    ensures Run(s, events).state.screenRotation == s.screenRotation
    ensures Run(s, events).state.deviceRotation == s.deviceRotation
    ensures Run(s, events).state.lastOutput == s.lastOutput
    ensures Run(s, events).state.lastPreview == s.lastPreview
    decreases |events|
  {
    if events != [] {
      ModeSwitchesKeepPreview(SetTarget(s, events[0].target), events[1..]);
    }
  }

  /**
   * Once a locked target is set, both listeners are off, so no further
   * display or tilt event changes anything or fires anything.
   */
  lemma {:induction false} LockedModeIsInert(s: ManagerState, locked: OutputOrientation, events: seq<Event>)
    requires !locked.IsStreaming()
    requires NoTargetEvents(events)
    ensures Run(SetTarget(s, locked), events) == Outcome(SetTarget(s, locked), [])
  {
    if events != [] {
      LockedModeIsInert(s, locked, events[1..]);
    }
  }

  /**
   * Consequence: after a switch into a locked mode the orientation last
   * reported to the callback stays stale. A later mode switch fires nothing
   * either; only the first display or tilt event after a switch to DEVICE or
   * PREVIEW brings it up to date. Here the callback last saw LANDSCAPE_RIGHT
   * while the output is PORTRAIT.
   */
  lemma LockedModeLeavesStaleReport(events: seq<Event>)
    requires NoTargetEvents(events)
    ensures
      var device := ManagerState(Device, Some(LandscapeRight), Some(Portrait), ROTATION_0, ROTATION_270, true);
      var r := Run(SetTarget(device, LockedPortrait), events);
      r.fired == [] && OutputOrientationOf(r.state) == Portrait && r.state.lastOutput == Some(LandscapeRight)
  {
  }

  /** The output values reported, in order. */
  function Outputs(fired: seq<Notification>): seq<Orientation>
  {
    if fired == [] then []
    else (if fired[0].OutputChanged? then [fired[0].orientation] else []) + Outputs(fired[1..])
  }

  /** The preview values reported, in order. */
  function Previews(fired: seq<Notification>): seq<Orientation>
  {
    if fired == [] then []
    else (if fired[0].PreviewChanged? then [fired[0].orientation] else []) + Previews(fired[1..])
  }

  lemma {:induction false} OutputsAppend(a: seq<Notification>, b: seq<Notification>)
    ensures Outputs(a + b) == Outputs(a) + Outputs(b)
  {
    if a == [] {
      assert a + b == b;
    } else {
      var head := if a[0].OutputChanged? then [a[0].orientation] else [];
      assert (a + b)[1..] == a[1..] + b;
      OutputsAppend(a[1..], b);
      assert Outputs(a + b) == head + Outputs(a[1..] + b);
    }
  }

  lemma {:induction false} PreviewsAppend(a: seq<Notification>, b: seq<Notification>)
    ensures Previews(a + b) == Previews(a) + Previews(b)
  {
    if a == [] {
      assert a + b == b;
    } else {
      var head := if a[0].PreviewChanged? then [a[0].orientation] else [];
      assert (a + b)[1..] == a[1..] + b;
      PreviewsAppend(a[1..], b);
      assert Previews(a + b) == head + Previews(a[1..] + b);
    }
  }

  /**
   * Every value in `reported` differs from the one reported before it; the
   * first differs from `last`, the value reported before the sequence began.
   */
  predicate ChangesOnly(last: Option<Orientation>, reported: seq<Orientation>) {
    && (|reported| > 0 ==> last != Some(reported[0]))
    && forall i | 0 < i < |reported| :: reported[i - 1] != reported[i]
  }

  /** The value last reported after `reported`, starting from `last`. */
  function LastReported(last: Option<Orientation>, reported: seq<Orientation>): Option<Orientation> {
    if reported == [] then last else Some(reported[|reported| - 1])
  }

  lemma ChangesOnlyAppend(last: Option<Orientation>, a: seq<Orientation>, b: seq<Orientation>)
    requires ChangesOnly(last, a) && ChangesOnly(LastReported(last, a), b)
    ensures ChangesOnly(last, a + b)
    ensures LastReported(last, a + b) == LastReported(LastReported(last, a), b)
  {
  }

  /** One delivered event reports only changes and keeps the last reported values up to date. */
  lemma DeliverReportsChanges(s: ManagerState, e: Event)
    ensures ChangesOnly(s.lastOutput, Outputs(Deliver(s, e).fired))
    ensures Deliver(s, e).state.lastOutput == LastReported(s.lastOutput, Outputs(Deliver(s, e).fired))
    ensures ChangesOnly(s.lastPreview, Previews(Deliver(s, e).fired))
    ensures Deliver(s, e).state.lastPreview == LastReported(s.lastPreview, Previews(Deliver(s, e).fired))
  {
    var r := Deliver(s, e);
    if r.fired != [] {
      var m := match e
        case DisplayEvent(display) => s.(screenRotation := display.value)
        case TiltEvent(degrees) => s.(deviceRotation := DegreesToSurfaceRotation(degrees))
        case TargetEvent(_) => s;
      assert r == MaybeNotify(m);
      var out, pre := OutputOrientationOf(m), PreviewOrientationOf(m);
      if |r.fired| == 2 {
        assert r.fired == [OutputChanged(out), PreviewChanged(pre)];
        assert Outputs(r.fired) == [out] by {
          assert Outputs(r.fired[1..]) == Outputs([PreviewChanged(pre)]) == [];
        }
        assert Previews(r.fired) == [pre] by {
          assert Previews(r.fired[1..]) == Previews([PreviewChanged(pre)]) == [pre];
        }
      } else {
        assert |r.fired| == 1;
        assert Outputs(r.fired[1..]) == [] && Previews(r.fired[1..]) == [];
        if r.fired[0].OutputChanged? {
          assert r.fired == [OutputChanged(out)];
        } else {
          assert r.fired == [PreviewChanged(pre)];
        }
      }
    }
  }

  /**
   * Over any sequence of events the callbacks are told only about changes:
   * each reported output differs from the output reported before it, and the
   * same for previews; and the manager's last reported values are exactly
   * the last values the callbacks received.
   */
  lemma {:induction false} RunReportsOnlyChanges(s: ManagerState, events: seq<Event>)
    ensures ChangesOnly(s.lastOutput, Outputs(Run(s, events).fired))
    ensures Run(s, events).state.lastOutput == LastReported(s.lastOutput, Outputs(Run(s, events).fired))
    ensures ChangesOnly(s.lastPreview, Previews(Run(s, events).fired))
    ensures Run(s, events).state.lastPreview == LastReported(s.lastPreview, Previews(Run(s, events).fired))
    decreases |events|
  {
    if events != [] {
      var first := Deliver(s, events[0]);
      var rest := Run(first.state, events[1..]);
      DeliverReportsChanges(s, events[0]);
      RunReportsOnlyChanges(first.state, events[1..]);
      OutputsAppend(first.fired, rest.fired);
      PreviewsAppend(first.fired, rest.fired);
      ChangesOnlyAppend(s.lastOutput, Outputs(first.fired), Outputs(rest.fired));
      ChangesOnlyAppend(s.lastPreview, Previews(first.fired), Previews(rest.fired));
    }
  }

  /**
   * From a new manager, no callback ever receives the same value twice in a
   * row.
   */
  lemma NewManagerReportsOnlyChanges(events: seq<Event>)
    ensures var outs := Outputs(Run(Initial, events).fired);
      forall i | 0 < i < |outs| :: outs[i - 1] != outs[i]
    ensures var previews := Previews(Run(Initial, events).fired);
      forall i | 0 < i < |previews| :: previews[i - 1] != previews[i]
  {
    RunReportsOnlyChanges(Initial, events);
  }
}
