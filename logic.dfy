/**
 * The orientation manager's behaviour as pure functions over a snapshot of
 * its five fields (plus whether its listeners are registered). The class in
 * module Manager is proved against these functions.
 */
module OrientationLogic {
  import opened OrientationTypes

  /**
   * Quantise a tilt reading from the orientation sensor into a surface
   * rotation. Kotlin's `a..b` ranges are inclusive and `when` takes the first
   * branch that matches, so 135 and 225 and 315 fall in the earlier band.
   * Every other integer, including the sensor's -1 ("unknown"), gives 0.
   */
  function DegreesToSurfaceRotation(degrees: int): (r: SurfaceRotation)
    ensures r == ROTATION_270 <==> 45 <= degrees <= 135
    ensures r == ROTATION_180 <==> 136 <= degrees <= 225
    ensures r == ROTATION_90 <==> 226 <= degrees <= 315
    ensures r == ROTATION_0 <==> degrees < 45 || 315 < degrees
  {
    if 45 <= degrees <= 135 then ROTATION_270
    else if 135 <= degrees <= 225 then ROTATION_180
    else if 225 <= degrees <= 315 then ROTATION_90
    else ROTATION_0
  }

  /**
   * The band edges: 45 and 135 belong to ROTATION_270, 225 to ROTATION_180,
   * 315 to ROTATION_90; 44, 316, 360 and -1 give ROTATION_0.
   */
  lemma DegreesToSurfaceRotationBoundaries()
    ensures DegreesToSurfaceRotation(44) == ROTATION_0
    ensures DegreesToSurfaceRotation(45) == ROTATION_270
    ensures DegreesToSurfaceRotation(135) == ROTATION_270
    ensures DegreesToSurfaceRotation(136) == ROTATION_180
    ensures DegreesToSurfaceRotation(225) == ROTATION_180
    ensures DegreesToSurfaceRotation(226) == ROTATION_90
    ensures DegreesToSurfaceRotation(315) == ROTATION_90
    ensures DegreesToSurfaceRotation(316) == ROTATION_0
    ensures DegreesToSurfaceRotation(360) == ROTATION_0
    ensures DegreesToSurfaceRotation(-1) == ROTATION_0
  {
  }

  /** A callback invocation: which callback was called, and with what. */
  datatype Notification =
    | OutputChanged(orientation: Orientation)
    | PreviewChanged(orientation: Orientation)

  /** The state of one manager. */
  datatype ManagerState = ManagerState(
    target: OutputOrientation,
    lastOutput: Option<Orientation>,
    lastPreview: Option<Orientation>,
    screenRotation: SurfaceRotation,
    deviceRotation: SurfaceRotation,
    listening: bool)  // display listener and orientation listener registered

  /** A new manager: target DEVICE, nothing reported, no listener registered. */
  const Initial := ManagerState(Device, None, None, ROTATION_0, ROTATION_0, false)

  /** The result of an operation: the new state and the callbacks it fired, in order. */
  datatype Outcome = Outcome(state: ManagerState, fired: seq<Notification>)

  /** The `previewOrientation` getter: what the display rotation shows. */
  function PreviewOrientationOf(s: ManagerState): (o: Orientation)
    ensures ToSurfaceRotation(o) == s.screenRotation
  {
    FromSurfaceRotation(s.screenRotation)
  }

  /** The `outputOrientation` getter. */
  function OutputOrientationOf(s: ManagerState): (o: Orientation)
    ensures s.target == Device ==> ToSurfaceRotation(o) == s.deviceRotation
    ensures s.target == Preview ==> o == PreviewOrientationOf(s)
    ensures !s.target.IsStreaming() ==> LockedMode(o) == s.target
  {
    match s.target
    case Device => FromSurfaceRotation(s.deviceRotation)
    case Preview => FromSurfaceRotation(s.screenRotation)
    case LockedPortrait => Portrait
    case LockedLandscapeLeft => LandscapeLeft
    case LockedPortraitUpsideDown => PortraitUpsideDown
    case LockedLandscapeRight => LandscapeRight
  }

  /** The last reported values agree with what the getters compute now. */
  predicate Synced(s: ManagerState) {
    s.lastOutput == Some(OutputOrientationOf(s)) && s.lastPreview == Some(PreviewOrientationOf(s))
  }

  /**
   * `maybeNotifyOrientation`: report the output orientation if it differs
   * from the last one reported (nothing reported yet counts as different),
   * then do the same, independently, for the preview orientation.
   */
  function MaybeNotify(s: ManagerState): (r: Outcome)
    // afterwards the last reported values are the current ones ...
    ensures Synced(r.state)
    // ... and nothing else has changed
    ensures r.state == s.(lastOutput := r.state.lastOutput, lastPreview := r.state.lastPreview)
    // the output callback fires exactly when the output changed
    ensures OutputChanged(OutputOrientationOf(s)) in r.fired <==> s.lastOutput != Some(OutputOrientationOf(s))
    // the preview callback fires exactly when the preview changed
    ensures PreviewChanged(PreviewOrientationOf(s)) in r.fired <==> s.lastPreview != Some(PreviewOrientationOf(s))
    // no other callback fires, each at most once, output before preview
    ensures forall n | n in r.fired :: n == OutputChanged(OutputOrientationOf(s)) || n == PreviewChanged(PreviewOrientationOf(s))
    ensures |r.fired| <= 2
    ensures |r.fired| == 2 ==> r.fired[0].OutputChanged? && r.fired[1].PreviewChanged?
  {
    var newOutput := OutputOrientationOf(s);
    var afterOutput :=
      if s.lastOutput != Some(newOutput)
      then Outcome(s.(lastOutput := Some(newOutput)), [OutputChanged(newOutput)])
      else Outcome(s, []);
    var newPreview := PreviewOrientationOf(afterOutput.state);
    if afterOutput.state.lastPreview != Some(newPreview)
    then Outcome(afterOutput.state.(lastPreview := Some(newPreview)), afterOutput.fired + [PreviewChanged(newPreview)])
    else afterOutput
  }

  /**
   * The display listener's `onDisplayChanged`: `display` is the rotation of
   * the display the id names, or None when the display manager no longer
   * knows that display.
   */
  function DisplayChanged(s: ManagerState, display: Option<SurfaceRotation>): (r: Outcome)
    // an unknown display changes nothing and fires nothing
    ensures display == None ==> r == Outcome(s, [])
    // otherwise the screen rotation is taken over and everything is reported
    ensures display != None ==>
      && r.state.screenRotation == display.value
      && Synced(r.state)
      && r.state.target == s.target && r.state.deviceRotation == s.deviceRotation
      && r.state.listening == s.listening
    // each callback fires exactly when its value changed; nothing else
    // fires, each at most once, output before preview
    ensures display != None ==>
      (PreviewChanged(FromSurfaceRotation(display.value)) in r.fired
       <==> s.lastPreview != Some(FromSurfaceRotation(display.value)))
    ensures display != None ==>
      (OutputChanged(OutputOrientationOf(r.state)) in r.fired <==> s.lastOutput != r.state.lastOutput)
    ensures forall n | n in r.fired ::
      n == OutputChanged(OutputOrientationOf(r.state)) || n == PreviewChanged(PreviewOrientationOf(r.state))
    ensures |r.fired| <= 2
    ensures |r.fired| == 2 ==> r.fired[0].OutputChanged? && r.fired[1].PreviewChanged?
  {
    match display
    case None => Outcome(s, [])
    case Some(rotation) => MaybeNotify(s.(screenRotation := rotation))
  }

  /** The orientation listener's `onOrientationChanged`. */
  function OrientationChanged(s: ManagerState, rotationDegrees: int): (r: Outcome)
    ensures r.state.deviceRotation == DegreesToSurfaceRotation(rotationDegrees)
    ensures Synced(r.state)
    ensures r.state.target == s.target && r.state.screenRotation == s.screenRotation
    ensures r.state.listening == s.listening
    // a tilt never moves the preview, so the preview callback fires exactly
    // when the preview was not reported yet
    ensures PreviewChanged(PreviewOrientationOf(s)) in r.fired <==> s.lastPreview != Some(PreviewOrientationOf(s))
    // the output callback fires exactly when the output changed
    ensures OutputChanged(OutputOrientationOf(r.state)) in r.fired <==> s.lastOutput != r.state.lastOutput
    // nothing else fires, each at most once, output before preview
    ensures forall n | n in r.fired ::
      n == OutputChanged(OutputOrientationOf(r.state)) || n == PreviewChanged(PreviewOrientationOf(s))
    ensures |r.fired| <= 2
    ensures |r.fired| == 2 ==> r.fired[0].OutputChanged? && r.fired[1].PreviewChanged?
  {
    MaybeNotify(s.(deviceRotation := DegreesToSurfaceRotation(rotationDegrees)))
  }

  /**
   * `setTargetOutputOrientation`: switch the mode, unregister both listeners
   * and register them again only for DEVICE and PREVIEW. No callback fires.
   */
  function SetTarget(s: ManagerState, target: OutputOrientation): (r: ManagerState)
    ensures r.target == target
    ensures r.listening <==> target == Device || target == Preview
    ensures r.lastOutput == s.lastOutput && r.lastPreview == s.lastPreview
    ensures r.screenRotation == s.screenRotation && r.deviceRotation == s.deviceRotation
  {
    s.(target := target, listening := target.IsStreaming())
  }
}
