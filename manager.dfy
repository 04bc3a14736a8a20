/**
 * `OrientationManager` as an object whose fields its listener bodies and its
 * setter update in place. Registering and unregistering the Android display
 * listener and orientation listener is reduced to the `listening` flag; the
 * callback's invocations are recorded, in order, in the ghost `notifications`.
 * Each method is specified by the function of the same behaviour in
 * OrientationLogic, whose properties are proved there and in OrientationTrace.
 */
module Manager {
  import opened OrientationTypes
  import opened OrientationLogic

  class OrientationManager {
    var targetOutputOrientation: OutputOrientation
    var lastOutputOrientation: Option<Orientation>
    var lastPreviewOrientation: Option<Orientation>
    var screenRotation: SurfaceRotation
    var deviceRotation: SurfaceRotation
    var listening: bool
    ghost var notifications: seq<Notification>

    /** The manager's fields as a value. */
    function State(): ManagerState
      reads this
    {
      ManagerState(targetOutputOrientation, lastOutputOrientation, lastPreviewOrientation,
                   screenRotation, deviceRotation, listening)
    }

    constructor ()
      ensures State() == Initial && notifications == []
    {
      targetOutputOrientation := Device;
      lastOutputOrientation := None;
      lastPreviewOrientation := None;
      screenRotation := ROTATION_0;
      deviceRotation := ROTATION_0;
      listening := false;
      notifications := [];
    }

    /** Report each computed orientation that differs from the one last reported. */
    method MaybeNotifyOrientation()
      modifies this`lastOutputOrientation, this`lastPreviewOrientation, this`notifications
      ensures State() == MaybeNotify(old(State())).state
      ensures notifications == old(notifications) + MaybeNotify(old(State())).fired
    {
      var newOutputOrientation := OutputOrientationOf(State());
      if lastOutputOrientation != Some(newOutputOrientation) {
        notifications := notifications + [OutputChanged(newOutputOrientation)];
        lastOutputOrientation := Some(newOutputOrientation);
      }
      var newPreviewOrientation := PreviewOrientationOf(State());
      if lastPreviewOrientation != Some(newPreviewOrientation) {
        notifications := notifications + [PreviewChanged(newPreviewOrientation)];
        lastPreviewOrientation := Some(newPreviewOrientation);
      }
    }

    /**
     * The display listener's `onDisplayChanged`; `display` is the display
     * manager's answer for the display id: its rotation, or None.
     */
    method OnDisplayChanged(display: Option<SurfaceRotation>)
      modifies this`screenRotation, this`lastOutputOrientation, this`lastPreviewOrientation, this`notifications
      ensures State() == DisplayChanged(old(State()), display).state
      ensures notifications == old(notifications) + DisplayChanged(old(State()), display).fired
    {
      if display == None {
        return;
      }
      screenRotation := display.value;
      MaybeNotifyOrientation();
    }

    /** The orientation listener's `onOrientationChanged`. */
    method OnOrientationChanged(rotationDegrees: int)
      modifies this`deviceRotation, this`lastOutputOrientation, this`lastPreviewOrientation, this`notifications
      ensures State() == OrientationChanged(old(State()), rotationDegrees).state
      ensures notifications == old(notifications) + OrientationChanged(old(State()), rotationDegrees).fired
    {
      deviceRotation := DegreesToSurfaceRotation(rotationDegrees);
      MaybeNotifyOrientation();
    }

    /**
     * Switch the target; both listeners are unregistered and then registered
     * again only when the new target follows the device or the preview.
     */
    method SetTargetOutputOrientation(targetOrientation: OutputOrientation)
      modifies this`targetOutputOrientation, this`listening
      ensures State() == SetTarget(old(State()), targetOrientation)
      ensures targetOutputOrientation == targetOrientation
      ensures listening <==> targetOrientation == Device || targetOrientation == Preview
    {
      targetOutputOrientation := targetOrientation;
      listening := false;
      match targetOrientation {
        case Device =>
          listening := true;
        case Preview =>
          listening := true;
        case LockedPortrait =>
        case LockedLandscapeRight =>
        case LockedPortraitUpsideDown =>
        case LockedLandscapeLeft =>
      }
    }
  }
}
