/**
 * The value types the orientation manager works with: Android's
 * `Surface.ROTATION_*` integers, the camera library's `Orientation` and
 * `OutputOrientation` enums, and Kotlin's nullable values.
 */
module OrientationTypes {

  /** A Kotlin nullable value (`T?`). */
  datatype Option<T> = None | Some(value: T)

  // android.view.Surface rotation constants
  const ROTATION_0: int := 0
  const ROTATION_90: int := 1
  const ROTATION_180: int := 2
  const ROTATION_270: int := 3

  /** An integer that is one of the four `Surface.ROTATION_*` constants. */
  type SurfaceRotation = r: int | ROTATION_0 <= r <= ROTATION_270

  /** The logical orientation reported to the camera pipeline. */
  datatype Orientation = Portrait | LandscapeLeft | PortraitUpsideDown | LandscapeRight

  /**
   * The target output orientation: follow the device sensor, follow the
   * preview (the display), or one of four locked orientations.
   */
  datatype OutputOrientation =
    | Device
    | Preview
    | LockedPortrait
    | LockedLandscapeLeft
    | LockedPortraitUpsideDown
    | LockedLandscapeRight
  {
    /** True for the two modes that track sensor input continuously. */
    predicate IsStreaming() {
      this == Device || this == Preview
    }
  }

  /**
   * `Orientation.fromSurfaceRotation`: the rotation of the surface tells
   * which way up the content is. The mapping is assumed, since the library's
   * `Orientation` type is not part of this model.
   */
  function FromSurfaceRotation(rotation: SurfaceRotation): (o: Orientation)
    ensures ToSurfaceRotation(o) == rotation
  {
    if rotation == ROTATION_0 then Portrait
    else if rotation == ROTATION_90 then LandscapeLeft
    else if rotation == ROTATION_180 then PortraitUpsideDown
    else LandscapeRight
  }

  /** The surface rotation an orientation stands for. */
  function ToSurfaceRotation(o: Orientation): SurfaceRotation
  {
    match o
    case Portrait => ROTATION_0
    case LandscapeLeft => ROTATION_90
    case PortraitUpsideDown => ROTATION_180
    case LandscapeRight => ROTATION_270
  }

  /** The two conversions are mutually inverse, so the mapping is a bijection. */
  lemma SurfaceRotationBijection(o: Orientation, r: SurfaceRotation)
    ensures FromSurfaceRotation(ToSurfaceRotation(o)) == o
    ensures FromSurfaceRotation(r) == o <==> ToSurfaceRotation(o) == r
  {
  }

  /** The locked output mode that pins the output to `o`. */
  function LockedMode(o: Orientation): (t: OutputOrientation)
    ensures !t.IsStreaming()
  {
    match o
    case Portrait => LockedPortrait
    case LandscapeLeft => LockedLandscapeLeft
    case PortraitUpsideDown => LockedPortraitUpsideDown
    case LandscapeRight => LockedLandscapeRight
  }

  /** Every non-streaming mode is the lock of exactly one orientation. */
  lemma LockedModeOnto(t: OutputOrientation)
    requires !t.IsStreaming()
    ensures exists o :: LockedMode(o) == t && forall o' :: LockedMode(o') == t ==> o' == o
  {
    var o := match t
      case LockedPortrait => Portrait
      case LockedLandscapeLeft => LandscapeLeft
      case LockedPortraitUpsideDown => PortraitUpsideDown
      case LockedLandscapeRight => LandscapeRight;
    assert LockedMode(o) == t;
  }
}
