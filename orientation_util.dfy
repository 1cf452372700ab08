/**
 * Orientation bucketing (`OrientationUtil`): a sensor reading in degrees is
 * mapped to one of the four display rotations, and the listener reports a
 * rotation only when it differs from the one stored last.
 */
module OrientationUtil {
  import opened Wrappers

  /** `Surface.ROTATION_*`. */
  const Rotation0: int := 0
  const Rotation90: int := 1
  const Rotation180: int := 2
  const Rotation270: int := 3
  /** `OrientationEventListener.ORIENTATION_UNKNOWN`. */
  const OrientationUnknown: int := -1

  predicate IsRotation(r: int) {
    r == Rotation0 || r == Rotation90 || r == Rotation180 || r == Rotation270
  }

  /** getSurfaceRotation: the device turned by about 90 degrees clockwise shows
      the display rotated by 270, and so on; everything else is upright. */
  function GetSurfaceRotation(orientationDegrees: int): (r: int)
    ensures IsRotation(r)
    ensures r == Rotation270 <==> 45 <= orientationDegrees <= 134
    ensures r == Rotation180 <==> 135 <= orientationDegrees <= 224
    ensures r == Rotation90 <==> 225 <= orientationDegrees <= 314
    ensures r == Rotation0 <==> orientationDegrees < 45 || 314 < orientationDegrees
  {
    if 45 <= orientationDegrees <= 134 then Rotation270
    else if 135 <= orientationDegrees <= 224 then Rotation180
    else if 225 <= orientationDegrees <= 314 then Rotation90
    else Rotation0
  }

  /** One reading handled by the listener: the new stored rotation and the
      rotation the callback is called with, if it is called. The callback
      fires exactly when the reading is known and falls in another bucket
      than the stored rotation; afterwards the stored rotation is the one
      fired, and an unknown reading changes nothing. */
  function OrientationStep(current: int, orientation: int): (r: (int, Option<int>))
    ensures r.1.Some? <==> orientation != OrientationUnknown && GetSurfaceRotation(orientation) != current
    ensures r.1.Some? ==> r.0 == r.1.value && IsRotation(r.0)
    ensures r.1.None? ==> r.0 == current
    ensures orientation != OrientationUnknown ==> r.0 == GetSurfaceRotation(orientation)
  {
    if orientation == OrientationUnknown then (current, None)
    else
      var rotation := GetSurfaceRotation(orientation);
      if rotation != current then (rotation, Some(rotation)) else (current, None)
  }

  /** The same reading handled twice in a row fires the callback at most once. */
  lemma RepeatedReadingFiresAtMostOnce(current: int, orientation: int)
    ensures var (next, _) := OrientationStep(current, orientation);
      OrientationStep(next, orientation) == (next, None)
  {
  }

  /** A run of readings: the final stored rotation and the callbacks, in order. */
  function Replay(current: int, readings: seq<int>): (int, seq<int>)
    decreases |readings|
  {
    if readings == [] then (current, [])
    else
      var (next, fired) := OrientationStep(current, readings[0]);
      var (last, rest) := Replay(next, readings[1..]);
      (last, (if fired.Some? then [fired.value] else []) + rest)
  }

  /** The rotation of the last known reading, or the start value when none is known. */
  function LastKnownRotation(start: int, readings: seq<int>): int
    decreases |readings|
  {
    if readings == [] then start
    else if readings[|readings| - 1] != OrientationUnknown then GetSurfaceRotation(readings[|readings| - 1])
    else LastKnownRotation(start, readings[..|readings| - 1])
  }

  /** Handling a run of readings is handling all but the last, then the last:
      the stored rotation is the last step's, and its callback, if any, comes
      after the earlier ones. */
  lemma {:induction false} ReplaySplit(current: int, readings: seq<int>)
    requires readings != []
    ensures var init := Replay(current, readings[..|readings| - 1]);
      var step := OrientationStep(init.0, readings[|readings| - 1]);
      && Replay(current, readings).0 == step.0
      && Replay(current, readings).1 == init.1 + (if step.1.Some? then [step.1.value] else [])
    decreases |readings|
  {
    if |readings| > 1 {
      var (next, f) := OrientationStep(current, readings[0]);
      ReplaySplit(next, readings[1..]);
      assert readings[1..][..|readings[1..]| - 1] == readings[..|readings| - 1][1..];
      assert readings[..|readings| - 1][1..] == readings[1..|readings| - 1];
      var head := if f.Some? then [f.value] else [];
      var init := Replay(current, readings[..|readings| - 1]);
      var step := OrientationStep(init.0, readings[|readings| - 1]);
      var tail := if step.1.Some? then [step.1.value] else [];
      assert head + (Replay(next, readings[1..|readings| - 1]).1 + tail)
          == (head + Replay(next, readings[1..|readings| - 1]).1) + tail;
    } else {
      assert readings[..0] == [];
    }
  }

  /** After any run of readings the stored rotation, which getCurrentRotation
      returns, is that of the last known reading, or the start value
      (ROTATION_0 for a new listener) when there is none. */
  lemma {:induction false} ReplayStoresLastKnown(current: int, readings: seq<int>)
    ensures Replay(current, readings).0 == LastKnownRotation(current, readings)
    decreases |readings|
  {
    if readings != [] {
      ReplaySplit(current, readings);
      ReplayStoresLastKnown(current, readings[..|readings| - 1]);
    }
  }

  /** Over any run of readings every callback reports a rotation, the first
      one differs from the start value and each later one from the one before
      it, and there are at most as many callbacks as readings. */
  lemma {:induction false} ReplayFiresChanges(current: int, readings: seq<int>)
    ensures var fired := Replay(current, readings).1;
      && (forall i :: 0 <= i < |fired| ==> IsRotation(fired[i]))
      && (fired != [] ==> fired[0] != current)
      && (forall i :: 0 < i < |fired| ==> fired[i] != fired[i - 1])
      && |fired| <= |readings|
    decreases |readings|
  {
    if readings != [] {
      var (next, f) := OrientationStep(current, readings[0]);
      ReplayFiresChanges(next, readings[1..]);
      var rest := Replay(next, readings[1..]).1;
      if f.Some? && rest != [] {
        assert rest[0] != next;
      }
    }
  }

  /** The listener state of the `OrientationUtil` object. */
  class OrientationListener {
    var currentOrientation: int

    constructor ()
      ensures currentOrientation == Rotation0
    {
      currentOrientation := Rotation0;
    }

    /** onOrientationChanged: store the new bucket first, then report it. */
    method OnOrientationChanged(orientation: int) returns (callback: Option<int>)
      modifies this
      ensures (currentOrientation, callback) == OrientationStep(old(currentOrientation), orientation)
    {
      callback := None;
      if orientation == OrientationUnknown {
        return;
      }
      var rotation := GetSurfaceRotation(orientation);
      if rotation != currentOrientation {
        currentOrientation := rotation;
        callback := Some(rotation);
      }
    }

    /** getCurrentRotation: the rotation stored last. */
    method GetCurrentRotation() returns (r: int)
      ensures r == currentOrientation
    {
      r := currentOrientation;
    }
  }
}
