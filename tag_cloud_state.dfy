/** TagCloudState: the orientation of the cloud and whether the drag gesture rotates it,
    with the 5-element list it is saved to and restored from. */
module CloudState {
  import opened KotlinMath
  import Vectors
  import opened Quaternions

  class TagCloudState {
    /** True if gesture rotation is enabled. */
    var gestureEnabled: bool
    /** The current rotation of the cloud. */
    var rotation: Quaternion

    constructor(gestureEnabled: bool, rotation: Quaternion)
      ensures this.gestureEnabled == gestureEnabled && this.rotation == rotation
    {
      this.gestureEnabled := gestureEnabled;
      this.rotation := rotation;
    }

    /** rotateBy(quaternion, globalAxis): on the global axis the new rotation is
        quaternion * rotation, on the local axis rotation * quaternion. */
    method RotateBy(m: MathLib, quaternion: Quaternion, globalAxis: bool := true)
      requires m.Lawful()
      modifies this
      ensures rotation == if globalAxis then Times(m, quaternion, old(rotation))
                          else Times(m, old(rotation), quaternion)
      ensures gestureEnabled == old(gestureEnabled)
      ensures IsUnit(quaternion) && IsUnit(old(rotation)) ==> IsUnit(rotation)
    {
      RotateTo(if globalAxis then Times(m, quaternion, rotation) else Times(m, rotation, quaternion));
    }

    /** rotateBy(angle, vector, globalAxis) is rotateBy(create(angle, vector), globalAxis);
        a zero angle leaves the rotation as it is. */
    method RotateByAngle(m: MathLib, angle: real, vector: Vectors.Vector3, globalAxis: bool := true)
      requires m.Lawful()
      requires m.cos(angle / 2.0) != 0.0 || vector != Vectors.Zero
      modifies this
      ensures rotation == if globalAxis then Times(m, Create(m, angle, vector), old(rotation))
                          else Times(m, old(rotation), Create(m, angle, vector))
      ensures angle == 0.0 ==> rotation == old(rotation)
      ensures gestureEnabled == old(gestureEnabled)
    {
      var quaternion := Create(m, angle, vector);
      if angle == 0.0 {
        CreateZeroAngle(m, vector);
        TimesIdentity(m, rotation);
      }
      RotateBy(m, quaternion, globalAxis);
    }

    /** rotateTo(quaternion) replaces the rotation, whatever it was. */
    method RotateTo(quaternion: Quaternion)
      modifies this
      ensures rotation == quaternion
      ensures gestureEnabled == old(gestureEnabled)
    {
      rotation := quaternion;
    }

    /** rotateTo(angle, vector) is rotateTo(create(angle, vector)); rotateTo(0, Zero)
        resets the rotation to Identity. */
    method RotateToAngle(m: MathLib, angle: real, vector: Vectors.Vector3)
      requires m.Lawful()
      requires m.cos(angle / 2.0) != 0.0 || vector != Vectors.Zero
      modifies this
      ensures rotation == Create(m, angle, vector)
      ensures angle == 0.0 ==> rotation == Identity
      ensures gestureEnabled == old(gestureEnabled)
    {
      if angle == 0.0 {
        CreateZeroAngle(m, vector);
      }
      RotateTo(Create(m, angle, vector));
    }

    /** The list the state is saved to. */
    function Save(): (saved: SavedState)
      reads this
      ensures saved.gestureEnabled == gestureEnabled
      ensures Components(saved.w, saved.x, saved.y, saved.z) == rotation
    {
      SavedState(gestureEnabled, rotation.w, rotation.x, rotation.y, rotation.z)
    }
  }

  /** rememberTagCloudState(gestureEnabled = true, rotation = Quaternion.Identity):
      a new state with the given (or default) flag and rotation. */
  method RememberTagCloudState(gestureEnabled: bool := true, rotation: Quaternion := Identity)
    returns (state: TagCloudState)
    ensures fresh(state)
    ensures state.gestureEnabled == gestureEnabled && state.rotation == rotation
  {
    state := new TagCloudState(gestureEnabled, rotation);
  }

  /** The saved list [gestureEnabled, w, x, y, z]; its element types are fixed here. */
  datatype SavedState = SavedState(gestureEnabled: bool, w: real, x: real, y: real, z: real)

  /** The rotation the restore lambda rebuilds: Quaternion(w, x, y, z), normalised by
      its constructor. A saved rotation is never the zero 4-tuple. */
  function RestoredRotation(m: MathLib, saved: SavedState): (q: Quaternion)
    requires m.Lawful() && Components(saved.w, saved.x, saved.y, saved.z) != Origin
    ensures WithinTolerance(Components(saved.w, saved.x, saved.y, saved.z)) ==>
              q == Components(saved.w, saved.x, saved.y, saved.z)
  {
    Normalize(m, Components(saved.w, saved.x, saved.y, saved.z))
  }

  /** The restore lambda: a new state from the saved list. */
  method Restore(m: MathLib, saved: SavedState) returns (state: TagCloudState)
    requires m.Lawful() && Components(saved.w, saved.x, saved.y, saved.z) != Origin
    ensures fresh(state)
    ensures state.gestureEnabled == saved.gestureEnabled
    ensures state.rotation == RestoredRotation(m, saved)
  {
    var rotation := Construct(m, saved.w, saved.x, saved.y, saved.z);
    state := new TagCloudState(saved.gestureEnabled, rotation);
  }

  /** Restoring what was saved gives back the same flag and the same rotation. */
  lemma SaveRestore(m: MathLib, gestureEnabled: bool, rotation: Quaternion)
    requires m.Lawful()
    ensures var saved := SavedState(gestureEnabled, rotation.w, rotation.x, rotation.y, rotation.z);
            && Components(saved.w, saved.x, saved.y, saved.z) != Origin
            && saved.gestureEnabled == gestureEnabled
            && RestoredRotation(m, saved) == rotation
  {
    QuaternionNonzero(rotation);
  }

  /** The round trip through a live state object. */
  method SaveThenRestore(m: MathLib, state: TagCloudState) returns (restored: TagCloudState)
    requires m.Lawful()
    ensures fresh(restored)
    ensures restored.gestureEnabled == state.gestureEnabled && restored.rotation == state.rotation
  {
    var saved := state.Save();
    SaveRestore(m, state.gestureEnabled, state.rotation);
    restored := Restore(m, saved);
  }
}
