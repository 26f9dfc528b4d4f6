/**
 * The camera's state as a value and the effect of each of its Lua-facing
 * operations on it (src/component/camera.rs). The `Camera` class states its
 * methods in terms of these functions; the lemmas here state what they mean.
 */
module CameraSpec {
  import opened Wrappers
  import opened Mathematics
  import opened Calls

  const CAMERA_NAME: string := "BI_CAMERA"

  /** The fields of `CameraInner` other than the parent back-reference. */
  datatype CameraFields = CameraFields(fov: Angle, near: F32, far: F32, perspective: Matrix4x4)

  /** What `Camera::create` stores: 90 degrees, 0.01, 1000 and a zero matrix. */
  const DEFAULT_FIELDS: CameraFields := CameraFields(Degrees(90.0), 0.01, 1000.0, MATRIX_ZERO)

  /** The stored value after an optional write. */
  function SetOrKeep<T>(current: T, v: Option<T>): T
  {
    match v
    case Some(x) => x
    case None => current
  }

  /** The Lua `fov` method: store the argument if there is one, then read fov. */
  function FovAccess(s: CameraFields, v: Option<Angle>): (CameraFields, Angle)
  {
    var t := s.(fov := SetOrKeep(s.fov, v));
    (t, t.fov)
  }

  /** The Lua `near` method: store the argument if there is one, then read near. */
  function NearAccess(s: CameraFields, v: Option<F32>): (CameraFields, F32)
  {
    var t := s.(near := SetOrKeep(s.near, v));
    (t, t.near)
  }

  /** The Lua `far` method as written: store the argument in far, then read NEAR. */
  function FarAccessAsWritten(s: CameraFields, v: Option<F32>): (CameraFields, F32)
  {
    var t := s.(far := SetOrKeep(s.far, v));
    (t, t.near)
  }

  /** The Lua `far` method as evidently intended: store into far, then read far. */
  function FarAccess(s: CameraFields, v: Option<F32>): (CameraFields, F32)
  {
    var t := s.(far := SetOrKeep(s.far, v));
    (t, t.far)
  }

  /** `lua_call(name, arg)` on a camera: only `"fov"` with an angle does anything. */
  function CameraCall(s: CameraFields, name: string, arg: UserData): CameraFields
  {
    if name == "fov" && arg.AngleArg? then s.(fov := arg.angle) else s
  }

  /** Writing with an accessor and then reading with it gives back the value written. */
  lemma AccessRoundTrip(s: CameraFields, a: Angle, x: F32)
    ensures FovAccess(s, Some(a)).1 == a && FovAccess(FovAccess(s, Some(a)).0, None).1 == a
    ensures NearAccess(s, Some(x)).1 == x && NearAccess(NearAccess(s, Some(x)).0, None).1 == x
    ensures FarAccess(s, Some(x)).1 == x && FarAccess(FarAccess(s, Some(x)).0, None).1 == x
  {
  }

  /** Each accessor writes only its own field. */
  lemma AccessWritesOwnFieldOnly(s: CameraFields, a: Option<Angle>, x: Option<F32>)
    ensures var t := FovAccess(s, a).0; t.near == s.near && t.far == s.far && t.perspective == s.perspective
    ensures var t := NearAccess(s, x).0; t.fov == s.fov && t.far == s.far && t.perspective == s.perspective
    ensures var t := FarAccess(s, x).0; t.fov == s.fov && t.near == s.near && t.perspective == s.perspective
    ensures FarAccessAsWritten(s, x).0 == FarAccess(s, x).0
  {
  }

  /** Reading (no argument) changes nothing and returns the field, so two reads agree. */
  lemma ReadIsIdempotent(s: CameraFields)
    ensures FovAccess(s, None) == (s, s.fov)
    ensures NearAccess(s, None) == (s, s.near)
    ensures FarAccess(s, None) == (s, s.far)
    ensures FarAccessAsWritten(s, None) == (s, s.near)
  {
  }

  /**
   * The `far` method as written does not give back what it stored: whenever
   * near differs from the new far value, reading far returns something else.
   */
  lemma FarAsWrittenLosesValue(s: CameraFields, x: F32)
    requires s.near != x
    ensures FarAccessAsWritten(s, Some(x)).1 != x
    ensures FarAccessAsWritten(FarAccessAsWritten(s, Some(x)).0, None).1 != x
  {
  }

  /** On a freshly created camera, `far(500)` answers 0.01. */
  lemma FarAsWrittenOnDefaults()
    ensures FarAccessAsWritten(DEFAULT_FIELDS, Some(500.0)) == (DEFAULT_FIELDS.(far := 500.0), 0.01)
  {
  }

  /** `lua_call("fov", angle a)` sets fov to a and nothing else. */
  lemma FovCallSetsFov(s: CameraFields, a: Angle)
    ensures CameraCall(s, "fov", AngleArg(a)) == s.(fov := a)
  {
  }

  /** Any other name, or a non-angle argument, leaves every field unchanged. */
  lemma OtherCallsAreNoOps(s: CameraFields, name: string, arg: UserData)
    requires name != "fov" || !arg.AngleArg?
    ensures CameraCall(s, name, arg) == s
  {
  }

  /** The set-once rule of the main camera: the first registration wins. */
  function RegisterFirst<T>(current: Option<T>, c: T): (r: Option<T>)
    ensures r.Some?
    ensures current.Some? ==> r == current
  {
    if current.None? then Some(c) else current
  }

  /** The main camera after registering each of `cs` in turn. */
  function RegisterAll<T>(current: Option<T>, cs: seq<T>): Option<T>
    decreases |cs|
  {
    if cs == [] then current else RegisterAll(RegisterFirst(current, cs[0]), cs[1..])
  }

  /**
   * After any number of creations the main camera is the one that was already
   * set, or else the first one created; it is absent only if none was created.
   */
  lemma {:induction false} MainIsFirstCreated<T>(current: Option<T>, cs: seq<T>)
    ensures RegisterAll(current, cs) ==
      if current.Some? then current else if cs != [] then Some(cs[0]) else None
    decreases |cs|
  {
    if cs != [] {
      MainIsFirstCreated(RegisterFirst(current, cs[0]), cs[1..]);
    }
  }
}
