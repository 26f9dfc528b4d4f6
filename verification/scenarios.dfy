/**
 * Whole-program scenarios over fresh runtimes: an entity is created,
 * components are attached, and the script side acts on them by name.
 */
module Scenarios {
  import opened Wrappers
  import opened Mathematics
  import opened Calls
  import opened CameraSpec
  import opened Entities

  /** A camera's `fov(Some(45°))` followed by `fov(None)` reads back 45°. */
  method FovSetThenRead() returns (seen: Angle)
    ensures seen == Degrees(45.0)
  {
    var rt := new Runtime();
    var go := GameObject.New(rt);
    var c := go.AddComponent(rt, CameraKind);
    var _ := c.camera.Fov(Some(Degrees(45.0)));
    seen := c.camera.Fov(None);
  }

  /**
   * The reference found under "BI_CAMERA" acts on the handle `add_component`
   * returned: a dynamic `("fov", 60°)` call is seen by the native getter, and
   * a native write is seen through the reference.
   */
  method DynamicCallReachesHandle() returns (seen: Angle, found: bool, state: ComponentState)
    ensures seen == Degrees(60.0) && found
    ensures state == CameraState(DEFAULT_FIELDS.(fov := Degrees(30.0)))
  {
    var rt := new Runtime();
    var go := GameObject.New(rt);
    var c := go.AddComponent(rt, CameraKind);
    var lookup := go.GetLuaComponent(CAMERA_NAME);
    found := lookup.Some?;
    var ref := lookup.value;
    assert ref.inner == c;
    var _ := ref.Call("fov", AngleArg(Degrees(60.0)));
    seen := c.camera.Fov(None);
    c.camera.SetFov(Degrees(30.0));
    state := ref.inner.State();
  }

  /**
   * A dynamic call with a name other than "fov" on a freshly attached
   * component leaves every field as it was and hands back no value.
   */
  method UnknownCallIsNoOp(kind: ComponentKind, name: string, arg: UserData)
    returns (before: ComponentState, after: ComponentState, r: CallOutcome)
    requires name != "fov"
    ensures before == after == InitialState(kind)
    ensures r.Returned? ==> r.result == None
    ensures r.Returned? <==> kind == CameraKind
  {
    var rt := new Runtime();
    var go := GameObject.New(rt);
    var c := go.AddComponent(rt, kind);
    var ref := go.GetLuaComponent(c.Name()).value;
    before := ref.inner.State();
    r := ref.Call(name, arg);
    after := ref.inner.State();
  }

  /** With two cameras created, the main camera is the first, never the second. */
  method MainCameraIsFirst() returns (first: Camera, second: Camera, main: Option<Camera>)
    ensures first != second && main == Some(first)
  {
    var rt := new Runtime();
    assert Camera.Main(rt) == None;
    var go := GameObject.New(rt);
    var c1 := go.AddComponent(rt, CameraKind);
    var other := GameObject.New(rt);
    var c2 := other.AddComponent(rt, CameraKind);
    first, second := c1.camera, c2.camera;
    main := Camera.Main(rt);
  }

  /**
   * Attaching a second camera to the same object leaves lookup by name on the
   * first one, and both are stored, in order.
   */
  method SecondCameraIsShadowed() returns (first: Component, second: Component, found: Option<LuaComponentRef>, stored: seq<Component>)
    ensures first != second
    ensures found == Some(LuaComponentRef(first)) && stored == [first, second]
  {
    var rt := new Runtime();
    var go := GameObject.New(rt);
    first := go.AddComponent(rt, CameraKind);
    second := go.AddComponent(rt, CameraKind);
    found := go.GetLuaComponent(CAMERA_NAME);
    stored := go.components.entries[CAMERA_NAME];
  }
}
