/**
 * Game objects and their components (src/game_object.rs, src/component/).
 *
 * Rust shares an entity or a component by cloning an `Arc` (or `Rc`) to one
 * lock-protected inner record; here each such record is a Dafny object and a
 * handle is a reference to it, so a clone is a copy of the reference and two
 * handles share state exactly when they are the same reference. The
 * component classes and the entity refer to each other (a component keeps
 * its parent), so they live in one module.
 */
module Entities {
  import opened Wrappers
  import opened Mathematics
  import opened HashBags
  import opened Naming
  import opened Calls
  import opened CameraSpec

  const TRANSFORM_NAME: string := "BI_TRANSFORM"

  /** The fields of `TransformInner` other than the parent back-reference. */
  datatype TransformFields = TransformFields(position: Vec3, rotation: Quat, scale: Vec3)

  /** What `Transform::create` stores: zero position, identity rotation, unit scale. */
  const DEFAULT_TRANSFORM: TransformFields := TransformFields(VEC3_ZERO, QUAT_IDENTITY, VEC3_ONE)

  /**
   * The process-wide statics: the id counter `GAME_OBJECT_ITR` and the main
   * camera `MAIN`. Both start unset; a counter that is not yet allocated
   * behaves as one at 0.
   */
  class Runtime {
    var nextId: nat
    var main: Option<Camera>

    constructor ()
      ensures nextId == 0 && main == None
    {
      nextId := 0;
      main := None;
    }

    /** `GameObject::inc`: hands out the current counter value and advances it by one. */
    method Inc() returns (id: nat)
      modifies this
      ensures id == old(nextId) && nextId == old(nextId) + 1
      ensures main == old(main)
    {
      id := nextId;
      nextId := nextId + 1;
    }
  }

  /** The concrete component types, as the type argument of `add_component`. */
  datatype ComponentKind = CameraKind | TransformKind

  /** The state behind a component handle. */
  datatype ComponentState = CameraState(camera: CameraFields) | TransformState(transform: TransformFields)

  /** The state a component of each kind is created with. */
  function InitialState(kind: ComponentKind): ComponentState
  {
    match kind
    case CameraKind => CameraState(DEFAULT_FIELDS)
    case TransformKind => TransformState(DEFAULT_TRANSFORM)
  }

  /** `Component::lua_call` on a component in state `s`: the new state and the outcome. */
  function Dispatch(s: ComponentState, name: string, arg: UserData): (ComponentState, CallOutcome)
  {
    match s
    case CameraState(f) => (CameraState(CameraCall(f, name, arg)), Returned(None))
    case TransformState(_) => (s, Unimplemented)
  }

  /**
   * A dynamic call never hands a value back, and one with a name other than
   * `"fov"` leaves the component's state exactly as it was.
   */
  lemma DispatchNeverReturnsValue(s: ComponentState, name: string, arg: UserData)
    ensures Dispatch(s, name, arg).1 == Returned(None) || Dispatch(s, name, arg).1 == Unimplemented
    ensures name != "fov" ==> Dispatch(s, name, arg).0 == s
  {
  }

  /** The fixed name each component type reports. */
  function KindName(kind: ComponentKind): string
  {
    match kind
    case CameraKind => CAMERA_NAME
    case TransformKind => TRANSFORM_NAME
  }

  /** A type-erased component handle, `Rc<Box<dyn Component>>`. */
  datatype Component = CameraComponent(camera: Camera) | TransformComponent(transform: Transform)
  {
    function Kind(): ComponentKind
    {
      match this
      case CameraComponent(_) => CameraKind
      case TransformComponent(_) => TransformKind
    }

    /** `Component::name`: the fixed name of the component's type. */
    function Name(): (n: string)
      ensures n == CAMERA_NAME <==> Kind() == CameraKind
      ensures n == TRANSFORM_NAME <==> Kind() == TransformKind
    {
      KindName(Kind())
    }

    /** `Component::parent`: the entity the component was created for. */
    function Parent(): (g: GameObject)
      ensures g == if CameraComponent? then camera.parent else transform.parent
    {
      match this
      case CameraComponent(c) => c.parent
      case TransformComponent(t) => t.parent
    }

    /** The objects holding the component's state. */
    function Objects(): set<object>
    {
      if CameraComponent? then {camera} else {transform}
    }

    function State(): ComponentState
      reads Objects()
    {
      match this
      case CameraComponent(c) => CameraState(c.Fields())
      case TransformComponent(t) => TransformState(t.Fields())
    }

    /** `Component::lua_call`, dispatched to the concrete type. */
    method LuaCall(name: string, arg: UserData) returns (r: CallOutcome)
      modifies Objects()
      ensures (State(), r) == Dispatch(old(State()), name, arg)
    {
      match this
      case CameraComponent(c) =>
        r := c.LuaCall(name, arg);
      case TransformComponent(t) =>
        r := t.LuaCall(name, arg);
    }
  }

  /** Two components share a name exactly when they are of the same type. */
  lemma NameIdentifiesKind(a: Component, b: Component)
    ensures a.Name() == b.Name() <==> a.Kind() == b.Kind()
  {
  }

  /** A game object: an id, a name derived from it, and a bag of components by name. */
  class GameObject {
    const id: nat
    const name: string
    const components: HashBag<string, Component>

    /**
     * The object invariant: the bag keeps its own invariant, the name is the
     * one derived from the id, and every stored component is filed under its
     * own name and has this object as its parent.
     */
    ghost predicate Valid()
      reads components
    {
      && components.Valid()
      && name == ObjectName(id)
      && forall n, i :: n in components.entries && 0 <= i < |components.entries[n]| ==>
           components.entries[n][i].Name() == n && components.entries[n][i].Parent() == this
    }

    constructor (id: nat)
      ensures this.id == id && Valid()
      ensures fresh(components) && components.entries == map[]
    {
      this.id := id;
      name := ObjectName(id);
      components := new HashBag();
    }

    /** `GameObject::new`: takes the next id and starts with an empty store. */
    static method New(rt: Runtime) returns (g: GameObject)
      modifies rt
      ensures fresh(g) && fresh(g.components) && g.Valid()
      ensures g.id == old(rt.nextId) && g.name == OBJECT_PREFIX + DecimalString(g.id)
      ensures rt.nextId == old(rt.nextId) + 1 && rt.main == old(rt.main)
      ensures g.components.entries == map[]
      ensures forall n :: g.GetLuaComponent(n) == None
    {
      var id := rt.Inc();
      g := new GameObject(id);
    }

    /**
     * `get_lua_component`: a dynamic reference to the first component stored
     * under `n`, or `None` when the name is absent or holds nothing.
     */
    function GetLuaComponent(n: string): (r: Option<LuaComponentRef>)
      reads components
      ensures r.Some? ==> n in components.entries && |components.entries[n]| > 0
      ensures r.Some? ==> r.value.inner == components.entries[n][0]
      ensures Valid() ==> (r.Some? <==> n in components.entries)
      ensures Valid() && r.Some? ==> r.value.Name() == n && r.value.Parent() == this
    {
      match components.Get(n)
      case None => None
      case Some(cs) => if |cs| == 0 then None else Some(LuaComponentRef(cs[0]))
    }

    /**
     * `add_component::<C>`: creates a component of the given kind for this
     * object, files it under its name and returns a handle to the same state.
     */
    method AddComponent(rt: Runtime, kind: ComponentKind) returns (c: Component)
      requires Valid()
      modifies components, rt
      ensures Valid()
      ensures c.Kind() == kind && c.Parent() == this && fresh(c.Objects())
      ensures c.State() == InitialState(kind)
      ensures c.Name() == KindName(kind)
      ensures components.entries == Inserted(old(components.entries), KindName(kind), c)
      ensures GetLuaComponent(KindName(kind)) ==
        if KindName(kind) in old(components.entries) then old(GetLuaComponent(KindName(kind)))
        else Some(LuaComponentRef(c))
      ensures rt.nextId == old(rt.nextId)
      ensures rt.main == if kind == CameraKind then RegisterFirst(old(rt.main), c.camera) else old(rt.main)
    {
      match kind {
        case CameraKind =>
          var camera := Camera.Create(this, rt);
          c := CameraComponent(camera);
        case TransformKind =>
          var transform := new Transform(this);
          c := TransformComponent(transform);
      }
      components.Insert(c.Name(), c);
    }
  }

  /** A camera: field of view, clip planes and a perspective matrix, shared by all its handles. */
  class Camera {
    const parent: GameObject
    var fov: Angle
    var near: F32
    var far: F32
    var perspective: Matrix4x4

    function Fields(): CameraFields
      reads this
    {
      CameraFields(fov, near, far, perspective)
    }

    constructor (parent: GameObject)
      ensures this.parent == parent && Fields() == DEFAULT_FIELDS
    {
      this.parent := parent;
      fov := DEFAULT_FIELDS.fov;
      near := DEFAULT_FIELDS.near;
      far := DEFAULT_FIELDS.far;
      perspective := DEFAULT_FIELDS.perspective;
    }

    /**
     * `Camera::create`: a new camera with the default fields, which becomes
     * the main camera if none is set yet. The parent's store is not touched.
     */
    static method Create(go: GameObject, rt: Runtime) returns (c: Camera)
      modifies rt
      ensures fresh(c) && c.parent == go && c.Fields() == DEFAULT_FIELDS
      ensures rt.main == RegisterFirst(old(rt.main), c)
      ensures rt.nextId == old(rt.nextId)
    {
      c := new Camera(go);
      if rt.main.None? {
        rt.main := Some(c);
      }
    }

    /** `Camera::main`: the main camera, if one was ever created. */
    static function Main(rt: Runtime): (r: Option<Camera>)
      reads rt
      ensures r == rt.main
    {
      rt.main
    }

    method SetFov(fov: Angle)
      modifies this
      ensures Fields() == old(Fields()).(fov := fov)
    {
      this.fov := fov;
    }

    method SetNear(near: F32)
      modifies this
      ensures Fields() == old(Fields()).(near := near)
    {
      this.near := near;
    }

    method SetFar(far: F32)
      modifies this
      ensures Fields() == old(Fields()).(far := far)
    {
      this.far := far;
    }

    /** The Lua `fov` method. */
    method Fov(v: Option<Angle>) returns (r: Angle)
      modifies this
      ensures (Fields(), r) == FovAccess(old(Fields()), v)
    {
      if v.Some? {
        SetFov(v.value);
      }
      r := fov;
    }

    /** The Lua `near` method. */
    method Near(v: Option<F32>) returns (r: F32)
      modifies this
      ensures (Fields(), r) == NearAccess(old(Fields()), v)
    {
      if v.Some? {
        SetNear(v.value);
      }
      r := near;
    }

    /** The Lua `far` method as written: it answers with the near value. */
    method FarAsWritten(v: Option<F32>) returns (r: F32)
      modifies this
      ensures (Fields(), r) == FarAccessAsWritten(old(Fields()), v)
    {
      if v.Some? {
        SetFar(v.value);
      }
      r := near;
    }

    /** The Lua `far` method as evidently intended: it answers with the far value. */
    method Far(v: Option<F32>) returns (r: F32)
      modifies this
      ensures (Fields(), r) == FarAccess(old(Fields()), v)
    {
      if v.Some? {
        SetFar(v.value);
      }
      r := far;
    }

    /** `Camera::lua_call`: only `"fov"` with an angle argument has an effect. */
    method LuaCall(name: string, arg: UserData) returns (r: CallOutcome)
      modifies this
      ensures Fields() == CameraCall(old(Fields()), name, arg)
      ensures r == Returned(None)
    {
      if name == "fov" {
        match arg
        case AngleArg(a) =>
          SetFov(a);
        case OtherArg =>
      }
      r := Returned(None);
    }
  }

  /** A transform: position, rotation and scale, fixed at creation. */
  class Transform {
    const parent: GameObject
    const position: Vec3
    const rotation: Quat
    const scale: Vec3

    function Fields(): TransformFields
    {
      TransformFields(position, rotation, scale)
    }

    /** `Transform::create`. */
    constructor (parent: GameObject)
      ensures this.parent == parent && Fields() == DEFAULT_TRANSFORM
    {
      this.parent := parent;
      position := VEC3_ZERO;
      rotation := QUAT_IDENTITY;
      scale := VEC3_ONE;
    }

    /** `Transform::lua_call` is `todo!()`: it is reported as unimplemented. */
    method LuaCall(name: string, arg: UserData) returns (r: CallOutcome)
      ensures r == Unimplemented
    {
      r := Unimplemented;
    }
  }

  /** `LuaComponentRef`: the script-side handle; every operation is forwarded. */
  datatype LuaComponentRef = LuaComponentRef(inner: Component)
  {
    function Parent(): (g: GameObject)
      ensures g == inner.Parent()
    {
      inner.Parent()
    }

    function Name(): (n: string)
      ensures n == inner.Name()
    {
      inner.Name()
    }

    /** Has exactly the effect and the outcome of the wrapped component's `lua_call`. */
    method LuaCall(name: string, arg: UserData) returns (r: CallOutcome)
      modifies inner.Objects()
      ensures (inner.State(), r) == Dispatch(old(inner.State()), name, arg)
    {
      r := inner.LuaCall(name, arg);
    }

    /** The Lua `Call` metamethod: `(method_name, args)` go to `lua_call` unchanged. */
    method Call(methodName: string, args: UserData) returns (r: CallOutcome)
      modifies inner.Objects()
      ensures (inner.State(), r) == Dispatch(old(inner.State()), methodName, args)
    {
      r := LuaCall(methodName, args);
    }
  }
}
