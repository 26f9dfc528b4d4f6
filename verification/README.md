# lua_ecs entity/component core, modelled in Dafny

This project models the entity/component bookkeeping of the `lua_ecs` crate:

- the `HashBag` multimap (key to ordered sequence of values);
- `GameObject`: an entity with an id from a process-wide counter, the name
  `"GameObject#<id>"`, and a `HashBag` of components filed by name;
- the `Camera` and `Transform` components, whose state sits behind shared
  handles;
- `LuaComponentRef`: the type-erased handle that scripts use to call a
  component by name;
- the process-wide "main camera", set once by the first `Camera::create`.

Layout, one module per file:

| file | module | models |
|---|---|---|
| `wrappers.dfy` | `Wrappers` | `Option` |
| `hash_bag.dfy` | `HashBags` | `src/hash_bag.rs`: the `HashBag` class, and the abstract effect of inserts with its lemmas |
| `naming.dfy` | `Naming` | the decimal formatting of an object's name, with its inverse |
| `calls.dfy` | `Calls` | the argument and outcome of `lua_call`, shared by every component |
| `mathematics.dfy` | `Mathematics` | the stored math values (angles, vectors, quaternion, matrix) |
| `camera_spec.dfy` | `CameraSpec` | camera state as a value, the effect of each Lua-facing camera operation, and the set-once rule for the main camera |
| `entities.dfy` | `Entities` | `Runtime` (the two statics), `GameObject`, `Component`, `Camera`, `Transform`, `LuaComponentRef` |
| `scenarios.dfy` | `Scenarios` | end-to-end scenarios: create an entity, attach components, act on them by name |

How the Rust constructs map to Dafny:

- An `Arc<RwLock<Inner>>` record becomes a Dafny class. A handle is a reference
  to the object, so `Clone` is a copy of the reference, and two handles share
  state exactly when they are the same reference. That is why
  `AddComponent`'s result being the stored entry means a write through either
  is visible through the other (`Scenarios.DynamicCallReachesHandle`).
- `Box<dyn Component>` becomes the closed datatype
  `Component = CameraComponent(Camera) | TransformComponent(Transform)`.
  The generic `add_component::<C>` takes a `ComponentKind` instead of a type
  argument.
- The `static mut` counter `GAME_OBJECT_ITR` and the `static mut` `MAIN` are
  fields of a `Runtime` object passed to the operations that use them.
  Both start unset. A counter that is not yet allocated behaves as one at 0.
- The `AnyUserData` argument of `lua_call` becomes
  `UserData = AngleArg(Angle) | OtherArg`. A failed downcast is `OtherArg`.
- `Component::lua_call` is declared with result `Option<AnyUserData>` in
  `src/component/mod.rs:13`. `src/component/transform.rs:31` and
  `src/component/lua_component_ref.rs:25` declare unit instead, and
  `Camera::lua_call` always returns `None`. The model follows the trait:
  the result is `Returned(Option<UserData>)`. It adds `Unimplemented` for
  `Transform::lua_call`, whose body is `todo!()`.
- `Camera::main` (`Entities.Camera.Main`) reads the `main` field of the
  runtime. What that field holds is fixed by `Entities.Camera.Create` and
  `CameraSpec.MainIsFirstCreated`.
- The entity, its components and the component handles refer to each other,
  because a component keeps its parent. Dafny module imports cannot be
  cyclic, so these classes share the module `Entities`.

## Model

| member | source | states |
|---|---|---|
| `HashBags.HashBag.constructor` | src/hash_bag.rs:21-24 | the default bag is empty, and `Get` is `None` for every key |
| `HashBags.HashBag.Insert` | src/hash_bag.rs:8-14 | on a present key the sequence becomes the old one with the value appended; on an absent key it becomes `[value]`; every other key keeps its sequence; the non-empty invariant is kept |
| `HashBags.HashBag.Get` | src/hash_bag.rs:16-18 | reads only: `Some` of the stored sequence exactly when the key is present, and under the invariant that sequence is non-empty |
| `HashBags.Inserted` | src/hash_bag.rs:8-14 | the abstract insert: the key maps to its previous sequence (empty if absent) plus the value, other keys are unchanged, the key set grows by the key, and no key maps to an empty sequence afterwards |
| `HashBags.InsertedAllLookup` | src/hash_bag.rs:8-14 | after any run of inserts, each key holds its previous sequence followed by exactly the values inserted under it, in insertion order |
| `HashBags.InsertedAllKeepsInvariant` | src/hash_bag.rs:8-14 | a run of inserts never removes a key and never leaves a key with an empty sequence |
| `HashBags.InsertThreeInOrder` | src/hash_bag.rs:8-14 | inserting v1, v2, v3 under one key of an empty bag yields exactly `[v1, v2, v3]` |
| `HashBags.FirstEntrySurvivesInserts` | src/hash_bag.rs:9-10 | once a key holds a sequence, no later run of inserts changes its first entry |
| `Naming.DecimalString` | src/game_object.rs:36 | the id in decimal: non-empty, all digits, with a leading `0` only for the id 0 |
| `Naming.DecimalRoundTrip` | src/game_object.rs:36 | reading back the decimal text of an id gives the id |
| `Naming.ObjectName` | src/game_object.rs:36 | the name starts with `GameObject#` and continues past it |
| `Naming.ObjectNameInjective` | src/game_object.rs:33-36 | two objects with the same name have the same id, so distinct ids give distinct names |
| `Entities.Runtime.constructor` | src/game_object.rs:10 | the process starts with the counter at 0 (`GAME_OBJECT_ITR` unset) and, as `MAIN` starts `None` at src/component/camera.rs:11, with no main camera |
| `Entities.Runtime.Inc` | src/game_object.rs:68-83 | returns the counter's value and raises it by exactly 1, so successive calls give consecutive ids from 0 |
| `Entities.GameObject.constructor` | src/game_object.rs:34-38 | stores the id, names the object `ObjectName(id)` and starts with an empty store |
| `Entities.GameObject.New` | src/game_object.rs:32-38 | takes the next id, names the object `"GameObject#"` followed by that id in decimal, starts with an empty store, so `GetLuaComponent` is `None` for every name |
| `Entities.GameObject.GetLuaComponent` | src/game_object.rs:41-52 | `None` when the name is absent or holds nothing, otherwise a reference to the entry at index 0; under the object invariant it is found exactly when the name is present, and the component found reports that name and this object as parent |
| `Entities.GameObject.AddComponent` | src/game_object.rs:54-66 | creates a fresh component of the kind with this object as parent and default state, appends exactly that handle under its name and leaves every other name as it was, keeps the object invariant; lookup by that name now finds it if the name was new and is unchanged otherwise; a camera may become the main camera |
| `Entities.Component.Name` | src/component/camera.rs:91-93 | a camera reports `"BI_CAMERA"` and only a camera does |
| `Entities.Component.Parent` | src/component/camera.rs:87-89 | the entity the component was created for, the same for a transform (src/component/transform.rs:19-21); that this is the object it was attached to is stated through `GameObject.AddComponent` (`c.Parent() == this`) and `GameObject.GetLuaComponent` (the component found has this object as parent) |
| `Entities.NameIdentifiesKind` | src/component/transform.rs:23-25 | two components report the same name exactly when they have the same type (`"BI_TRANSFORM"` is a transform's) |
| `Entities.Component.LuaCall` | src/component/mod.rs:13 | the new state and the outcome are those of `Dispatch` on the old state |
| `Entities.DispatchNeverReturnsValue` | src/component/camera.rs:99-109 | a dynamic call hands no value back (a camera answers `None`, a transform is unimplemented), and a name other than `"fov"` changes no state |
| `CameraSpec.RegisterFirst` | src/component/camera.rs:122-127 | registering a camera always leaves a main camera, and never replaces one already set |
| `CameraSpec.MainIsFirstCreated` | src/component/camera.rs:122-127 | after any sequence of creations the main camera is the one already set, else the first created, and is absent only when none was created |
| `Entities.Camera.constructor` | src/component/camera.rs:115-121 | fov 90 degrees, near 0.01, far 1000, zero perspective, and the given parent |
| `Entities.Camera.Create` | src/component/camera.rs:114-129 | a fresh camera with the default fields and the given parent; it becomes the main camera only when none is set; the parent's store and the counter are untouched |
| `Entities.Camera.Main` | src/component/camera.rs:27-36 | `rt.main`: `None` until the first `Create`, then the first camera created (`Runtime` constructor, `Camera.Create`, `MainIsFirstCreated`) |
| `Entities.Camera.SetFov` | src/component/camera.rs:44-46 | sets fov and changes no other field |
| `Entities.Camera.SetNear` | src/component/camera.rs:48-50 | sets near and changes no other field |
| `Entities.Camera.SetFar` | src/component/camera.rs:52-54 | sets far and changes no other field |
| `Entities.Camera.Fov` | src/component/camera.rs:62-68 | the Lua `fov` method: the fields and the answer are `FovAccess` of the old fields |
| `Entities.Camera.Near` | src/component/camera.rs:70-76 | the Lua `near` method: the fields and the answer are `NearAccess` of the old fields |
| `Entities.Camera.FarAsWritten` | src/component/camera.rs:77-83 | the Lua `far` method as written: stores the argument in far and answers with near |
| `Entities.Camera.Far` | src/component/camera.rs:77-83 | the Lua `far` method as evidently intended: stores the argument in far and answers with far |
| `CameraSpec.AccessRoundTrip` | src/component/camera.rs:62-76 | `fov(Some(v))` and `near(Some(v))` answer v, and a following read answers v; the same for the corrected `far` |
| `CameraSpec.AccessWritesOwnFieldOnly` | src/component/camera.rs:62-83 | each Lua accessor changes no field but its own, and the written and corrected `far` store the same |
| `CameraSpec.ReadIsIdempotent` | src/component/camera.rs:62-83 | with no argument each accessor changes nothing and answers its field (near for `far` as written), so two reads agree |
| `CameraSpec.FarAsWrittenLosesValue` | src/component/camera.rs:77-83 | when near differs from x, `far(Some(x))` and the read after it both answer something other than x |
| `CameraSpec.FarAsWrittenOnDefaults` | src/component/camera.rs:77-83 | on a new camera, `far(500)` stores 500 and answers 0.01 |
| `Entities.Camera.LuaCall` | src/component/camera.rs:99-109 | the fields become `CameraCall` of the old fields and the answer is `None` |
| `CameraSpec.FovCallSetsFov` | src/component/camera.rs:101-105 | `lua_call("fov", angle a)` sets fov to a and changes nothing else |
| `CameraSpec.OtherCallsAreNoOps` | src/component/camera.rs:99-109 | any other name, or a non-angle argument, leaves every field unchanged |
| `Entities.Transform.constructor` | src/component/transform.rs:39-46 | zero position, identity rotation, unit scale, and the given parent |
| `Entities.Transform.LuaCall` | src/component/transform.rs:31-33 | always `Unimplemented`, changing nothing |
| `Entities.LuaComponentRef.Parent` | src/component/lua_component_ref.rs:10-12 | the wrapped component's parent |
| `Entities.LuaComponentRef.Name` | src/component/lua_component_ref.rs:14-16 | the wrapped component's name |
| `Entities.LuaComponentRef.LuaCall` | src/component/lua_component_ref.rs:25-27 | exactly the state change and outcome of the wrapped component's `lua_call` |
| `Entities.LuaComponentRef.Call` | src/component/lua_component_ref.rs:39-41 | the `Call` metamethod passes `(method_name, args)` on unchanged: the same state change and outcome as `lua_call` |
| `Scenarios.FovSetThenRead` | src/component/camera.rs:62-68 | on an attached camera, `fov(Some(45°))` then `fov(None)` answers 45° |
| `Scenarios.DynamicCallReachesHandle` | src/game_object.rs:41-66 | the reference found under `"BI_CAMERA"` is the handle `add_component` returned: a dynamic `("fov", 60°)` call is seen by the native getter, and a native write is seen through the reference |
| `Scenarios.UnknownCallIsNoOp` | src/component/camera.rs:99-109 | a dynamic call with a name other than `"fov"` leaves the component's state as created and hands no value back |
| `Scenarios.MainCameraIsFirst` | src/component/camera.rs:27-35 | with two cameras created, `Camera::main` is the first of them |
| `Scenarios.SecondCameraIsShadowed` | src/game_object.rs:46-48 | a second camera on the same object is stored after the first, and lookup by name keeps finding the first |

## Left out

- The Lua bindings: `load_lua`, the `UserData::add_methods` registration, the
  `FromLua` derives, the `ToString` metamethods and the
  `component_lua_parent_functions!` macro. Only the bodies of the registered
  methods are modelled.
- `src/boxed.rs`: boxing and type erasure have no behaviour beyond
  allocation. `Box<dyn Component>` is the `Component` datatype.
- Locks and concurrency. `RwLock`/`Mutex` acquisition and `unwrap` on a
  poisoned lock are not modelled. The unsynchronised check-then-set on
  `MAIN` and on `GAME_OBJECT_ITR` is modelled as sequential set-once state
  and a plain counter, so the race between two first uses is not captured.
- `Entities.Runtime.Inc`: the counter is a `u32`; the model uses an unbounded
  `nat`, so the overflow after 2^32 objects is not modelled.
- Floating point: `f32` values are reals. The literal `0.01f32` is the real
  0.01, without rounding. Angles, vectors, the quaternion and the matrix are
  only stored and compared. The perspective matrix is never recomputed,
  which matches the source.
- `Clone` on `GameObject`, `Camera`, `Transform` and `LuaComponentRef`, and
  `Component::cloned`: a clone is a copy of a Dafny reference (or of a
  datatype value holding one), so there is no separate member. Reference
  counting and drop are not modelled.
- `Debug` formatting of `GameObject`, `Camera` and `CameraInner`.
- `Transform::lua_call` aborts with `todo!()`. It is modelled as the
  outcome `Unimplemented`, which changes no state, rather than as a process
  abort.
- The `parent` Lua method that the macro registers on `Camera` is not
  modelled apart from `Component.Parent`, which it calls.
- `AngleF` comes from a math library that is not part of this model. Only
  its degree form is modelled, because that is the only one the modelled
  code builds (`Angle::Degrees(90f32)`); other variants are not.

## Findings

| source | as written | input that shows it | evidently intended | confidence | as-written member | corrected member |
|---|---|---|---|---|---|---|
| src/component/camera.rs:77-83 | the Lua `far` method stores its argument in far but answers with near | a new camera, `far(500)`: far becomes 500 and the answer is 0.01 | answer with far, as `fov` and `near` answer with their own field | high; not executed | `Entities.Camera.FarAsWritten` (shown by `CameraSpec.FarAsWrittenLosesValue`, `CameraSpec.FarAsWrittenOnDefaults`) | `Entities.Camera.Far` (round trip proved in `CameraSpec.AccessRoundTrip`) |
