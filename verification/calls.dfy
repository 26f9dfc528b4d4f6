/**
 * The argument and the outcome of `Component::lua_call`, the dynamic-call
 * entry point every component implements (src/component/mod.rs:13).
 */
module Calls {
  import opened Wrappers
  import opened Mathematics

  /** The argument of a dynamic call: an angle, or any other script value. */
  datatype UserData = AngleArg(angle: Angle) | OtherArg

  /**
   * The outcome of a dynamic call: the optional value handed back to the
   * script, or `Unimplemented` where the source aborts with `todo!()`.
   */
  datatype CallOutcome = Returned(result: Option<UserData>) | Unimplemented
}
