/** Datatypes and arithmetic shared by every component. */
module Prelude {

  datatype Option<+T> = None | Some(value: T)

  function Abs(x: real): real { if x < 0.0 then -x else x }

  function Min(x: real, y: real): real { if x <= y then x else y }

  function Max(x: real, y: real): real { if x >= y then x else y }

  /** `f64::clamp`; Rust panics unless the bounds are ordered. */
  function Clamp(x: real, lo: real, hi: real): real
    requires lo <= hi
  {
    if x < lo then lo else if x > hi then hi else x
  }

  /** `f64::EPSILON`, two to the power minus 52. */
  const EPSILON: real := 1.0 / 4503599627370496.0
}
