/** Values shared by every model in this project. */
module Prelude {

  datatype Option<+T> = None | Some(value: T)

  /** A floating-point reading where the source asks `is_finite`: any NaN or
      infinity is the single value NonFinite. */
  datatype Float = Finite(v: real) | NonFinite

  function AbsR(x: real): real {
    if x < 0.0 then -x else x
  }

  function MinR(x: real, y: real): real {
    if x <= y then x else y
  }

  function MaxR(x: real, y: real): real {
    if x >= y then x else y
  }

  function MinN(x: nat, y: nat): nat {
    if x <= y then x else y
  }

  function ClampR(x: real, lo: real, hi: real): real
    requires lo <= hi
  {
    if x < lo then lo else if x > hi then hi else x
  }

  function ClampN(x: nat, lo: nat, hi: nat): nat
    requires lo <= hi
  {
    if x < lo then lo else if x > hi then hi else x
  }

  /** The finite value carried by an optional reading, if there is one. */
  function FiniteOf(x: Option<Float>): Option<real> {
    match x
    case Some(Finite(v)) => Some(v)
    case _ => None
  }
}
