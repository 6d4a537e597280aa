/** Python's `None`-or-value results, as an Option. */
module Wrappers {

  datatype Option<+T> = None | Some(value: T) {

    /** The value, or `default` when there is none (Python's `x if x is not None else default`). */
    function GetOr(default: T): T {
      match this
      case Some(v) => v
      case None => default
    }
  }

  /** Python's `x or 0` on an optional number: `None` and `0` both give `0`. */
  function OrZero(x: Option<real>): (r: real)
    ensures r == 0.0 <==> x.None? || x.value == 0.0
    ensures r != 0.0 ==> x == Some(r)
  {
    x.GetOr(0.0)
  }
}
