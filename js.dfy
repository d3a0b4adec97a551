/** JavaScript value conventions the TypeScript sources rely on. */
module Js {

  /** `null` / `undefined` versus a present value. */
  datatype Option<+T> = None | Some(value: T)

  /**
   * A JavaScript number at the few places where the sources can produce a
   * non-finite one: `Infinity`, `-Infinity` and `NaN` are not told apart.
   */
  datatype Num = Finite(value: real) | NonFinite

  /** `x || 0` on a nullable numeric field (JSON has no NaN, so only null and 0 are falsy). */
  function OrZero(x: Option<real>): real
  {
    if x.Some? then x.value else 0.0
  }

  /** JavaScript truthiness of a nullable numeric field. */
  predicate Truthy(x: Option<real>)
  {
    x.Some? && x.value != 0.0
  }

  /** `parseFloat(...)` seen as a number: a failed parse is `NaN`. */
  function FromParse(x: Option<real>): Num
  {
    if x.Some? then Finite(x.value) else NonFinite
  }

  /** `(part / whole) * 100`: non-finite exactly when `whole` is 0. */
  function Percent(part: real, whole: real): (r: Num)
    ensures r.Finite? <==> whole != 0.0
    ensures r.Finite? ==> r.value * whole == part * 100.0
  {
    if whole == 0.0 then NonFinite else Finite(part / whole * 100.0)
  }
}
