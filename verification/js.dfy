/**
 * JavaScript value conventions the application relies on: optional values
 * (`undefined` / `null`), the truthiness of strings and numbers used by `||`,
 * `!x` and `if (x)`, and the numbers produced by `Number(...)`.
 */
module Js {

  /** A value that may be absent (`undefined` or `null`). */
  datatype Option<+T> = None | Some(value: T)

  /** `!!s` for an optional string: present and not the empty string. */
  predicate Truthy(s: Option<string>) {
    s.Some? && s.value != ""
  }

  /** `a || b` on optional strings: `a` when it is truthy, otherwise `b`. */
  function OrElse(a: Option<string>, b: string): (r: string)
    ensures Truthy(a) ==> r == a.value
    ensures !Truthy(a) ==> r == b
  {
    if Truthy(a) then a.value else b
  }

  /** What `await req.json()` yields: the parsed value, or a throw for a body that is not JSON. */
  datatype JsonBody<T> = Malformed | Parsed(value: T)

  /** `${v}` in a template literal: the string itself, or "undefined" when absent. */
  function Interpolated(v: Option<string>): (r: string)
    ensures v.Some? ==> r == v.value
    ensures v.None? ==> r == "undefined"
  {
    if v.Some? then v.value else "undefined"
  }

  /** `a || b` on optional strings where `b` may itself be absent. */
  function OrOpt(a: Option<string>, b: Option<string>): (r: Option<string>)
    ensures Truthy(a) ==> r == a
    ensures !Truthy(a) ==> r == b
  {
    if Truthy(a) then a else b
  }

  /**
   * A JavaScript number as far as the validators look at it: a finite value,
   * NaN or one of the infinities.  Finite values are kept as reals.
   */
  datatype JsNumber = Finite(v: real) | NaN | PosInfinity | NegInfinity {
    /** `Number.isFinite(x)` */
    predicate IsFinite() { Finite? }

    /** `isNaN(x)` */
    predicate IsNaN() { NaN? }

    /** `x < 0` */
    predicate Negative() { NegInfinity? || (Finite? && v < 0.0) }
  }

  /** `Math.max(lo, Math.min(hi, x))` on integers. */
  function Clamp(x: int, lo: int, hi: int): (r: int)
    requires lo <= hi
    ensures lo <= r <= hi
    ensures lo <= x <= hi ==> r == x
    ensures x < lo ==> r == lo
    ensures x > hi ==> r == hi
  {
    if x < lo then lo else if x > hi then hi else x
  }
}
