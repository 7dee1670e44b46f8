/** Option and Result: the shapes used for JavaScript's optional values
    (`undefined`/`null`) and for thrown errors. */
module Wrappers {

  datatype Option<+T> = None | Some(value: T) {
    /** `x ?? d`, and `x || d` where every present value is truthy. */
    function GetOr(default: T): T {
      match this
      case Some(v) => v
      case None => default
    }
  }

  /** `Ok` is a resolved promise, `Err` a rejected one (or a thrown error). */
  datatype Result<+T, +E> = Ok(value: T) | Err(error: E)

  /** JavaScript's `s || d` on a possibly absent string: absent and empty are
      both falsy, so either gives `d`. */
  function OrDefault(s: Option<string>, d: string): (r: string)
    ensures s.Some? && s.value != "" ==> r == s.value
    ensures s.None? || s.value == "" ==> r == d
  {
    if s.Some? && s.value != "" then s.value else d
  }

  /** How a template literal renders a possibly undefined string. */
  function MessageText(m: Option<string>): (r: string)
    ensures m.Some? ==> r == m.value
  {
    if m.Some? then m.value else "undefined"
  }

  function Min(a: int, b: int): (m: int)
    ensures m <= a && m <= b && (m == a || m == b)
  {
    if a <= b then a else b
  }
}
