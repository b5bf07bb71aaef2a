/** What several parts share: optional values and Go's integer division. */
module Basics {

  datatype Option<+T> = None | Some(value: T)

  /** Division of Go integers rounds toward zero. */
  function GoDiv(a: int, b: int): (q: int)
    requires b > 0
    ensures a >= 0 ==> 0 <= a - b * q < b
    ensures a < 0 ==> -b < a - b * q <= 0
  {
    if a >= 0 then a / b else -(-a / b)
  }
}
