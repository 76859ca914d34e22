/** Small value types shared by both index modules. */
module Common {

  /** An optional value: a request parameter that may be absent, a query answer that may be missing. */
  datatype Option<+T> = None | Some(value: T)

  /** Outcome of a partial document update: the document store rejects an update of a missing id. */
  datatype Outcome = Updated | NotFound

  function Min(a: int, b: int): (m: int)
    ensures m <= a && m <= b && (m == a || m == b)
  {
    if a <= b then a else b
  }

  /**
   * The JavaScript idiom `(params && params.field) || default` on a numeric field:
   * an absent field and the value 0 both select the default.
   */
  function OrDefault(field: Option<nat>, default: nat): (r: nat)
    ensures field.Some? && field.value != 0 ==> r == field.value
    ensures field.None? || field.value == 0 ==> r == default
  {
    if field.Some? && field.value != 0 then field.value else default
  }
}
