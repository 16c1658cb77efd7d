/**
  A request field after Python's `int(...)` coercion has been tried on it.
  The details of the coercion (strings, floats, booleans) are abstracted
  away: a field is either absent (`None`), coercible to an integer, or not.
 */
module Coercion {

  datatype Field = Missing | IntLike(n: int) | NotInt
}
