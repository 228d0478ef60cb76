/**
 * JavaScript values as the guarded constructors see them. The guards only ask
 * whether a value is an integer number (Number.isInteger) or which string it
 * is (membership among the keys of an object), so every other distinction
 * between JavaScript values is collapsed into Other.
 */
module JsValues {

  datatype Value =
    | Integer(n: int)   // a number for which Number.isInteger holds (1, -3, 2.0)
    | Str(s: string)    // a string, such as "ADULT" or "abc"
    | Other             // anything else: 1.5, NaN, undefined, null, an object

  /** The integer guard: holds exactly for numbers with no fractional part. */
  predicate IsInteger(v: Value)
  {
    v.Integer?
  }

  /** The TypeError a guarded constructor throws, with its message. */
  datatype TypeError = TypeError(message: string)
}
