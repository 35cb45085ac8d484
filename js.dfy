/**
 * The JavaScript values that the modelled front end reads and writes:
 * `undefined`, `null` and strings, plain objects as maps from keys to such
 * values, and the few character classes its regular expressions use.
 */
module Js {

  datatype Option<+T> = None | Some(value: T)

  /** A JavaScript value as the modelled code meets it. */
  datatype JsValue = Undefined | Null | Str(s: string)

  /** A plain object; a key that is absent reads as `undefined`. */
  type JsObject = map<string, JsValue>

  /** Property access `o[key]`. */
  function Get(o: JsObject, key: string): (v: JsValue)
    ensures key !in o ==> v == Undefined
    ensures key in o ==> v == o[key]
  {
    if key in o then o[key] else Undefined
  }

  /** JavaScript truthiness: `undefined`, `null` and `""` are falsy. */
  predicate Truthy(v: JsValue)
  {
    v.Str? && v.s != ""
  }

  /** The characters of the regular-expression class `\s` (also the white space `parseInt` skips). */
  predicate IsWhitespace(c: char)
  {
    var n := c as int;
    (9 <= n <= 13) || n == 0x20 || n == 0xA0 || n == 0x1680 || (0x2000 <= n <= 0x200A)
    || n == 0x2028 || n == 0x2029 || n == 0x202F || n == 0x205F || n == 0x3000 || n == 0xFEFF
  }

  /** The characters of the regular-expression class `\d`: ASCII digits only. */
  predicate IsDigit(c: char)
  {
    '0' <= c <= '9'
  }
}
