/** The PHP values that cross the core's boundary: call arguments, decoded
    webhook bodies and Telegram updates. */
module Php {

  /** The PHP values the core passes along. An array is a mapping from keys
      to values: an integer key is written as its decimal string, as PHP
      itself treats `1` and `"1"` as the same key, and entry order is not kept.
      An object is known only by an identity. Floats are not represented: the
      core never inspects a value beyond telling null and arrays apart, and
      what TypeCaster does with a float is not part of this model. */
  datatype Value =
    | Null
    | Bool(b: bool)
    | Int(i: int)
    | Str(s: string)
    | Arr(entries: map<string, Value>)
    | Obj(id: nat)

  /** The empty array literal `[]`. */
  const EmptyArray: Value := Arr(map[])
}
