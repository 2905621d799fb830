/**
 * The slice of PHP's value model that the engine inspects: loosely typed
 * values, PHP's conversion to boolean, and `isset` on an array slot.
 */
module Php {

  datatype Option<T> = None | Some(value: T)

  /**
   * A PHP value as it reaches the engine from a query builder or a decoded
   * response. A PHP array is either a list (keys 0..n-1) or a dictionary with
   * string keys kept in insertion order. Floats and objects are not modelled.
   */
  datatype Value =
    | Null
    | Bool(b: bool)
    | Int(i: int)
    | Str(s: string)
    | List(items: seq<Value>)
    | Dict(entries: seq<(string, Value)>)

  /** `is_array($v)` */
  predicate IsArray(v: Value) {
    v.List? || v.Dict?
  }

  /** PHP's conversion of a value to boolean (`if ($v)`, `array_filter`). */
  predicate Truthy(v: Value) {
    match v
    case Null => false
    case Bool(b) => b
    case Int(i) => i != 0
    case Str(s) => s != "" && s != "0"
    case List(items) => items != []
    case Dict(entries) => entries != []
  }

  /** `isset($a[k])` for a slot that is absent (None) or holds a value. */
  predicate IsSet(slot: Option<Value>) {
    slot.Some? && slot.value != Null
  }

  /**
   * The slot that `array_filter` leaves for an entry holding `v`:
   * the entry survives exactly when `v` is truthy.
   */
  function FilterSlot(v: Value): (slot: Option<Value>)
    ensures slot.Some? <==> Truthy(v)
    ensures slot.Some? ==> slot.value == v && IsSet(slot)
  {
    if Truthy(v) then Some(v) else None
  }
}
