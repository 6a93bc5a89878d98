/** The values that a request body in JSON can hold. */
module JsValues {

  datatype Value =
    | Null
    | Str(text: string)
    | Num(number: real)
    | Flag(flag: bool)
    | Items(items: seq<Value>)
    | Record(fields: map<string, Value>)

  /** A body maps keys to values; a key that is not in the map is `undefined`. */
  type Data = map<string, Value>

  datatype Option<T> = None | Some(value: T)

  datatype Lookup = Undefined | Found(value: Value)

  function Look(data: Data, key: string): Lookup {
    if key in data then Found(data[key]) else Undefined
  }

  /** `undefined`, `null` or the empty string. */
  predicate Unset(v: Lookup) {
    v.Undefined? || v.value.Null? || v.value == Str("")
  }
}
