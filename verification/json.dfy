/**
 * An abstract model of a parsed JSON document (serde_json's `Value`) and of the
 * accessors the bridge uses on it: `get`, `as_str`, `as_u64`, `as_bool`.
 */
module Json {
  import opened Wrappers

  /** One more than the largest `u64`. */
  const U64_LIMIT: int := 0x1_0000_0000_0000_0000

  /**
   * Numbers serde_json keeps as u64 or i64 (no fraction or exponent, within
   * 64 bits) are `Int`; every other number, `1.0` included, is `Float`. Objects are
   * maps, as serde_json's default `Map` keeps one value per key.
   */
  datatype Value =
    | Null
    | Bool(b: bool)
    | Int(i: int)
    | Float(r: real)
    | Str(s: string)
    | Array(items: seq<Value>)
    | Object(fields: map<string, Value>)

  /** `value.get(key)`: the field of an object, nothing for any other value. */
  function Get(v: Value, key: string): Option<Value>
  {
    if v.Object? && key in v.fields then Some(v.fields[key]) else None
  }

  /** `value.get(key).and_then(|v| v.as_str())` */
  function StrField(v: Value, key: string): Option<string>
  {
    match Get(v, key)
    case Some(Str(s)) => Some(s)
    case _ => None
  }

  /** `value.get(key).and_then(|v| v.as_u64())`: only integers in `0 .. 2^64` qualify. */
  function U64Field(v: Value, key: string): Option<nat>
  {
    match Get(v, key)
    case Some(Int(i)) => if 0 <= i < U64_LIMIT then Some(i as nat) else None
    case _ => None
  }

  /** `value.get(key).cloned().unwrap_or(Value::Null)` */
  function FieldOrNull(v: Value, key: string): Value
  {
    match Get(v, key)
    case Some(f) => f
    case None => Null
  }
}
