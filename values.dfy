/**
 * The decoder's generic value tree: a serde_json `Value`. A number is kept
 * abstract, as the two optional views the binding asks of it (`as_i64`,
 * `as_f64`); the float payload is opaque.
 */
module Values {
  import opened Wrappers
  import Entries

  /** Rust's `i64`. */
  newtype I64 = x: int | -0x8000_0000_0000_0000 <= x < 0x8000_0000_0000_0000

  /** An IEEE 754 double, kept as its 64 bits and never interpreted. */
  datatype F64 = F64(bits: bv64)

  /** A serde_json `Number`, seen through `as_i64()` and `as_f64()`. */
  datatype JsonNumber = JsonNumber(asI64: Option<I64>, asF64: Option<F64>)

  /** A serde_json `Value`; an object's entries are listed in the map's iteration order. */
  datatype Value =
    | Null
    | Bool(b: bool)
    | Number(n: JsonNumber)
    | String(s: string)
    | Array(arr: seq<Value>)
    | Object(obj: seq<(string, Value)>)

  /** Every object in the tree has distinct keys, as serde_json's `Map` guarantees. */
  predicate WellFormed(v: Value) {
    match v
    case Array(arr) => forall i | 0 <= i < |arr| :: WellFormed(arr[i])
    case Object(obj) =>
      && Entries.DistinctKeys(obj)
      && forall i | 0 <= i < |obj| :: WellFormed(obj[i].1)
    case _ => true
  }
}
