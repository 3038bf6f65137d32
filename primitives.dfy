/**
 * Shared primitive types of the crate: the fixed-width integers its records
 * use, Rust's `Option`, chrono instants and opaque `serde_json::Value`
 * payloads.
 */
module Primitives {

  datatype Option<+T> = None | Some(value: T)

  const UINT32_LIMIT: int := 0x1_0000_0000
  const INT64_MIN: int := -0x8000_0000_0000_0000
  const INT64_MAX: int := 0x7FFF_FFFF_FFFF_FFFF

  /** Rust `u32`. */
  type uint32 = n: int | 0 <= n < 0x1_0000_0000
  /** Rust `u64`. */
  type uint64 = n: int | 0 <= n < 0x1_0000_0000_0000_0000
  /** Rust `i32`. */
  type int32 = n: int | -0x8000_0000 <= n < 0x8000_0000

  /** A `DateTime<Utc>`, or milliseconds since the epoch; always supplied by the caller. */
  type Timestamp = int

  /** A `serde_json::Value`, carried through the model without interpretation. */
  datatype Json =
    | Null
    | Bool(b: bool)
    | Number(n: real)
    | Str(s: string)
    | Array(items: seq<Json>)
    | Object(fields: map<string, Json>)

  /** A `HashMap<String, serde_json::Value>` of custom properties. */
  type Metadata = map<string, Json>

  predicate InInt64(n: int) {
    INT64_MIN <= n <= INT64_MAX
  }
}
