/**
 * The untyped JavaScript values the core inspects with `typeof`, `===` and
 * truthiness tests: configuration records, event payloads and option bags.
 */
module JsValues {
  import opened Wrappers

  datatype Value =
    | Undefined
    | Null
    | Bool(b: bool)
    | Num(n: real)
    | Str(s: string)
    | Arr(items: seq<Value>)
    | Obj(fields: map<string, Value>)

  /** A plain object's own properties; a property set to `undefined` is still a key. */
  type Record = map<string, Value>

  /** `Boolean(v)`: false exactly for `undefined`, `null`, `false`, `0` and `""` (NaN is not modelled). */
  predicate Truthy(v: Value) {
    match v
    case Undefined => false
    case Null => false
    case Bool(b) => b
    case Num(n) => n != 0.0
    case Str(s) => s != ""
    case Arr(_) => true
    case Obj(_) => true
  }

  /** `r?.[k]`: reading a missing record or a missing key gives `undefined`. */
  function Field(r: Option<Record>, k: string): Value {
    if r.Some? && k in r.value then r.value[k] else Undefined
  }

  /** `typeof v === "string" ? v : ""`, the source's idiom for reading an optional string field. */
  function StringOrEmpty(v: Value): string {
    if v.Str? then v.s else ""
  }
}
