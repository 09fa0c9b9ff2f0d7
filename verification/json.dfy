/**
 * The JavaScript values that travel between the transport and the store.
 * Every value of this inductive type is finite and acyclic, which is what
 * `cycle.decycle` guarantees before metadata reaches serialization.
 */
module Json {
  import opened Wrappers

  /** A `Date`; ordered as time is (and as its ISO-8601 rendering sorts). */
  type Instant = int

  datatype Value =
    | Null
    | Bool(b: bool)
    | Num(n: int)
    | Str(s: string)
    | Time(at: Instant)
    | Arr(items: seq<Value>)
    | Obj(fields: map<string, Value>)

  /** A plain object: the metadata, the `params` of a log document. */
  type Params = map<string, Value>

  /** JavaScript truthiness (`undefined` is modelled as `Null`). */
  predicate Truthy(v: Value) {
    match v
    case Null => false
    case Bool(b) => b
    case Num(n) => n != 0
    case Str(s) => s != ""
    case _ => true
  }

  /** A property read `o.k`, where a missing key reads as `undefined`. */
  function Member(o: Params, k: string): Value {
    if k in o then o[k] else Null
  }

  /** `x || fallback` for an optional string: the empty string is falsy. */
  function Or(x: Option<string>, fallback: string): string {
    if x.Some? && x.value != "" then x.value else fallback
  }
}
