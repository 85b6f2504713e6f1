/**
 * The values a wrapper holds. The dataset is one JSON object: an insertion-ordered list of
 * distinct keys (the order `Object.keys` reports) and the value stored under each key.
 */
module Json {
  import opened Utils

  /**
   * A JSON value with the shapes the wrappers tell apart: counters are numbers, sets are
   * arrays of strings, flag definitions are strings or nested objects.
   */
  datatype Value =
    | Null
    | Bool(b: bool)
    | Num(n: int)
    | Str(s: string)
    | StrList(items: seq<string>)
    | Obj(fields: Object)

  /** A JSON object: its own keys in insertion order, and the value under each key. */
  datatype Object = Object(keys: seq<string>, vals: map<string, Value>)

  /** Every key is listed once, and the listed keys are exactly the stored ones. */
  ghost predicate WellFormed(o: Object) {
    && NoDuplicates(o.keys)
    && forall k :: k in o.vals <==> k in o.keys
  }

  /** The dataset a wrapper holds between connect and disconnect. */
  type Dataset = o: Object | WellFormed(o) witness Object([], map[])

  /** `{}` */
  const Empty: Dataset := Object([], map[])

  /**
   * JavaScript truthiness: `null`, `false`, `0` and `""` are falsy; arrays and objects,
   * even empty ones, are truthy.
   */
  predicate Truthy(v: Value) {
    match v
    case Null => false
    case Bool(b) => b
    case Num(n) => n != 0
    case Str(s) => s != ""
    case StrList(_) => true
    case Obj(_) => true
  }

  /** `obj.hasOwnProperty(p)`: `p` is one of the object's own keys. */
  function HasOwnProperty(obj: Dataset, p: string): (r: bool)
    ensures r <==> p in obj.keys
  {
    p in obj.vals
  }
}
