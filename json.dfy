/**
 * The decoded request body as Flask hands it over (`request.json`): a JSON
 * value, together with the two Python behaviours the webhook handler relies
 * on, truthiness and `dict.get`.
 */
module Json {
  import opened Wrappers

  datatype Value =
    | Null
    | Bool(b: bool)
    | Num(n: int)
    | Str(s: string)
    | Arr(items: seq<Value>)
    | Obj(fields: map<string, Value>)

  /** What goes wrong when a nested value has the wrong shape. */
  datatype Fault = AttributeError

  const EMPTY_OBJECT: Value := Obj(map[])

  /** The values Python treats as false: `None`, `False`, `0`, `""`, `[]`, `{}`. */
  const FALSY: set<Value> := {Null, Bool(false), Num(0), Str(""), Arr([]), Obj(map[])}

  /** Python truthiness of a decoded JSON value (`if v:`). */
  predicate Truthy(v: Value)
    ensures Truthy(v) <==> v !in FALSY
  {
    match v
    case Null => false
    case Bool(b) => b
    case Num(n) => n != 0
    case Str(s) => s != []
    case Arr(xs) => xs != []
    case Obj(m) => m != map[]
  }

  /**
   * `v.get(key, default)`: only a dict has `.get`; on any other value Python
   * raises AttributeError.
   */
  function Get(v: Value, key: string, default: Value): (r: Result<Value, Fault>)
    ensures r.Failure? <==> !v.Obj?
    ensures r.Success? && key in v.fields ==> r.value == v.fields[key]
    ensures r.Success? && key !in v.fields ==> r.value == default
  {
    if !v.Obj? then Failure(AttributeError)
    else if key in v.fields then Success(v.fields[key])
    else Success(default)
  }

  /** The value under `key` of an object, or `default` when it is absent. */
  function Field(v: Value, key: string, default: Value): Value
    requires v.Obj?
  {
    if key in v.fields then v.fields[key] else default
  }

  /** True when `key` is present in the object `v` with a value that is not an object. */
  predicate HoldsNonObject(v: Value, key: string)
    requires v.Obj?
  {
    key in v.fields && !v.fields[key].Obj?
  }
}
