/** JavaScript values as the server and the control panel see them once a
    request body or a socket payload has been decoded, and the few JavaScript
    operators the handlers apply to them. */
module Values {

  datatype Option<+T> = None | Some(value: T)

  /** A reading of the wall clock (`new Date()` or `Date.now()`), in
      milliseconds; its ISO-8601 rendering is not modelled. */
  type Timestamp = nat

  /** A decoded JSON value, plus `undefined` for a key the payload omits.
      Numbers are integers here (ids, sizes, durations). */
  datatype JsValue =
    | Undefined
    | Null
    | Bool(b: bool)
    | Num(n: int)
    | Str(s: string)
    | Obj(fields: map<string, JsValue>)

  /** A plain object: its own keys and their values. */
  type Record = map<string, JsValue>

  /** JavaScript truthiness: `undefined`, `null`, `false`, `0` and `''` are falsy. */
  predicate Truthy(v: JsValue) {
    match v
    case Undefined => false
    case Null => false
    case Bool(b) => b
    case Num(n) => n != 0
    case Str(s) => s != ""
    case Obj(_) => true
  }

  /** `v || null`: a falsy value is replaced by `null` (None), a truthy one is kept. */
  function OrNull(v: JsValue): (r: Option<JsValue>)
    ensures r == None <==> !Truthy(v)
    ensures r != None ==> r.value == v && Truthy(r.value)
  {
    if Truthy(v) then Some(v) else None
  }

  /** `a === b` on primitives. Two objects are never taken to be identical:
      object identity is not modelled, and ids in this system are primitives. */
  predicate StrictEquals(a: JsValue, b: JsValue) {
    !a.Obj? && !b.Obj? && a == b
  }

  /** `r[key]`: a missing key reads as `undefined`. */
  function Get(r: Record, key: string): JsValue {
    if key in r then r[key] else Undefined
  }

  /** `{...a, ...b}`: every key of either object, the value from `b` winning.
      Copying entries into an object one key at a time (`forEach` with
      `a[k] = v`) ends in the same object. */
  function Spread<K, V>(a: map<K, V>, b: map<K, V>): (r: map<K, V>)
    ensures r.Keys == a.Keys + b.Keys
    ensures forall k :: k in b ==> r[k] == b[k]
    ensures forall k :: k in a && k !in b ==> r[k] == a[k]
  {
    a + b
  }

  /** Spreading the same object a second time changes nothing. */
  lemma SpreadIdempotent<K, V>(a: map<K, V>, b: map<K, V>)
    ensures Spread(Spread(a, b), b) == Spread(a, b)
  {
    var once := Spread(a, b);
    assert forall k :: k in once ==> Spread(once, b)[k] == once[k];
  }

  /** The outcome of a REST handler: a 2xx status with its `data`, or an
      error status with the `error.message` the handler sends. */
  datatype Http<+T> = Ok(status: nat, data: T) | Fail(status: nat, message: string)
}
