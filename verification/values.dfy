/**
  Dynamic values exchanged between the agent, the gateway and the editor host.

  `Value` stands for any JSON-like datum the Python code handles: `Null` is
  Python's `None` (JSON `null`), floats are carried as opaque reals that are
  only ever passed through, and lists and dicts nest further values.
 */
module Values {

  /** Presence wrapper for an optional argument: `None` is "not supplied". */
  datatype Option<+T> = None | Some(value: T)

  /** Either a value or an error; used for "payload or local failure envelope". */
  datatype Result<+T, +E> = Ok(value: T) | Err(error: E)

  datatype Value =
    | Null
    | Bool(b: bool)
    | Int(i: int)
    | Real(r: real)
    | Str(s: string)
    | List(items: seq<Value>)
    | Dict(entries: map<string, Value>)

  /** The result dictionary returned to the agent, `{success, message[, data]}`;
      `data` is `None` when the dictionary has no `data` key at all. */
  datatype Envelope = Envelope(success: bool, message: Value, data: Option<Value>)

  /** Python truthiness: the falsy values are exactly `None`, `False`, zero
      and the empty text, list and dict. */
  function Truthy(v: Value): (t: bool)
    ensures !t <==> v in {Null, Bool(false), Int(0), Real(0.0), Str(""), List([]), Dict(map[])}
  {
    match v
    case Null => false
    case Bool(b) => b
    case Int(i) => i != 0
    case Real(r) => r != 0.0
    case Str(s) => s != ""
    case List(items) => items != []
    case Dict(entries) => entries != map[]
  }

  /** Python's `d.get(key, default)`: the default only when the key is absent. */
  function Get<K>(d: map<K, Value>, key: K, default: Value): (v: Value)
    ensures key in d ==> v == d[key]
    ensures key !in d ==> v == default
  {
    if key in d then d[key] else default
  }

  /** An optional string argument as the Python value it denotes. */
  function FromString(o: Option<string>): (v: Value)
    ensures v == Null <==> o.None?
    ensures o.Some? ==> v == Str(o.value)
  {
    match o
    case None => Null
    case Some(s) => Str(s)
  }

  /** An optional boolean argument as the Python value it denotes. */
  function FromBool(o: Option<bool>): (v: Value)
    ensures v == Null <==> o.None?
    ensures o.Some? ==> v == Bool(o.value)
  {
    match o
    case None => Null
    case Some(b) => Bool(b)
  }

  /** An optional argument of union or container type; an explicit `None` stays `None`. */
  function FromValue(o: Option<Value>): (v: Value)
    ensures v == Null <==> o.None? || o.value == Null
    ensures o.Some? ==> v == o.value
  {
    match o
    case None => Null
    case Some(x) => x
  }
}
