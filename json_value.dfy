/** Python values as they appear in the JSON documents of the storage
    (`metadata.json`, `holodex.json`, `diarization.json`, ...), with the
    handful of `dict` operations the storage code uses on them. */
module JsonValue {
  import opened Wrappers

  /** A Python value built from JSON. `Set` holds the Python sets the code
      puts into metadata (`flags`, `langs`) before they are serialised. */
  datatype Value =
    | Null
    | Bool(b: bool)
    | Num(n: real)
    | Str(s: string)
    | List(items: seq<Value>)
    | Set(elems: set<Value>)
    | Dict(fields: map<string, Value>)

  type Object = map<string, Value>

  /** Python truthiness. */
  predicate Truthy(v: Value) {
    match v
    case Null => false
    case Bool(b) => b
    case Num(n) => n != 0.0
    case Str(s) => s != []
    case List(items) => items != []
    case Set(elems) => elems != {}
    case Dict(fields) => fields != map[]
  }

  /** `d[key]`: KeyError for a missing key. */
  function Get(d: Object, key: string): (r: Result<Value>)
    ensures r.Ok? <==> key in d
    ensures r.Ok? ==> r.value == d[key]
    ensures r.Err? ==> r.error == KeyError(key)
  {
    if key in d then Ok(d[key]) else Err(KeyError(key))
  }

  /** `d.get(key, default)`. */
  function GetOr(d: Object, key: string, default: Value): (r: Value)
    ensures key in d ==> r == d[key]
    ensures key !in d ==> r == default
  {
    if key in d then d[key] else default
  }

  /** `d | {key: value}` and `dict(d, key=value)`: a copy with key set. */
  function With(d: Object, key: string, value: Value): (r: Object)
    ensures r.Keys == d.Keys + {key}
    ensures r[key] == value
    ensures forall k :: k in d && k != key ==> r[k] == d[k]
  {
    d[key := value]
  }

  /** `d | e`: e's entries win. */
  function Merge(d: Object, e: Object): (r: Object)
    ensures r.Keys == d.Keys + e.Keys
    ensures forall k :: k in e ==> r[k] == e[k]
    ensures forall k :: k in d && k !in e ==> r[k] == d[k]
  {
    d + e
  }

  /** `d.pop(key, default)`: the value (or default) and d without key. */
  function Pop(d: Object, key: string, default: Value): (r: (Value, Object))
    ensures r.0 == GetOr(d, key, default)
    ensures r.1.Keys == d.Keys - {key}
    ensures forall k :: k in r.1 ==> r.1[k] == d[k]
  {
    (GetOr(d, key, default), d - {key})
  }

  /** The values Python can put in a set. */
  predicate Hashable(v: Value) {
    v.Null? || v.Bool? || v.Num? || v.Str?
  }

  /** `set(v)` for the values JSON can hold: a list's hashable items, a
      set's elements, a string's characters, a dict's keys; a scalar is not
      iterable and an unhashable list item cannot be added. */
  function ToSet(v: Value): (r: Result<set<Value>>)
    ensures r.Ok? ==> forall x :: x in r.value ==> Hashable(x) || v.Set?
    ensures v.List? ==> (r.Ok? <==> forall i :: 0 <= i < |v.items| ==> Hashable(v.items[i]))
    ensures r.Ok? && v.List? ==> forall x :: x in r.value <==> x in v.items
    ensures r.Err? ==> r.error.TypeError?
  {
    match v
    case List(items) =>
      if forall i :: 0 <= i < |items| ==> Hashable(items[i]) then Ok(set x | x in items) else Err(TypeError("unhashable"))
    case Set(elems) => Ok(elems)
    case Str(s) => Ok(set c | c in s :: Str([c]))
    case Dict(fields) => Ok(set k | k in fields :: Str(k))
    case _ => Err(TypeError("not iterable"))
  }

  /** Whether a value holds a Python set anywhere: the standard `json.dumps`
      rejects those with TypeError. */
  predicate HasSet(v: Value) {
    match v
    case Set(_) => true
    case List(items) => exists i :: 0 <= i < |items| && HasSet(items[i])
    case Dict(fields) => exists k :: k in fields && HasSet(fields[k])
    case _ => false
  }

  /** The strings of a set of values, for sets known to hold only strings. */
  function Strings(xs: set<Value>): (r: set<string>)
    ensures forall s :: s in r <==> Str(s) in xs
  {
    set x | x in xs && x.Str? :: x.s
  }

  /** A set of strings as a value. */
  function StrSet(ss: set<string>): (r: Value)
    ensures r.Set? && Strings(r.elems) == ss
  {
    Set(set s | s in ss :: Str(s))
  }

  /** The JSON text codec: `dumps` is the project's `json_dumps`,
      `stdDumps` is `json.dumps` (which additionally refuses sets, see
      StdDumps), `sortedDumps` is `json.dumps(..., sort_keys=True)`, and
      `loads` is `json.loads`, None for text that is not JSON, and `show`
      is `str()` of a value that is not a string. All are external and kept
      abstract: no round-trip between them is assumed. */
  datatype Codec = Codec(
    dumps: Value -> string,
    stdDumps: Value -> string,
    sortedDumps: Value -> string,
    loads: string -> Option<Value>,
    show: Value -> string)

  /** `str(v)`: a string is itself. */
  function PyStr(codec: Codec, v: Value): (r: string)
    ensures v.Str? ==> r == v.s
  {
    if v.Str? then v.s else codec.show(v)
  }

  /** `json.loads(text)`: ValueError for text that is not JSON. */
  function Loads(codec: Codec, text: string): (r: Result<Value>)
    ensures r.Ok? <==> codec.loads(text).Some?
    ensures r.Ok? ==> r.value == codec.loads(text).value
  {
    match codec.loads(text)
    case Some(v) => Ok(v)
    case None => Err(ValueError("invalid JSON"))
  }

  /** `json.dumps(value)`: TypeError when the value holds a set. */
  function StdDumps(codec: Codec, v: Value): (r: Result<string>)
    ensures r.Ok? <==> !HasSet(v)
    ensures r.Ok? ==> r.value == codec.stdDumps(v)
  {
    if HasSet(v) then Err(TypeError("set is not JSON serializable")) else Ok(codec.stdDumps(v))
  }

  /** A JSON document that must be an object to be used with `[]`, `.get`
      or `.pop`; any other document raises TypeError (Python raises
      TypeError or AttributeError depending on the operation). */
  function AsObject(v: Value): (r: Result<Object>)
    ensures r.Ok? <==> v.Dict?
    ensures r.Ok? ==> r.value == v.fields
  {
    if v.Dict? then Ok(v.fields) else Err(TypeError("not a dict"))
  }
}
