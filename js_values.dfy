/// JavaScript values as the restore handler sees them: what JSON.parse (and
/// the JSON body parser in front of the handler) can produce, plus `undefined`.

module JsValues {

  datatype Option<+T> = None | Some(value: T)

  /** A value JSON.parse can return. Objects are maps: JSON.parse keeps the
      last of duplicated keys, so a parsed object has one value per key. */
  datatype Json =
    | Null
    | Bool(b: bool)
    | Num(n: real)
    | Str(s: string)
    | Arr(items: seq<Json>)
    | Obj(fields: map<string, Json>)

  /** A JavaScript value read out of parsed JSON: `None` is `undefined`. */
  type Value = Option<Json>

  /** JavaScript truthiness: `undefined`, `null`, `false`, `0` and `""` are
      falsy; every array and every object, even an empty one, is truthy. */
  predicate Truthy(v: Value) {
    match v
    case None => false
    case Some(j) =>
      match j
      case Null => false
      case Bool(b) => b
      case Num(n) => n != 0.0
      case Str(s) => s != ""
      case Arr(_) => true
      case Obj(_) => true
  }

  /** Converting `j` to a string (as a template literal does) throws a
      TypeError. A parsed object converts through its `toString`: the
      inherited one gives "[object Object]", but an own `toString` key holds
      a value that cannot be called, and the inherited `valueOf` then yields
      the object itself, which is no primitive. An array converts by joining
      the strings of its elements, so it throws when any element does.
      Every other JSON value converts without throwing. */
  predicate ToStringThrows(j: Json) {
    match j
    case Obj(fields) => "toString" in fields
    case Arr(items) => exists k :: 0 <= k < |items| && ToStringThrows(items[k])
    case _ => false
  }

  /** `undefined` or `null`: the values at which `?.` stops and `.` throws. */
  predicate Nullish(v: Value) {
    v.None? || v.value.Null?
  }

  /** `a || b` */
  function Or(a: Value, b: Value): (r: Value)
    ensures Truthy(r) <==> Truthy(a) || Truthy(b)
    ensures Truthy(a) ==> r == a
    ensures !Truthy(a) ==> r == b
  {
    if Truthy(a) then a else b
  }

  /** The property names the handler reads. None of them is an array index,
      `length`, or a property that Object, Array or String prototypes define,
      so on anything but an object they read as `undefined`. */
  const NamedKeys: set<string> :=
    {"imageBase64", "mode", "output", "choices", "message", "content", "image"}

  /** `j.key` for a `j` that is neither `undefined` nor `null`. */
  function Member(j: Json, key: string): Value
    requires key in NamedKeys
  {
    if j.Obj? && key in j.fields then Some(j.fields[key]) else None
  }

  /** `v?.key`: `undefined` when `v` is nullish, `v.key` otherwise. */
  function OptMember(v: Value, key: string): Value
    requires key in NamedKeys
  {
    if Nullish(v) then None else Member(v.value, key)
  }

  /** `j[0]` for a `j` that is not `null`: the first element of an array, the
      first character of a string (as a string of its own; every use below
      only reads named properties of it, which a string does not have), or
      the property named "0" of an object. */
  function First(j: Json): Value
    requires !j.Null?
  {
    match j
    case Arr(items) => if |items| > 0 then Some(items[0]) else None
    case Str(s) => if |s| > 0 then Some(Str([s[0]])) else None
    case Obj(fields) => if "0" in fields then Some(fields["0"]) else None
    case _ => None
  }
}
