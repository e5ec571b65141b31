/** JSON-like values, as produced by `json.loads` and accepted by `json.dumps`. */
module Json {
  import opened Wrappers
  import opened Strings

  /** A floating-point number is kept as the decimal text Python prints for it
      (`str(x)`, which is also what `json.dumps` writes); it is never computed with. */
  datatype Json =
    | Null
    | Bool(b: bool)
    | Int(i: int)
    | Float(text: string)
    | Str(s: string)
    | Arr(items: seq<Json>)
    | Obj(fields: map<string, Json>)

  /** `d.get(key)` on a dictionary: the value if present. */
  function Get(fields: map<string, Json>, key: string): Option<Json> {
    if key in fields then Some(fields[key]) else None
  }

  /** `d.get(key, default)` on a dictionary. */
  function GetOr(fields: map<string, Json>, key: string, default: Json): (r: Json)
    ensures key in fields ==> r == fields[key]
    ensures key !in fields ==> r == default
  {
    if key in fields then fields[key] else default
  }

  /** The name Python gives the type of a decoded JSON value (`type(v).__name__`). */
  function TypeName(v: Json): string {
    match v
    case Null => "NoneType"
    case Bool(_) => "bool"
    case Int(_) => "int"
    case Float(_) => "float"
    case Str(_) => "str"
    case Arr(_) => "list"
    case Obj(_) => "dict"
  }

  /** The text of the `AttributeError` raised by `v.get(...)` when `v` is not a dictionary. */
  function NoGetMessage(v: Json): string {
    "'" + TypeName(v) + "' object has no attribute 'get'"
  }

  /** A `dict[str, str]` read out of a JSON object, or None when some value is not a string. */
  function AsStringMap(v: Json): (r: Option<map<string, string>>)
    ensures r.Some? <==> v.Obj? && forall k :: k in v.fields ==> v.fields[k].Str?
    ensures r.Some? ==> r.value.Keys == v.fields.Keys &&
                        forall k :: k in r.value ==> v.fields[k] == Str(r.value[k])
  {
    if v.Obj? && forall k :: k in v.fields ==> v.fields[k].Str? then
      Some(map k | k in v.fields :: v.fields[k].s)
    else
      None
  }

  /** The JSON object a `dict[str, str]` serializes to. */
  function FromStringMap(m: map<string, string>): (v: Json)
    ensures AsStringMap(v) == Some(m)
  {
    var v := Obj(map k | k in m :: Str(m[k]));
    assert v.fields.Keys == m.Keys;
    assert (map k | k in v.fields :: v.fields[k].s) == m;
    v
  }

  /** Python truthiness of a decoded value (`if v:`). */
  predicate Truthy(v: Json) {
    match v
    case Null => false
    case Bool(b) => b
    case Int(i) => i != 0
    case Float(t) => t != "0.0" && t != "-0.0"
    case Str(s) => s != ""
    case Arr(items) => items != []
    case Obj(fields) => fields != map[]
  }

  /** `v[key]` for a string key: only a dictionary holding the key answers;
      anything else raises (`KeyError`, `TypeError`), which is None. */
  function Field(v: Json, key: string): (r: Option<Json>)
    ensures r.Some? <==> v.Obj? && key in v.fields
    ensures r.Some? ==> r.value == v.fields[key]
  {
    if v.Obj? && key in v.fields then Some(v.fields[key]) else None
  }

  /** `v[0]` where the result is then subscripted by a string key: only a
      non-empty list gives a value that can be (the first character of a string
      cannot), so everything else is None. */
  function First(v: Json): (r: Option<Json>)
    ensures r.Some? <==> v.Arr? && v.items != []
    ensures r.Some? ==> r.value == v.items[0]
  {
    if v.Arr? && v.items != [] then Some(v.items[0]) else None
  }

  /** What an f-string shows for a value (`f"{v}"`, that is `str(v)`); lists and
      dictionaries are shown by `showContainer`, their text not being modelled. */
  function Display(v: Json, showContainer: Json -> string): (r: string)
    ensures v.Str? ==> r == v.s
    ensures v.Float? ==> r == v.text
  {
    match v
    case Null => "None"
    case Bool(b) => if b then "True" else "False"
    case Int(i) => IntToString(i)
    case Float(t) => t
    case Str(s) => s
    case Arr(_) => showContainer(v)
    case Obj(_) => showContainer(v)
  }
}
