/**
 * Decoded JSON values and Python dictionaries, the material every envelope is made of.
 */
module Json {
  import opened PyText

  datatype Json =
    | Null
    | Bool(b: bool)
    | Int(i: int)
    | Float(r: real)
    | Str(s: string)
    | Arr(items: seq<Json>)
    | Obj(fields: map<string, Json>)

  /** A Python `dict` with string keys; envelopes and request bodies are dicts. */
  type Dict = map<string, Json>

  /** Python truthiness of a decoded value. */
  predicate Truthy(j: Json) {
    match j
    case Null => false
    case Bool(b) => b
    case Int(i) => i != 0
    case Float(r) => r != 0.0
    case Str(s) => s != ""
    case Arr(items) => items != []
    case Obj(fields) => fields != map[]
  }

  /** `d.get(key, default)`. */
  function GetOr(d: Dict, key: string, default: Json): Json {
    if key in d then d[key] else default
  }

  /** `d.get(key)`. */
  function Get(d: Dict, key: string): Json {
    GetOr(d, key, Null)
  }

  /** Python's name for the type of a decoded value. */
  function TypeName(j: Json): string {
    match j
    case Null => "NoneType"
    case Bool(_) => "bool"
    case Int(_) => "int"
    case Float(_) => "float"
    case Str(_) => "str"
    case Arr(_) => "list"
    case Obj(_) => "dict"
  }

  /** The message of the AttributeError raised by `x.get(...)` on a non-dict `x`. */
  function NoGetMessage(j: Json): string {
    "'" + TypeName(j) + "' object has no attribute 'get'"
  }

  /** Python's `str()` of floats, lists and dicts (their repr text), which this model does not spell out. */
  type Render = Json -> string

  /** `str(j)`: exact for None, booleans, ints and strings; `render` for the rest. */
  function PyStr(j: Json, render: Render): string {
    match j
    case Null => "None"
    case Bool(b) => if b then "True" else "False"
    case Int(i) => DecimalString(i)
    case Str(s) => s
    case _ => render(j)
  }

  /** A sequence of Python strings as a JSON list. */
  function Strs(ss: seq<string>): (r: Json)
    ensures r.Arr? && |r.items| == |ss|
    ensures forall i :: 0 <= i < |ss| ==> r.items[i] == Str(ss[i])
  {
    Arr(seq(|ss|, i requires 0 <= i < |ss| => Str(ss[i])))
  }

  /** `if value: d[key] = value`, the idiom every request builder uses for optional fields. */
  function PutIfTruthy(d: Dict, key: string, value: Json): (r: Dict)
    ensures key in r <==> key in d || Truthy(value)
    ensures Truthy(value) ==> r[key] == value
    ensures !Truthy(value) ==> r == d
    ensures r - {key} == d - {key}
  {
    if Truthy(value) then d[key := value] else d
  }

  /** Copies every truthy entry of `extra` over `d`; falsy entries leave `d` as it was.
      This is the "include the argument only if it is set" idiom of the tools. */
  function WithTruthy(d: Dict, extra: Dict): (r: Dict)
    ensures forall k :: k in extra ==> (k in r <==> k in d || Truthy(extra[k]))
    ensures forall k :: k in extra && Truthy(extra[k]) ==> r[k] == extra[k]
    ensures forall k :: k in d && (k !in extra || !Truthy(extra[k])) ==> k in r && r[k] == d[k]
    ensures r.Keys <= d.Keys + extra.Keys
  {
    d + map k | k in extra && Truthy(extra[k]) :: extra[k]
  }

  /** Every item of a list is a dict, so calling `.get` on each item cannot raise. */
  predicate AllObjects(items: seq<Json>) {
    forall i :: 0 <= i < |items| ==> items[i].Obj?
  }

  /** The exception `for x in j: x.get(...)` raises for a truthy `j` that is not a list:
      iterating a dict or a string yields strings, which have no `get`; other values
      are not iterable. */
  function IterationError(j: Json): string {
    if j.Obj? || j.Str? then "AttributeError" else "TypeError"
  }
}
