/**
 * A JSON value (RFC 8259) as Python's `json.loads` hands it over, and the
 * Python operations the worker applies to it: `key in d`, `d[key]`,
 * `isinstance(v, dict)`, `type(v)` and `repr(v)`; plus the exceptions those
 * operations raise, each with the text `str(e)` gives.
 */
module Json {
  import opened Wrappers
  import opened Text

  /**
   * `Float` keeps Python's `repr` of the float; `Object` is a `dict`: its
   * entries in insertion order (a Python dict never holds a key twice).
   */
  datatype Json =
    | Null
    | Bool(b: bool)
    | Int(i: int)
    | Float(repr: string)
    | Str(s: string)
    | Array(items: seq<Json>)
    | Object(members: seq<(string, Json)>)

  type Dict = seq<(string, Json)>

  /** A Python exception, by the type the code can raise and what `str(e)` shows. */
  datatype Fault =
    | JsonDecodeError(message: string)
    | KeyError(key: string)
    | TypeError(message: string)
    | ValueError(message: string)
    | Exception(message: string)

  /** `str(e)`; a `KeyError` shows the `repr` of the missing key. */
  function StrOf(f: Fault): string {
    match f
    case KeyError(k) => StrRepr(k)
    case JsonDecodeError(m) => m
    case TypeError(m) => m
    case ValueError(m) => m
    case Exception(m) => m
  }

  /** `d.get(key)`: the value stored under `key`, if any. */
  function Get(d: Dict, key: string): (r: Option<Json>)
    ensures r.Some? <==> exists i :: 0 <= i < |d| && d[i].0 == key
    ensures r.Some? ==> exists i :: 0 <= i < |d| && d[i] == (key, r.value)
  {
    if d == [] then None
    else if d[0].0 == key then Some(d[0].1)
    else
      var r := Get(d[1..], key);
      assert forall i :: 0 < i < |d| ==> d[1..][i - 1] == d[i];
      r
  }

  /** `key in d`. */
  predicate HasKey(d: Dict, key: string) {
    Get(d, key).Some?
  }

  /** `isinstance(v, dict) and key in v`: `v` is a dict holding `key`. */
  predicate ObjectHas(v: Json, key: string) {
    v.Object? && HasKey(v.members, key)
  }

  /** `type(v).__name__`. */
  function TypeName(v: Json): string {
    match v
    case Null => "NoneType"
    case Bool(_) => "bool"
    case Int(_) => "int"
    case Float(_) => "float"
    case Str(_) => "str"
    case Array(_) => "list"
    case Object(_) => "dict"
  }

  /**
   * `v[key]` for a string key, with the exception CPython 3.11 raises:
   * `KeyError` for a dict without the key, `TypeError` for anything else.
   */
  function Subscript(v: Json, key: string): (r: Result<Json, Fault>)
    ensures r.Success? <==> ObjectHas(v, key)
    ensures r.Success? ==> Get(v.members, key) == Some(r.value)
    ensures v.Object? && r.Failure? ==> r.error == KeyError(key)
  {
    match v
    case Object(d) =>
      (match Get(d, key)
       case Some(x) => Success(x)
       case None => Failure(KeyError(key)))
    case Str(_) => Failure(TypeError("string indices must be integers, not 'str'"))
    case Array(_) => Failure(TypeError("list indices must be integers or slices, not str"))
    case _ => Failure(TypeError("'" + TypeName(v) + "' object is not subscriptable"))
  }

  /** `repr(v)`, which is also what an f-string shows for a dict or a list. */
  function Repr(v: Json): (r: string)
    ensures v.Object? ==> |r| >= 2 && r[0] == '{' && r[|r| - 1] == '}'
    ensures v.Array? ==> |r| >= 2 && r[0] == '[' && r[|r| - 1] == ']'
    ensures v.Str? ==> |r| >= 2 && r[0] == r[|r| - 1] && (r[0] == '\'' || r[0] == '"')
    ensures v.Str? ==> r == StrRepr(v.s)
    ensures v.Null? ==> r == "None"
    ensures v.Bool? ==> r == (if v.b then "True" else "False")
    ensures v.Int? ==> r == IntToString(v.i) && ParseInt(r) == Success(v.i)
    ensures v.Float? ==> r == v.repr
  {
    match v
    case Null => "None"
    case Bool(b) => if b then "True" else "False"
    case Int(i) => ParseIntOfIntToString(i); IntToString(i)
    case Float(r) => r
    case Str(s) => StrRepr(s)
    case Array(items) =>
      "[" + Join(", ", seq(|items|, i requires 0 <= i < |items| => Repr(items[i]))) + "]"
    case Object(d) =>
      "{" + Join(", ", seq(|d|, i requires 0 <= i < |d| => StrRepr(d[i].0) + ": " + Repr(d[i].1))) + "}"
  }
}
