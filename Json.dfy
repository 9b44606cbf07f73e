/**
 * JSON values as the bridge sees them after `json.loads`, with the handful of
 * Python operations the code applies to them: `dict.get`, truthiness, `str()`
 * and `json.dumps`.
 */
module Json {
  import opened Wrappers
  import opened Strings

  /** Numbers are integers; an object keeps its keys in insertion order, as a Python dict does. */
  datatype Json =
    | Null
    | Bool(b: bool)
    | Num(n: int)
    | Str(s: string)
    | Arr(items: seq<Json>)
    | Obj(fields: seq<(string, Json)>)

  /** The empty object `{}`, the default of many `.get` calls. */
  const Empty: Json := Obj([])

  /** The value bound to `key`; with duplicate keys the last binding wins, as in `json.loads`. */
  function Lookup(fields: seq<(string, Json)>, key: string): (r: Option<Json>)
    ensures r.Some? <==> exists i :: 0 <= i < |fields| && fields[i].0 == key
    ensures r.Some? ==> (key, r.value) in fields
  {
    if fields == [] then None
    else if fields[|fields| - 1].0 == key then Some(fields[|fields| - 1].1)
    else Lookup(fields[..|fields| - 1], key)
  }

  /** A key bound exactly once is found at its binding. */
  lemma {:induction false} LookupSingle(fields: seq<(string, Json)>, i: nat)
    requires i < |fields|
    requires forall j | 0 <= j < |fields| && j != i :: fields[j].0 != fields[i].0
    ensures Lookup(fields, fields[i].0) == Some(fields[i].1)
  {
    var n := |fields| - 1;
    if i < n {
      var prefix := fields[..n];
      assert prefix[i] == fields[i];
      LookupSingle(prefix, i);
    }
  }

  /** `j.get(key)`; a value that is not an object has no keys. */
  function Get(j: Json, key: string): Option<Json>
  {
    match j
    case Obj(fields) => Lookup(fields, key)
    case _ => None
  }

  /** `key in j`. */
  predicate Has(j: Json, key: string)
  {
    Get(j, key).Some?
  }

  /** `j.get(key, default)`. */
  function GetOr(j: Json, key: string, default: Json): Json
  {
    Get(j, key).GetOr(default)
  }

  /** `j.get(key)`, where a missing key reads as `None`. */
  function GetOrNull(j: Json, key: string): Json
  {
    GetOr(j, key, Null)
  }

  /** Python truthiness: `None`, `False`, `0`, `""`, `[]` and `{}` are false. */
  predicate Truthy(j: Json)
  {
    match j
    case Null => false
    case Bool(b) => b
    case Num(n) => n != 0
    case Str(s) => s != ""
    case Arr(items) => items != []
    case Obj(fields) => fields != []
  }

  /** Python's `a or b`: `a` when it is truthy, `b` otherwise. */
  function Or(a: Json, b: Json): (r: Json)
    ensures Truthy(a) ==> r == a
    ensures !Truthy(a) ==> r == b
  {
    if Truthy(a) then a else b
  }

  /** `json.dumps(j)` with the default separators; string escaping is not modelled. */
  function Dumps(j: Json): string
    decreases j
  {
    match j
    case Null => "null"
    case Bool(b) => if b then "true" else "false"
    case Num(n) => IntToDecimal(n)
    case Str(s) => "\"" + s + "\""
    case Arr(items) =>
      "[" + Join(", ", seq(|items|, i requires 0 <= i < |items| => Dumps(items[i]))) + "]"
    case Obj(fields) =>
      "{" + Join(", ", seq(|fields|, i requires 0 <= i < |fields| =>
                         assert fields[i] in fields;
                         "\"" + fields[i].0 + "\": " + Dumps(fields[i].1))) + "}"
  }

  /** `repr(j)` of the Python value, as it appears inside `str()` of a list or dict. */
  function Repr(j: Json): string
    decreases j
  {
    match j
    case Null => "None"
    case Bool(b) => if b then "True" else "False"
    case Num(n) => IntToDecimal(n)
    case Str(s) => "'" + s + "'"
    case Arr(items) =>
      "[" + Join(", ", seq(|items|, i requires 0 <= i < |items| => Repr(items[i]))) + "]"
    case Obj(fields) =>
      "{" + Join(", ", seq(|fields|, i requires 0 <= i < |fields| =>
                         assert fields[i] in fields;
                         "'" + fields[i].0 + "': " + Repr(fields[i].1))) + "}"
  }

  /** Python's `str(j)`: a string is itself, anything else its repr. */
  function Show(j: Json): (s: string)
    ensures j.Str? ==> s == j.s
    ensures j.Num? ==> s == IntToDecimal(j.n)
  {
    if j.Str? then j.s else Repr(j)
  }
}
