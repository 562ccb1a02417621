/** Python values as the agent sees them: JSON documents decoded by json.loads,
    Python truthiness and type names, dict lookup, and the exceptions the core
    raises or catches. */
module PyValues {

  datatype Option<T> = None | Some(value: T)

  /** `datetime.weekday()`: Monday is 0 and Sunday is 6. */
  type Weekday = d: int | 0 <= d < 7

  /** A decoded JSON value. An object keeps its members in insertion order,
      as a Python dict does; `Get` finds the first member with a given key. */
  datatype Json =
    | JNull
    | JBool(b: bool)
    | JInt(n: int)
    | JStr(s: string)
    | JArr(items: seq<Json>)
    | JObj(fields: seq<(string, Json)>)

  /** The Python exceptions that are raised or caught in the modelled code,
      each with the text that `str(e)` gives. */
  datatype PyError =
    | ValueError(msg: string)
    | TypeError(msg: string)
    | IndexError(msg: string)
    | KeyError(msg: string)
    | AttributeError(msg: string)
    | FileNotFoundError(msg: string)
    | IsADirectoryError(msg: string)
    | OtherError(msg: string)

  datatype Result<T> = Ok(value: T) | Err(error: PyError) {
    predicate IsFailure() { Err? }

    function PropagateFailure<U>(): Result<U>
      requires Err?
    {
      Err(error)
    }

    function Extract(): T
      requires Ok?
    {
      value
    }
  }

  /** `bool(v)` in Python. */
  predicate Truthy(v: Json) {
    match v
    case JNull => false
    case JBool(b) => b
    case JInt(n) => n != 0
    case JStr(s) => s != ""
    case JArr(xs) => xs != []
    case JObj(fs) => fs != []
  }

  /** `type(v).__name__` in Python. */
  function TypeName(v: Json): string {
    match v
    case JNull => "NoneType"
    case JBool(_) => "bool"
    case JInt(_) => "int"
    case JStr(_) => "str"
    case JArr(_) => "list"
    case JObj(_) => "dict"
  }

  /** The message of the AttributeError raised by `v.attr` when `v` lacks it. */
  function NoAttribute(v: Json, attr: string): PyError {
    AttributeError("'" + TypeName(v) + "' object has no attribute '" + attr + "'")
  }

  predicate HasKey(fields: seq<(string, Json)>, k: string) {
    exists i :: 0 <= i < |fields| && fields[i].0 == k
  }

  /** `d.get(k)` on a dict given by its members: the value of the first member
      with key `k`, or None when no member has that key. */
  function Lookup(fields: seq<(string, Json)>, k: string): (r: Option<Json>)
    ensures r.Some? <==> HasKey(fields, k)
    ensures r.Some? ==> exists i :: 0 <= i < |fields| && fields[i] == (k, r.value)
  {
    if fields == [] then None
    else if fields[0].0 == k then Some(fields[0].1)
    else
      var r := Lookup(fields[1..], k);
      assert forall i :: 0 <= i < |fields| - 1 ==> fields[1..][i] == fields[i + 1];
      r
  }

  /** `d.get(k, default)` on a dict. */
  function GetOr(fields: seq<(string, Json)>, k: string, default: Json): Json {
    match Lookup(fields, k)
    case Some(v) => v
    case None => default
  }

  /** The keys of a dict, in insertion order. */
  function Keys(fields: seq<(string, Json)>): (ks: seq<string>)
    ensures |ks| == |fields|
    ensures forall i :: 0 <= i < |fields| ==> ks[i] == fields[i].0
  {
    if fields == [] then [] else [fields[0].0] + Keys(fields[1..])
  }
}
