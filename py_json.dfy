/** Decoded JSON values and the few pieces of Python dictionary, string and
    exception behaviour that the service code relies on. */
module PyJson {

  /** A value as Python's `json` module decodes it (floating-point numbers are
      not modelled). A Python `None` is `JNull`. */
  datatype Json =
    | JNull
    | JBool(b: bool)
    | JNum(n: int)
    | JStr(s: string)
    | JArr(items: seq<Json>)
    | JObj(fields: map<string, Json>)

  /** A Python dict with string keys, as the service builds and returns them. */
  type Dict = map<string, Json>

  /** The Python exceptions the modelled code can raise or catch. */
  datatype PyError =
    | ValueError(msg: string)
    | TypeError(msg: string)
    | AttributeError(msg: string)
    | KeyError(key: Json)
    /** `requests.exceptions.RequestException`, including the JSON decoding
        error that `Response.json()` raises. */
    | RequestError(msg: string)
    /** `ValueError(f"Invalid action: {action}")` of the step-function dispatcher. */
    | InvalidAction(action: Json)
    /** `KeyError(slice(start, stop, None))`: a dict indexed with a slice. Slices
        are hashable from Python 3.12 on, so the lookup misses instead of
        failing to hash. */
    | SliceKeyError(start: Option<int>, stop: Option<int>)

  /** The outcome of a Python expression that may raise. */
  datatype Py<+T> = Ok(value: T) | Raise(error: PyError) {
    predicate IsFailure() { Raise? }
    function PropagateFailure<U>(): Py<U> requires Raise? { Raise(error) }
    function Extract(): T requires Ok? { value }
  }

  datatype Option<+T> = None | Some(value: T)

  /** Python truthiness (`if x:` / `not x`). */
  predicate Truthy(j: Json) {
    match j
    case JNull => false
    case JBool(b) => b
    case JNum(n) => n != 0
    case JStr(s) => s != ""
    case JArr(a) => a != []
    case JObj(m) => m != map[]
  }

  /** `str(e)` for the exceptions whose text the service copies into results. */
  function Describe(e: PyError): string {
    match e
    case ValueError(m) => m
    case TypeError(m) => m
    case AttributeError(m) => m
    case KeyError(k) => if k.JStr? then "'" + k.s + "'" else Show(k)
    case RequestError(m) => m
    case InvalidAction(a) => "Invalid action: " + Show(a)
    case SliceKeyError(start, stop) => "slice(" + ShowBound(start) + ", " + ShowBound(stop) + ", None)"
  }

  /** One bound of a slice's `repr`. */
  function ShowBound(b: Option<int>): string {
    match b
    case None => "None"
    case Some(n) => IntToString(n)
  }

  /** The exception of `v[:stop]` (or `v[start:]`) on a value that is neither
      a string nor a list, or `None` when `v` can be sliced. */
  function SliceFailure(v: Json, start: Option<int>, stop: Option<int>): (r: Option<PyError>)
    ensures r.None? <==> v.JStr? || v.JArr?
    ensures v.JObj? ==> r == Some(SliceKeyError(start, stop))
  {
    match v
    case JStr(_) => None
    case JArr(_) => None
    case JObj(_) => Some(SliceKeyError(start, stop))
    case _ => Some(TypeError("'" + TypeName(v) + "' object is not subscriptable"))
  }

  /** `str(j)` for scalar values; containers print as their type name because
      the key order of a decoded dict is not part of this model. */
  function Show(j: Json): string {
    match j
    case JNull => "None"
    case JBool(b) => if b then "True" else "False"
    case JNum(n) => IntToString(n)
    case JStr(s) => s
    case JArr(_) => "<list>"
    case JObj(_) => "<dict>"
  }

  function DigitsOf(n: nat): (r: string)
    ensures |r| >= 1
    decreases n
  {
    var d := ['0', '1', '2', '3', '4', '5', '6', '7', '8', '9'][n % 10];
    if n < 10 then [d] else DigitsOf(n / 10) + [d]
  }

  function IntToString(n: int): string {
    if n < 0 then "-" + DigitsOf(-n) else DigitsOf(n)
  }

  /** The name Python reports for the type of a value. */
  function TypeName(j: Json): string {
    match j
    case JNull => "NoneType"
    case JBool(_) => "bool"
    case JNum(_) => "int"
    case JStr(_) => "str"
    case JArr(_) => "list"
    case JObj(_) => "dict"
  }

  function NoAttribute(j: Json, attr: string): PyError {
    AttributeError("'" + TypeName(j) + "' object has no attribute '" + attr + "'")
  }

  /** `d.get(key, default)` on a dict. */
  function Get(d: Dict, key: string, default: Json): (r: Json)
    ensures key in d ==> r == d[key]
    ensures key !in d ==> r == default
  {
    if key in d then d[key] else default
  }

  /** `d.get(key)`: `None` when the key is absent. */
  function GetOpt(d: Dict, key: string): Json {
    Get(d, key, JNull)
  }

  /** `j.get(key, default)` on a value of any type: only a dict has `get`. */
  function GetAt(j: Json, key: string, default: Json): (r: Py<Json>)
    ensures r.Ok? <==> j.JObj?
    ensures j.JObj? ==> r.value == Get(j.fields, key, default)
  {
    match j
    case JObj(m) => Ok(Get(m, key, default))
    case _ => Raise(NoAttribute(j, "get"))
  }

  /** The elements a `for x in j:` loop hands to a body whose first use of `x`
      is `x.get(...)`. A list yields its elements. An empty string or dict
      yields nothing. A non-empty string or dict yields strings, on which that
      first `.get` raises; the raise is reported here. Any other value is not
      iterable. */
  function Elements(j: Json): Py<seq<Json>> {
    match j
    case JArr(a) => Ok(a)
    case JStr(s) => if s == "" then Ok([]) else Raise(NoAttribute(JStr(""), "get"))
    case JObj(m) => if m == map[] then Ok([]) else Raise(NoAttribute(JStr(""), "get"))
    case _ => Raise(TypeError("'" + TypeName(j) + "' object is not iterable"))
  }

  /** `len(v)` for a decoded value. */
  function PyLen(v: Json): Py<nat> {
    match v
    case JArr(a) => Ok(|a|)
    case JStr(s) => Ok(|s|)
    case JObj(m) => Ok(|m|)
    case _ => Raise(TypeError("object of type '" + TypeName(v) + "' has no len()"))
  }

  /** `v[0]` for a decoded value whose length is positive. */
  function First(v: Json): Py<Json> {
    match v
    case JArr(a) => if a != [] then Ok(a[0]) else Raise(KeyError(JNum(0)))
    case JStr(s) => if s != "" then Ok(JStr([s[0]])) else Raise(KeyError(JNum(0)))
    case _ => Raise(KeyError(JNum(0)))
  }

  /** `s.startswith(p)`. */
  predicate StartsWith(s: string, p: string) {
    |p| <= |s| && s[..|p|] == p
  }

  /** `sub in s` for strings. */
  predicate ContainsStr(s: string, sub: string)
    decreases |s|
  {
    StartsWith(s, sub) || (s != [] && ContainsStr(s[1..], sub))
  }

  function LowerChar(c: char): char {
    if 'A' <= c <= 'Z' then (c as int + 32) as char else c
  }

  /** `s.lower()` restricted to ASCII letters. */
  function Lower(s: string): (r: string)
    ensures |r| == |s|
    ensures forall i :: 0 <= i < |s| ==> r[i] == LowerChar(s[i])
  {
    seq(|s|, i requires 0 <= i < |s| => LowerChar(s[i]))
  }

  /** `x + 1` where `x` is a decoded JSON value; `True + 1 == 2` in Python. */
  function PlusOne(j: Json): (r: Py<Json>)
    ensures j.JNum? ==> r == Ok(JNum(j.n + 1))
    ensures r.Ok? <==> j.JNum? || j.JBool?
  {
    match j
    case JNum(n) => Ok(JNum(n + 1))
    case JBool(b) => Ok(JNum(if b then 2 else 1))
    case JStr(_) => Raise(TypeError("can only concatenate str (not \"int\") to str"))
    case JArr(_) => Raise(TypeError("can only concatenate list (not \"int\") to list"))
    case _ => Raise(TypeError("unsupported operand type(s) for +: '" + TypeName(j) + "' and 'int'"))
  }
}
