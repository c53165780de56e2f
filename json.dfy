/** JSON values as the gateway sees them after `response.json()` or request-body
    parsing, with the few pieces of Python semantics the gateway leans on:
    truthiness, `dict.get` with a default, `str()` inside f-strings, and the
    exceptions that escape from them. */
module Json {
  import opened Wrappers

  /** A float is carried as mantissa * 10^exponent; the model never does
      arithmetic on it. */
  datatype Json =
    | JNull
    | JBool(b: bool)
    | JInt(i: int)
    | JFloat(mantissa: int, exponent: int)
    | JStr(s: string)
    | JArr(items: seq<Json>)
    | JObj(fields: map<string, Json>)

  /** Python truthiness of the decoded value (`if x:` / `not x`). */
  predicate Truthy(j: Json) {
    match j
    case JNull => false
    case JBool(b) => b
    case JInt(i) => i != 0
    case JFloat(m, _) => m != 0
    case JStr(s) => s != ""
    case JArr(items) => items != []
    case JObj(fields) => fields != map[]
  }

  /** The kinds of exception that can escape from the gateway's calls. */
  datatype ExceptionKind =
    | HttpStatusError   // httpx `raise_for_status` on a non-2xx status
    | TransportError    // connection failure, timeout
    | AttributeError    // `.get` on something that is not a dict
    | TypeError         // iterating something that is not iterable
    | ValidationError   // a pydantic model refused its input

  datatype Exception = Exception(kind: ExceptionKind, message: string)

  /** What `.get` on a value that is not a dict raises. */
  const NoAttributeGet: Exception := Exception(AttributeError, "object has no attribute 'get'")

  /** `x.get(key, default)`: raises AttributeError unless `x` is a dict. */
  function DictGet(x: Json, key: string, default: Json): (r: Result<Json, Exception>)
    ensures r.Ok? <==> x.JObj?
    ensures r.Err? ==> r.error.kind == AttributeError
    ensures x.JObj? && key in x.fields ==> r == Ok(x.fields[key])
    ensures x.JObj? && key !in x.fields ==> r == Ok(default)
  {
    match x
    case JObj(fields) => Ok(if key in fields then fields[key] else default)
    case _ => Err(NoAttributeGet)
  }

  /** `m.get(key, default)` on a dict the model already holds as a map. */
  function Lookup(m: map<string, Json>, key: string, default: Json): Json {
    if key in m then m[key] else default
  }

  function DigitChar(d: nat): char
    requires d < 10
  {
    "0123456789"[d]
  }

  function NatToString(n: nat): (s: string)
    ensures |s| > 0
    ensures forall k :: 0 <= k < |s| ==> '0' <= s[k] <= '9'
  {
    if n < 10 then [DigitChar(n)] else NatToString(n / 10) + [DigitChar(n % 10)]
  }

  function IntToString(i: int): string {
    if i < 0 then "-" + NatToString(-i) else NatToString(i)
  }

  /** `str(x)` for the value inside an f-string. Exact for strings, None,
      booleans and integers; floats, lists and dicts get a fixed rendering. */
  function Display(j: Json): string {
    match j
    case JNull => "None"
    case JBool(b) => if b then "True" else "False"
    case JInt(i) => IntToString(i)
    case JFloat(m, e) => IntToString(m) + "e" + IntToString(e)
    case JStr(s) => s
    case JArr(_) => "[...]"
    case JObj(_) => "{...}"
  }

  /** A list of strings as a JSON array. */
  function StrArray(xs: seq<string>): (r: Json)
    ensures r.JArr? && |r.items| == |xs|
    ensures forall k :: 0 <= k < |xs| ==> r.items[k] == JStr(xs[k])
  {
    JArr(seq(|xs|, k requires 0 <= k < |xs| => JStr(xs[k])))
  }

  /** Every element of a JSON array is a string. */
  predicate AllStrings(items: seq<Json>) {
    forall k :: 0 <= k < |items| ==> items[k].JStr?
  }

  /** The strings of an array whose elements are all strings. */
  function Strings(items: seq<Json>): (r: seq<string>)
    requires AllStrings(items)
    ensures |r| == |items|
    ensures forall k :: 0 <= k < |items| ==> items[k] == JStr(r[k])
  {
    seq(|items|, k requires 0 <= k < |items| => items[k].s)
  }
}
