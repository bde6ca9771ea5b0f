/**
 * The JavaScript values that travel through the RPC stack: what `JSON.parse`
 * produces, plus `undefined`, which object literals may hold (an omitted
 * optional argument) but the JSON text format cannot carry.
 */
module Values {
  import opened Wrappers

  /** A JavaScript value. Numbers are modelled as integers. */
  datatype Value =
    | Undefined
    | Null
    | Bool(b: bool)
    | Num(n: int)
    | Str(s: string)
    | Arr(items: seq<Value>)
    | Obj(fields: map<string, Value>)

  /** JavaScript truthiness: `undefined`, `null`, `false`, `0` and `""` are falsy. */
  predicate Truthy(v: Value)
  {
    match v
    case Undefined => false
    case Null => false
    case Bool(b) => b
    case Num(n) => n != 0
    case Str(s) => s != ""
    case Arr(_) => true
    case Obj(_) => true
  }

  /** `v[key]` on a receiver that is neither null nor undefined: absent keys read as undefined. */
  function Get(v: Value, key: string): Value
  {
    if v.Obj? && key in v.fields then v.fields[key] else Undefined
  }

  /** An `Error` object: its `name` ("Error", "TypeError", "SyntaxError", ...) and its `message`. */
  datatype JsError = JsError(name: string, message: string)

  /** The text `${e}` gives for an Error object (Error.prototype.toString). */
  function Show(e: JsError): (r: string)
    ensures e.name != "" && e.message != "" ==> r == e.name + ": " + e.message
    ensures e.message == "" ==> r == e.name
    ensures e.name == "" ==> r == e.message
  {
    if e.name == "" then e.message
    else if e.message == "" then e.name
    else e.name + ": " + e.message
  }

  /** `v[key]` in general: reading a property of null or undefined throws a TypeError. */
  function ReadProperty(v: Value, key: string): (r: Result<Value, JsError>)
    ensures r.Failure? <==> v == Undefined || v == Null
    ensures r.Failure? ==> r.error.name == "TypeError"
    ensures r.Success? ==> r.value == Get(v, key)
  {
    match v
    case Undefined => Failure(JsError("TypeError", "Cannot read properties of undefined (reading '" + key + "')"))
    case Null => Failure(JsError("TypeError", "Cannot read properties of null (reading '" + key + "')"))
    case _ => Success(Get(v, key))
  }

  /** What a rejected promise or a `throw` carries. */
  datatype Thrown =
    | Raised(error: JsError)       // an Error instance
    | Invalid(issues: Value)       // a schema's validation error, with its list of issues
    | ThrownValue(value: Value)    // a plain value thrown as is

  /** Decimal digits of a natural number. */
  function NatToString(n: nat): (r: string)
    ensures |r| >= 1
    ensures forall i :: 0 <= i < |r| ==> '0' <= r[i] <= '9'
  {
    var d := ['0' + (n % 10) as char];
    if n < 10 then d else NatToString(n / 10) + d
  }

  function IntToString(n: int): string
  {
    if n < 0 then "-" + NatToString(-n) else NatToString(n)
  }

  function JoinComma(parts: seq<string>): string
  {
    if |parts| == 0 then ""
    else if |parts| == 1 then parts[0]
    else parts[0] + "," + JoinComma(parts[1..])
  }

  /** `String(v)`: the string conversion used by `new Error(v)` and template literals. */
  function ToJsString(v: Value): string
  {
    match v
    case Undefined => "undefined"
    case Null => "null"
    case Bool(b) => if b then "true" else "false"
    case Num(n) => IntToString(n)
    case Str(s) => s
    case Arr(xs) =>
      // Array.prototype.join writes null and undefined elements as empty strings
      JoinComma(seq(|xs|, i requires 0 <= i < |xs| =>
        if xs[i].Undefined? || xs[i].Null? then "" else ToJsString(xs[i])))
    case Obj(_) => "[object Object]"
  }

  /** A value the JSON text format can carry unchanged: no `undefined` anywhere inside. */
  predicate IsJson(v: Value)
  {
    match v
    case Undefined => false
    case Arr(xs) => forall i :: 0 <= i < |xs| ==> IsJson(xs[i])
    case Obj(m) => forall k :: k in m ==> IsJson(m[k])
    case _ => true
  }

  /**
   * What `JSON.parse(JSON.stringify(v))` gives back for an object `v`: keys holding
   * `undefined` are dropped and `undefined` array elements become `null`.
   */
  function Strip(v: Value): Value
  {
    match v
    case Undefined => Null
    case Arr(xs) => Arr(seq(|xs|, i requires 0 <= i < |xs| => Strip(xs[i])))
    case Obj(m) => Obj(map k | k in m && m[k] != Undefined :: Strip(m[k]))
    case _ => v
  }

  /** Stripping leaves JSON values alone. */
  lemma {:induction false} StripKeepsJson(v: Value)
    requires IsJson(v)
    ensures Strip(v) == v
  {
    match v
    case Arr(xs) =>
      forall i | 0 <= i < |xs| ensures Strip(xs[i]) == xs[i] { StripKeepsJson(xs[i]); }
    case Obj(m) =>
      forall k | k in m ensures Strip(m[k]) == m[k] { StripKeepsJson(m[k]); }
      assert Strip(v).fields == m;
    case _ =>
  }

  /** Stripping always yields a JSON value, so a second round through the text format changes nothing. */
  lemma {:induction false} StripIsJson(v: Value)
    ensures IsJson(Strip(v))
    ensures Strip(Strip(v)) == Strip(v)
  {
    match v {
      case Arr(xs) =>
        forall i | 0 <= i < |xs| ensures IsJson(Strip(xs[i])) { StripIsJson(xs[i]); }
      case Obj(m) =>
        forall k | k in m && m[k] != Undefined ensures IsJson(Strip(m[k])) { StripIsJson(m[k]); }
      case _ =>
    }
    StripKeepsJson(Strip(v));
  }
}
