/**
 * The wire envelope: request and response records, their three constructors,
 * and `serialize`/`deserialize` over an abstract JSON text format.
 */
module Envelope {
  import opened Wrappers
  import opened Values

  /** `{ id, method, params }`; `method` is a keyword here, hence `methodName`. */
  datatype Request = Request(id: string, methodName: string, params: Value)

  /** `{ code, message, data? }`; an omitted `data` is `Undefined`. */
  datatype ErrorInfo = ErrorInfo(code: int, message: string, data: Value)

  /** `{ id, result?, error? }`; the type alone allows both or neither. */
  datatype Response = Response(id: string, result: Option<Value>, error: Option<ErrorInfo>)

  /** Exactly one of `result` and `error` is present. */
  predicate WellFormed(r: Response)
  {
    r.result.Some? != r.error.Some?
  }

  /** The object a request record is. */
  function RequestValue(r: Request): Value
  {
    Obj(map["id" := Str(r.id), "method" := Str(r.methodName), "params" := r.params])
  }

  function ErrorValue(e: ErrorInfo): Value
  {
    Obj(map["code" := Num(e.code), "message" := Str(e.message), "data" := e.data])
  }

  /** The object a response record is: a key is present exactly when its field is. */
  function ResponseValue(r: Response): Value
  {
    var withResult := if r.result.Some? then map["id" := Str(r.id), "result" := r.result.value]
                      else map["id" := Str(r.id)];
    Obj(if r.error.Some? then withResult["error" := ErrorValue(r.error.value)] else withResult)
  }

  function CreateRequest(id: string, methodName: string, params: Value): (r: Request)
    ensures RequestValue(r).fields.Keys == {"id", "method", "params"}
    ensures Get(RequestValue(r), "id") == Str(id)
    ensures Get(RequestValue(r), "method") == Str(methodName)
    ensures Get(RequestValue(r), "params") == params
  {
    Request(id, methodName, params)
  }

  function CreateResponse(id: string, result: Value): (r: Response)
    ensures WellFormed(r) && r.id == id
    ensures ResponseValue(r).fields.Keys == {"id", "result"}
    ensures Get(ResponseValue(r), "result") == result
    ensures Get(ResponseValue(r), "error") == Undefined
  {
    Response(id, Some(result), None)
  }

  /** `data` is `Undefined` when the caller omits it. */
  function CreateErrorResponse(id: string, code: int, message: string, data: Value): (r: Response)
    ensures WellFormed(r) && r.id == id
    ensures ResponseValue(r).fields.Keys == {"id", "error"}
    ensures Get(ResponseValue(r), "error") == Obj(map["code" := Num(code), "message" := Str(message), "data" := data])
    ensures Get(ResponseValue(r), "result") == Undefined
  {
    Response(id, None, Some(ErrorInfo(code, message, data)))
  }

  /**
   * `JSON.stringify` and `JSON.parse`, whose text grammar is not modelled; each may
   * throw an Error (a TypeError for a value it cannot represent, a SyntaxError for bad text).
   */
  datatype TextFormat = TextFormat(stringify: Value -> Result<string, JsError>,
                                   parse: string -> Result<Value, JsError>)

  /**
   * What the model assumes of the text format: every object can be written, and
   * reading the text back gives the object with its `undefined` parts stripped.
   */
  ghost predicate Lawful(fmt: TextFormat)
  {
    forall v: Value :: v.Obj? ==>
      fmt.stringify(v).Success? && fmt.parse(fmt.stringify(v).value) == Success(Strip(v))
  }

  const SerializationPrefix := "Serialization failed: "
  const DeserializationPrefix := "Deserialization failed: "
  const MissingId := JsError("Error", "Invalid RPC message: missing id")

  function Serialize(fmt: TextFormat, data: Value): (r: Result<string, JsError>)
    ensures r.Success? <==> fmt.stringify(data).Success?
    ensures r.Success? ==> r.value == fmt.stringify(data).value
    ensures r.Failure? ==>
      r.error == JsError("Error", SerializationPrefix + Show(fmt.stringify(data).error))
  {
    match fmt.stringify(data)
    case Success(text) => Success(text)
    case Failure(e) => Failure(JsError("Error", SerializationPrefix + Show(e)))
  }

  /** The check `!parsed.id` passes: reading `id` does not throw and gives a truthy value. */
  predicate HasId(parsed: Value)
  {
    parsed != Undefined && parsed != Null && Truthy(Get(parsed, "id"))
  }

  predicate StartsWith(s: string, prefix: string)
  {
    |prefix| <= |s| && s[..|prefix|] == prefix
  }

  /** The Error `deserialize` rethrows for any failure `cause`. */
  function DeserializationError(cause: JsError): (e: JsError)
    ensures e.name == "Error" && StartsWith(e.message, DeserializationPrefix)
  {
    var m := DeserializationPrefix + Show(cause);
    assert m[..|DeserializationPrefix|] == DeserializationPrefix;
    JsError("Error", m)
  }

  function Deserialize(fmt: TextFormat, data: string): (r: Result<Value, JsError>)
    // accepted exactly when the text parses to something with a truthy id ...
    ensures r.Success? <==> fmt.parse(data).Success? && HasId(fmt.parse(data).value)
    // ... which is then returned as parsed, with no other validation
    ensures r.Success? ==> r.value == fmt.parse(data).value
    // every failure is an Error carrying the common prefix
    ensures r.Failure? ==> r.error.name == "Error" && StartsWith(r.error.message, DeserializationPrefix)
    ensures fmt.parse(data).Failure? ==> r == Failure(DeserializationError(fmt.parse(data).error))
    // any parsed value other than null lacking a truthy id gives the missing-id failure ...
    ensures (fmt.parse(data).Success? && !fmt.parse(data).value.Null? && !fmt.parse(data).value.Undefined?
             && !HasId(fmt.parse(data).value)) ==> r == Failure(DeserializationError(MissingId))
    // ... while on a parsed null, reading `id` itself throws
    ensures fmt.parse(data) == Success(Null) ==>
      r == Failure(DeserializationError(JsError("TypeError", "Cannot read properties of null (reading 'id')")))
  {
    assert "Cannot read properties of null (reading '" + "id" + "')" == "Cannot read properties of null (reading 'id')";
    match fmt.parse(data)
    case Failure(e) => Failure(DeserializationError(e))
    case Success(parsed) =>
      match ReadProperty(parsed, "id")
      case Failure(e) => Failure(DeserializationError(e))
      case Success(id) =>
        if !Truthy(id) then Failure(DeserializationError(MissingId)) else Success(parsed)
  }

  /**
   * The missing-id failure reads "Deserialization failed: Error: Invalid RPC message: missing id",
   * so it contains the inner message "Invalid RPC message: missing id".
   */
  lemma MissingIdMessage()
    ensures var m := DeserializationError(MissingId).message;
      m == DeserializationPrefix + "Error: " + "Invalid RPC message: missing id"
      && m[|m| - |MissingId.message|..] == "Invalid RPC message: missing id"
  {
    var m := DeserializationError(MissingId).message;
    assert Show(MissingId) == "Error" + ": " + "Invalid RPC message: missing id";
    assert m == DeserializationPrefix + ("Error" + ": " + "Invalid RPC message: missing id");
    assert "Error" + ": " == "Error: ";
  }

  /** Decoding what an object encodes to gives the stripped object back, provided its id is a non-empty string. */
  lemma EncodeDecode(fmt: TextFormat, v: Value, id: string)
    requires Lawful(fmt)
    requires v.Obj? && "id" in v.fields && v.fields["id"] == Str(id) && id != ""
    ensures Serialize(fmt, v).Success?
    ensures Deserialize(fmt, Serialize(fmt, v).value) == Success(Strip(v))
  {
    assert fmt.stringify(v).Success?;
    assert Get(Strip(v), "id") == Str(id);
  }

  /** Encoding an object whose id is empty always produces text that decodes to the missing-id failure. */
  lemma EncodeEmptyIdRejected(fmt: TextFormat, v: Value)
    requires Lawful(fmt)
    requires v.Obj? && "id" in v.fields && v.fields["id"] == Str("")
    ensures Serialize(fmt, v).Success?
    ensures Deserialize(fmt, Serialize(fmt, v).value) == Failure(DeserializationError(MissingId))
  {
    assert fmt.stringify(v).Success?;
    assert Get(Strip(v), "id") == Str("");
  }

  /** Round trip of constructed requests: it holds exactly when the id is non-empty. */
  lemma RequestRoundTrip(fmt: TextFormat, id: string, methodName: string, params: Value)
    requires Lawful(fmt) && IsJson(params)
    ensures Serialize(fmt, RequestValue(CreateRequest(id, methodName, params))).Success?
    ensures var text := Serialize(fmt, RequestValue(CreateRequest(id, methodName, params))).value;
      (Deserialize(fmt, text) == Success(RequestValue(CreateRequest(id, methodName, params)))) <==> id != ""
  {
    var v := RequestValue(CreateRequest(id, methodName, params));
    assert IsJson(v);
    StripKeepsJson(v);
    if id == "" {
      EncodeEmptyIdRejected(fmt, v);
    } else {
      EncodeDecode(fmt, v, id);
    }
  }

  /** Round trip of responses: undefined parts are stripped, everything else is restored. */
  lemma ResponseRoundTrip(fmt: TextFormat, resp: Response)
    requires Lawful(fmt) && resp.id != ""
    ensures Serialize(fmt, ResponseValue(resp)).Success?
    ensures Deserialize(fmt, Serialize(fmt, ResponseValue(resp)).value) == Success(Strip(ResponseValue(resp)))
  {
    EncodeDecode(fmt, ResponseValue(resp), resp.id);
  }

  /** A success response whose result is JSON round-trips exactly. */
  lemma SuccessResponseRoundTrip(fmt: TextFormat, id: string, result: Value)
    requires Lawful(fmt) && id != "" && IsJson(result)
    ensures var ok := ResponseValue(CreateResponse(id, result));
      Deserialize(fmt, Serialize(fmt, ok).value) == Success(ok)
  {
    var ok := ResponseValue(CreateResponse(id, result));
    assert IsJson(ok);
    StripKeepsJson(ok);
    ResponseRoundTrip(fmt, CreateResponse(id, result));
  }

  /** The wire object of an error response built without `data` has no `data` key once stripped. */
  lemma StrippedErrorResponse(id: string, code: int, message: string)
    ensures Strip(ResponseValue(CreateErrorResponse(id, code, message, Undefined)))
      == Obj(map["id" := Str(id), "error" := Obj(map["code" := Num(code), "message" := Str(message)])])
  {
    var inner := ErrorValue(ErrorInfo(code, message, Undefined));
    assert Strip(inner).fields == map["code" := Num(code), "message" := Str(message)];
    var bad := ResponseValue(CreateErrorResponse(id, code, message, Undefined));
    assert bad.fields == map["id" := Str(id), "error" := inner];
    assert Strip(bad).fields == map["id" := Str(id), "error" := Strip(inner)];
  }

  /** So an error response built without `data` comes back with no `data` key at all. */
  lemma ErrorResponseRoundTrip(fmt: TextFormat, id: string, code: int, message: string)
    requires Lawful(fmt) && id != ""
    ensures Deserialize(fmt, Serialize(fmt, ResponseValue(CreateErrorResponse(id, code, message, Undefined))).value)
      == Success(Obj(map["id" := Str(id), "error" := Obj(map["code" := Num(code), "message" := Str(message)])]))
  {
    ResponseRoundTrip(fmt, CreateErrorResponse(id, code, message, Undefined));
    StrippedErrorResponse(id, code, message);
  }
}
