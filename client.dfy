/**
 * The client proxy: one callable per declared method, each of which validates its
 * input locally, sends a request through the transport and unwraps the response.
 */
module Client {
  import opened Wrappers
  import opened Values
  import opened Envelope
  import opened Procedures

  /** The closure `createClient` stores under `methodName`: what it captured. */
  datatype Callable = Callable(url: string, methodName: string, schema: Schema)

  /** `RPCTransport.sendRequest(url, request)`: the decoded response, or the rejection. */
  type Sender = (string, Request) -> Result<Value, Thrown>

  /** Fills the client object with one callable per entry of the declarations. */
  method CreateClient(url: string, procedures: map<string, Schema>) returns (client: map<string, Callable>)
    ensures client.Keys == procedures.Keys
    ensures forall m :: m in client ==> client[m] == Callable(url, m, procedures[m])
  {
    client := map[];
    var pending := procedures.Keys;
    while pending != {}
      invariant pending <= procedures.Keys
      invariant client.Keys == procedures.Keys - pending
      invariant forall m :: m in client ==> client[m] == Callable(url, m, procedures[m])
      decreases |pending|
    {
      var m :| m in pending;
      client := client[m := Callable(url, m, procedures[m])];
      pending := pending - {m};
    }
  }

  /** The message of `new Error(x)`: empty for `undefined`, otherwise `String(x)`. */
  function ErrorText(message: Value): string
  {
    if message.Undefined? then "" else ToJsString(message)
  }

  /** `if (res.error) throw new Error(res.error.message); return res.result`. */
  function Unwrap(res: Value): (r: Result<Value, Thrown>)
    // a null or undefined answer throws a TypeError when its `error` is read
    ensures res.Undefined? || res.Null? ==> r.Failure? && r.error.Raised? && r.error.error.name == "TypeError"
    // it resolves exactly when the answer has no truthy error, and then with its result ...
    ensures r.Success? <==> !res.Undefined? && !res.Null? && !Truthy(Get(res, "error"))
    ensures r.Success? ==> r.value == Get(res, "result")
    // ... and a truthy error raises a plain Error carrying the error's message
    ensures !res.Undefined? && !res.Null? && Truthy(Get(res, "error")) ==>
      r == Failure(Raised(JsError("Error", ErrorText(Get(Get(res, "error"), "message")))))
  {
    match ReadProperty(res, "error")
    case Failure(e) => Failure(Raised(e))
    case Success(error) =>
      if Truthy(error) then Failure(Raised(JsError("Error", ErrorText(Get(error, "message")))))
      else Success(Get(res, "result"))
  }

  /** What the callable does once the transport has settled. */
  function Received(sent: Result<Value, Thrown>): Result<Value, Thrown>
  {
    match sent
    case Failure(t) => Failure(t)
    case Success(res) => Unwrap(res)
  }

  /** One call of a generated callable; `id` is what `generateId()` returned for it. */
  function CallRemote(c: Callable, input: Value, id: string, send: Sender): (r: Result<Value, Thrown>)
    // input the schema rejects fails with the schema's error
    ensures c.schema(input).Failure? ==> r == Failure(Invalid(c.schema(input).error))
    // a call resolves only when the input validated and the envelope of the validated input,
    // sent to the callable's url, came back without a truthy error; it resolves with the result
    ensures r.Success? ==>
      c.schema(input).Success? &&
      var answer := send(c.url, CreateRequest(id, c.methodName, c.schema(input).value));
      answer.Success? && answer.value != Undefined && answer.value != Null &&
      !Truthy(Get(answer.value, "error")) && r.value == Get(answer.value, "result")
  {
    match c.schema(input)
    case Failure(issues) => Failure(Invalid(issues))
    case Success(validated) => Received(send(c.url, CreateRequest(id, c.methodName, validated)))
  }

  /** Invalid input fails with the schema's error and never reaches the transport. */
  lemma RejectedInputNotSent(c: Callable, input: Value, id: string, send: Sender)
    requires c.schema(input).Failure?
    ensures CallRemote(c, input, id, send) == Failure(Invalid(c.schema(input).error))
  {
  }

  /** Valid input is sent once, to the captured url, as `{ id, method: the key, params: the validated input }`. */
  lemma ValidInputSent(c: Callable, input: Value, id: string, send: Sender)
    requires c.schema(input).Success?
    ensures CallRemote(c, input, id, send)
      == Received(send(c.url, Request(id, c.methodName, c.schema(input).value)))
  {
  }

  /** A response carrying an error object fails with that object's message. */
  lemma ErrorEnvelopeRaises(res: Value, message: string)
    requires res.Obj? && "error" in res.fields && res.fields["error"].Obj?
    requires Get(res.fields["error"], "message") == Str(message)
    ensures Unwrap(res) == Failure(Raised(JsError("Error", message)))
  {
  }

  /** A response without a truthy error returns its result (undefined when it has none). */
  lemma ResultUnwrapped(res: Value)
    requires res.Obj? && !Truthy(Get(res, "error"))
    ensures Unwrap(res) == Success(Get(res, "result"))
  {
  }

  /** The two constructed envelopes: a success response is unwrapped, an error response raises its message. */
  lemma ConstructedEnvelopes(id: string, result: Value, code: int, message: string, data: Value)
    ensures Unwrap(ResponseValue(CreateResponse(id, result))) == Success(result)
    ensures Unwrap(ResponseValue(CreateErrorResponse(id, code, message, data)))
      == Failure(Raised(JsError("Error", message)))
  {
    ResultUnwrapped(ResponseValue(CreateResponse(id, result)));
    var bad := ResponseValue(CreateErrorResponse(id, code, message, data));
    ErrorEnvelopeRaises(bad, message);
  }

  /** The response id is never compared with the request id: replacing it changes nothing. */
  lemma ResponseIdIgnored(fields: map<string, Value>, id1: Value, id2: Value)
    ensures Unwrap(Obj(fields["id" := id1])) == Unwrap(Obj(fields["id" := id2]))
  {
    assert Get(Obj(fields["id" := id1]), "error") == Get(Obj(fields["id" := id2]), "error");
    assert Get(Obj(fields["id" := id1]), "result") == Get(Obj(fields["id" := id2]), "result");
  }
}
