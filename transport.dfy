/**
 * The transport: the server's per-request decision (verb check, decode, dispatch,
 * encode, and the 500 fallback), body accumulation from a chunk stream, and the
 * client side `sendRequest`. Sockets, headers and URL parsing are not modelled:
 * the incoming stream and the network are inputs.
 */
module Transport {
  import opened Wrappers
  import opened Values
  import opened Envelope

  /** The status and body written to the HTTP response. */
  datatype Reply = Reply(status: int, body: string)

  /** The caller-supplied `onRequest`: the response for a decoded request, or a rejection. */
  type Dispatch = Value -> Result<Response, Thrown>

  /**
   * What the server callback does for one request: the reply it writes, or the error
   * that escapes it (no reply is written then), and the values `onRequest` was called with.
   */
  datatype Handled = Handled(outcome: Result<Reply, Thrown>, dispatched: seq<Value>)

  const MethodNotAllowed := Obj(map["error" := Str("Method not allowed")])

  /** The envelope sent when any step after the verb check fails. */
  function Fallback(): Response
  {
    CreateErrorResponse("unknown", 500, "Internal server error", Undefined)
  }

  /** The `try` block of a POST: decode, dispatch once, encode. */
  function Attempt(fmt: TextFormat, body: Result<string, Thrown>, dispatch: Dispatch): (Result<string, Thrown>, seq<Value>)
  {
    match body
    case Failure(t) => (Failure(t), [])
    case Success(text) =>
      match Deserialize(fmt, text)
      case Failure(e) => (Failure(Raised(e)), [])
      case Success(request) =>
        match dispatch(request)
        case Failure(t) => (Failure(t), [request])
        case Success(response) =>
          match Serialize(fmt, ResponseValue(response))
          case Failure(e) => (Failure(Raised(e)), [request])
          case Success(encoded) => (Success(encoded), [request])
  }

  /** The server callback for a request with HTTP method `verb`; `body` is how reading the body settled. */
  function Serve(fmt: TextFormat, verb: string, body: Result<string, Thrown>, dispatch: Dispatch): (h: Handled)
    // dispatch runs at most once, only on POST, and only on the decoded body
    ensures |h.dispatched| <= 1
    ensures h.dispatched != [] ==>
      verb == "POST" && body.Success? && Deserialize(fmt, body.value) == Success(h.dispatched[0])
    ensures h.outcome.Success? ==> h.outcome.value.status in {200, 405, 500}
  {
    if verb == "OPTIONS" then Handled(Success(Reply(200, "")), [])
    else if verb != "POST" then
      match fmt.stringify(MethodNotAllowed)
      case Success(text) => Handled(Success(Reply(405, text)), [])
      case Failure(e) => Handled(Failure(Raised(e)), [])
    else
      var (attempt, dispatched) := Attempt(fmt, body, dispatch);
      match attempt
      case Success(encoded) => Handled(Success(Reply(200, encoded)), dispatched)
      case Failure(_) =>
        match Serialize(fmt, ResponseValue(Fallback()))
        case Success(text) => Handled(Success(Reply(500, text)), dispatched)
        case Failure(e) => Handled(Failure(Raised(e)), dispatched)
  }

  /** A pre-flight request gets 200 with an empty body; nothing is read or dispatched. */
  lemma PreflightAnswered(fmt: TextFormat, body: Result<string, Thrown>, dispatch: Dispatch)
    ensures Serve(fmt, "OPTIONS", body, dispatch) == Handled(Success(Reply(200, "")), [])
  {
  }

  /**
   * Any other verb but POST gets 405 with the encoded `{ error: "Method not allowed" }`,
   * nothing is dispatched, and that body is not an envelope: decoding it fails for want of an id.
   */
  lemma OtherVerbRefused(fmt: TextFormat, verb: string, body: Result<string, Thrown>, dispatch: Dispatch)
    requires Lawful(fmt) && verb != "OPTIONS" && verb != "POST"
    ensures var h := Serve(fmt, verb, body, dispatch);
      h.dispatched == [] && h.outcome.Success? && h.outcome.value.status == 405
      && fmt.parse(h.outcome.value.body) == Success(MethodNotAllowed)
      && Deserialize(fmt, h.outcome.value.body) == Failure(DeserializationError(MissingId))
  {
    assert fmt.stringify(MethodNotAllowed).Success?;
    assert Strip(MethodNotAllowed).fields == MethodNotAllowed.fields;
    assert !HasId(MethodNotAllowed);
  }

  /** A POST whose body decodes and whose dispatch and encoding succeed gets 200 with the encoded response. */
  lemma PostAnswered(fmt: TextFormat, text: string, dispatch: Dispatch)
    requires Deserialize(fmt, text).Success?
    requires dispatch(Deserialize(fmt, text).value).Success?
    requires Serialize(fmt, ResponseValue(dispatch(Deserialize(fmt, text).value).value)).Success?
    ensures Serve(fmt, "POST", Success(text), dispatch) == Handled(
      Success(Reply(200, Serialize(fmt, ResponseValue(dispatch(Deserialize(fmt, text).value).value)).value)),
      [Deserialize(fmt, text).value])
  {
  }

  /**
   * When reading, decoding, dispatch or encoding fails, the reply is 500 with the fallback
   * envelope, which decodes to `{ id: "unknown", error: { code: 500, message } }`.
   */
  lemma PostFailed(fmt: TextFormat, body: Result<string, Thrown>, dispatch: Dispatch)
    requires Lawful(fmt) && Attempt(fmt, body, dispatch).0.Failure?
    ensures var h := Serve(fmt, "POST", body, dispatch);
      h.outcome.Success? && h.outcome.value.status == 500
      && h.outcome.value.body == Serialize(fmt, ResponseValue(Fallback())).value
      && Deserialize(fmt, h.outcome.value.body) == Success(Obj(map[
           "id" := Str("unknown"),
           "error" := Obj(map["code" := Num(500), "message" := Str("Internal server error")])]))
  {
    ErrorResponseRoundTrip(fmt, "unknown", 500, "Internal server error");
  }

  /**
   * Server side of a round trip: a POST carrying an encoded request is decoded to that
   * request, dispatched once, and answered with text that decodes to the response.
   */
  lemma ServedRoundTrip(fmt: TextFormat, request: Request, dispatch: Dispatch, response: Response)
    requires Lawful(fmt) && request.id != "" && IsJson(request.params) && response.id != ""
    requires dispatch(RequestValue(request)) == Success(response)
    ensures Serialize(fmt, RequestValue(request)).Success?
    ensures var h := Serve(fmt, "POST", Success(Serialize(fmt, RequestValue(request)).value), dispatch);
      h.dispatched == [RequestValue(request)] && h.outcome.Success? && h.outcome.value.status == 200
      && Deserialize(fmt, h.outcome.value.body) == Success(Strip(ResponseValue(response)))
  {
    RequestRoundTrip(fmt, request.id, request.methodName, request.params);
    ResponseRoundTrip(fmt, response);
  }

  // ----- reading a request body -----

  /** One event of an incoming stream. */
  datatype BodyEvent = Data(chunk: string) | End | StreamError(error: Thrown)

  /** How a promise turned out: still pending, resolved, or rejected. */
  datatype Settlement<T> = Pending | Resolved(value: T) | Rejected(reason: Thrown)

  function Concat(chunks: seq<string>): string
  {
    if chunks == [] then "" else chunks[0] + Concat(chunks[1..])
  }

  lemma {:induction false} ConcatAppend(a: seq<string>, b: seq<string>)
    ensures Concat(a + b) == Concat(a) + Concat(b)
  {
    if a == [] {
      assert a + b == b;
    } else {
      assert (a + b)[1..] == a[1..] + b;
      ConcatAppend(a[1..], b);
    }
  }

  /** The position of the first event that is not data (`|events|` if there is none). */
  function FirstSignal(events: seq<BodyEvent>): (k: nat)
    ensures k <= |events|
    ensures forall j :: 0 <= j < k ==> events[j].Data?
    ensures k < |events| ==> !events[k].Data?
  {
    if events == [] || !events[0].Data? then 0 else 1 + FirstSignal(events[1..])
  }

  function Chunks(events: seq<BodyEvent>): seq<string>
    requires forall j :: 0 <= j < |events| ==> events[j].Data?
  {
    seq(|events|, j requires 0 <= j < |events| => events[j].chunk)
  }

  /**
   * How `readBody` settles: the first `end` resolves with the data chunks before it
   * joined in arrival order, the first `error` rejects, and with neither it stays pending.
   */
  function BodyOutcome(events: seq<BodyEvent>): Settlement<string>
  {
    var k := FirstSignal(events);
    if k == |events| then Pending
    else if events[k].End? then Resolved(Concat(Chunks(events[..k])))
    else Rejected(events[k].error)
  }

  method ReadBody(events: seq<BodyEvent>) returns (r: Settlement<string>)
    ensures r == BodyOutcome(events)
  {
    var body := "";
    var i := 0;
    while i < |events|
      invariant i <= FirstSignal(events)
      invariant body == Concat(Chunks(events[..i]))
    {
      match events[i] {
        case Data(chunk) =>
          assert Chunks(events[..i + 1]) == Chunks(events[..i]) + [chunk];
          ConcatAppend(Chunks(events[..i]), [chunk]);
          body := body + chunk;
          i := i + 1;
        case End =>
          return Resolved(body);
        case StreamError(e) =>
          return Rejected(e);
      }
    }
    return Pending;
  }

  /**
   * The whole callback: the body is read only for a POST; while that read is pending
   * no reply is written (`None`).
   */
  method OnRequest(fmt: TextFormat, verb: string, events: seq<BodyEvent>, dispatch: Dispatch) returns (h: Option<Handled>)
    ensures verb != "POST" ==> h.Some? && forall body :: h.value == Serve(fmt, verb, body, dispatch)
    ensures verb == "POST" ==> h == match BodyOutcome(events)
      case Pending => None
      case Resolved(text) => Some(Serve(fmt, verb, Success(text), dispatch))
      case Rejected(e) => Some(Serve(fmt, verb, Failure(e), dispatch))
  {
    if verb != "POST" {
      // the body is never read, so what it would have been does not matter
      return Some(Serve(fmt, verb, Success(""), dispatch));
    }
    var read := ReadBody(events);
    match read {
      case Pending => h := None;
      case Resolved(text) => h := Some(Serve(fmt, verb, Success(text), dispatch));
      case Rejected(e) => h := Some(Serve(fmt, verb, Failure(e), dispatch));
    }
  }

  // ----- sending a request -----

  /** Bytes of a character in UTF-8 (what `Buffer.byteLength` counts). */
  function Utf8Width(c: char): nat
  {
    if c as int < 0x80 then 1 else if c as int < 0x800 then 2 else if c as int < 0x10000 then 3 else 4
  }

  function Utf8Length(s: string): nat
  {
    if s == "" then 0 else Utf8Width(s[0]) + Utf8Length(s[1..])
  }

  /** Between one and four bytes per character, and exactly one each for ASCII text. */
  lemma {:induction false} Utf8LengthBounds(s: string)
    ensures |s| <= Utf8Length(s) <= 4 * |s|
    ensures (forall i :: 0 <= i < |s| ==> s[i] as int < 0x80) ==> Utf8Length(s) == |s|
  {
    if s != "" {
      Utf8LengthBounds(s[1..]);
    }
  }

  /** The options `sendRequest` hands to `http.request` (host, port and path stand for the url). */
  datatype RequestOptions = RequestOptions(url: string, verb: string, contentLength: nat)

  /** What was written to the network: the options and the body. */
  datatype Outgoing = Outgoing(options: RequestOptions, body: string)

  /** What the network did with a request: an `error` event, or a response with its data chunks up to `end`. */
  datatype Exchange = NetworkError(error: Thrown) | Answered(status: int, chunks: seq<string>)

  type Network = Outgoing -> Exchange

  function PostOptions(url: string, body: string): RequestOptions
  {
    RequestOptions(url, "POST", Utf8Length(body))
  }

  const ParsePrefix := "Failed to parse response: "

  /** How the promise of `sendRequest` settles once the network has answered. */
  function Settle(fmt: TextFormat, exchange: Exchange): Result<Value, Thrown>
  {
    match exchange
    case NetworkError(e) => Failure(e)
    case Answered(_, chunks) =>
      match Deserialize(fmt, Concat(chunks))
      case Success(response) => Success(response)
      case Failure(e) => Failure(Raised(JsError("Error", ParsePrefix + Show(e))))
  }

  method SendRequest(fmt: TextFormat, url: string, request: Request, network: Network) returns (sent: Option<Outgoing>, r: Result<Value, Thrown>)
    ensures Serialize(fmt, RequestValue(request)).Failure? ==>
      sent.None? && r == Failure(Raised(Serialize(fmt, RequestValue(request)).error))
    ensures Serialize(fmt, RequestValue(request)).Success? ==>
      var body := Serialize(fmt, RequestValue(request)).value;
      sent == Some(Outgoing(PostOptions(url, body), body)) && r == Settle(fmt, network(sent.value))
  {
    var encoded := Serialize(fmt, RequestValue(request));
    if encoded.Failure? {
      return None, Failure(Raised(encoded.error));
    }
    var body := encoded.value;
    var outgoing := Outgoing(RequestOptions(url, "POST", Utf8Length(body)), body);
    sent := Some(outgoing);
    var exchange := network(outgoing);
    if exchange.NetworkError? {
      return sent, Failure(exchange.error);
    }
    var chunks := exchange.chunks;
    var responseBody := "";
    var i := 0;
    while i < |chunks|
      invariant i <= |chunks|
      invariant responseBody == Concat(chunks[..i])
    {
      assert chunks[..i + 1] == chunks[..i] + [chunks[i]];
      ConcatAppend(chunks[..i], [chunks[i]]);
      responseBody := responseBody + chunks[i];
      i := i + 1;
    }
    assert chunks[..i] == chunks;
    var decoded := Deserialize(fmt, responseBody);
    match decoded {
      case Success(response) => r := Success(response);
      case Failure(e) => r := Failure(Raised(JsError("Error", ParsePrefix + Show(e))));
    }
  }

  /** The status code of the answer is never looked at. */
  lemma StatusIgnored(fmt: TextFormat, s1: int, s2: int, chunks: seq<string>)
    ensures Settle(fmt, Answered(s1, chunks)) == Settle(fmt, Answered(s2, chunks))
  {
  }

  /** A body that does not decode rejects with "Failed to parse response: " and the decoder's error. */
  lemma UndecodableAnswer(fmt: TextFormat, status: int, chunks: seq<string>)
    requires Deserialize(fmt, Concat(chunks)).Failure?
    ensures var r := Settle(fmt, Answered(status, chunks));
      r.Failure? && r.error.Raised? && r.error.error.name == "Error"
      && StartsWith(r.error.error.message, ParsePrefix)
  {
    var m := ParsePrefix + Show(Deserialize(fmt, Concat(chunks)).error);
    assert m[..|ParsePrefix|] == ParsePrefix;
  }

  /**
   * Client and server together: the request `sendRequest` writes, answered by the server
   * in whatever chunks, resolves with the dispatched response, undefined parts stripped.
   */
  lemma RoundTripOverTransport(fmt: TextFormat, request: Request, dispatch: Dispatch, response: Response,
                               status: int, chunks: seq<string>)
    requires Lawful(fmt) && request.id != "" && IsJson(request.params) && response.id != ""
    requires dispatch(RequestValue(request)) == Success(response)
    requires Serialize(fmt, RequestValue(request)).Success?
    requires var h := Serve(fmt, "POST", Success(Serialize(fmt, RequestValue(request)).value), dispatch);
      h.outcome.Success? && Concat(chunks) == h.outcome.value.body
    ensures Settle(fmt, Answered(status, chunks)) == Success(Strip(ResponseValue(response)))
  {
    ServedRoundTrip(fmt, request, dispatch, response);
  }

  /** When dispatch fails, the client receives the fallback envelope: id "unknown", code 500. */
  lemma FailureOverTransport(fmt: TextFormat, text: string, dispatch: Dispatch, status: int, chunks: seq<string>)
    requires Lawful(fmt) && Deserialize(fmt, text).Success? && dispatch(Deserialize(fmt, text).value).Failure?
    requires var h := Serve(fmt, "POST", Success(text), dispatch);
      h.outcome.Success? && Concat(chunks) == h.outcome.value.body
    ensures var r := Settle(fmt, Answered(status, chunks));
      r.Success? && Get(r.value, "id") == Str("unknown") && Get(Get(r.value, "error"), "code") == Num(500)
  {
    PostFailed(fmt, Success(text), dispatch);
  }
}
