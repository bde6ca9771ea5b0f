# A verified model of a tiny RPC stack

This project models, in Dafny, the reference solutions of a small remote-procedure-call
framework written in TypeScript: the envelope codec (`serialize`, `deserialize` and the three
record constructors), the fluent procedure builder and its `call`, the router (`add`, `handle`),
the client proxy (`createClient` and the callables it generates) and the decision logic of the
HTTP transport (the server callback, `readBody`, `sendRequest`).

Modules, one per source file plus two shared ones:

- `Wrappers` (wrappers.dfy): `Option`, and `Result` for anything that may throw or reject.
- `Values` (values.dfy): JavaScript values (`undefined`, `null`, booleans, numbers, strings,
  arrays, objects), truthiness, property reads (reading a property of `null` throws a
  TypeError), `Error` objects and their `${error}` text, and `Strip`, which models what
  `JSON.stringify` does to `undefined` (object keys holding it vanish, array items become `null`).
- `Envelope` (envelope.dfy): the request/response records of `src/types/rpc.ts`, their wire
  objects, the constructors, `Serialize`/`Deserialize` over an abstract text format, and the
  round-trip lemmas.
- `Procedures` (procedure.dfy): the draft as a class with `kind`, `schema` and `handler`
  fields; `Call` is proved equal to the function `Invoke`, about which the lemmas speak.
- `Routing` (router.dfy): the router as a class holding a `map<string, Procedure>` of object
  references, so a procedure changed after registration is seen by `Handle`, as in the source.
- `Client` (client.dfy): `CreateClient` fills a map with one `Callable` per declared method;
  `CallRemote` is one call of such a callable.
- `Transport` (transport.dfy): `Serve`, the server callback's decision on (verb, body, dispatch),
  which also records the values dispatch was called with; `ReadBody` and `SendRequest`, which
  accumulate chunks in loops; and lemmas joining client and server.

The JSON text grammar is not modelled. A `TextFormat` is a pair of functions `stringify`/`parse`,
each able to fail with an Error; the lemmas that need it assume `Lawful(fmt)`: every object
stringifies, and parsing the text gives the object back with its `undefined` parts stripped.
The ids from `generateId`, the incoming body stream, the dispatch function, the transport used
by the client and the network used by `sendRequest` are parameters.

The transport, router and client import the serializer and transport of `src/core/`, which are
not part of this model; the model takes them to behave as the solutions shown in
workshop/solutions/01-serializer and workshop/solutions/02-transport.

Points where a natural reading of the code differs from what it does; the model follows what it does:

- A message is rejected when its `id` is falsy, not only when it is missing, as the error text
  "missing id" (serializer.ts:16) might suggest. An empty-string id
  is rejected, so the round trip of a constructed request holds exactly when its id is non-empty
  (`Envelope.RequestRoundTrip` proves both directions).
- The round trip is deep equality only up to `undefined`: an error response built without
  `data` holds the key `data` with value `undefined`, and it comes back without that key
  (`Envelope.ErrorResponseRoundTrip`). The repository's tests compare with Jest's `toEqual`,
  which ignores keys holding `undefined`.
- The procedure draft is never frozen: `input`, `query` and `mutation` may be called again after
  a handler is set, and they change the same shared draft.

## Model

| member | source | states |
|---|---|---|
| `Values.ReadProperty` | workshop/solutions/01-serializer/serializer.ts:15 | reading a property of `null` or `undefined` throws a TypeError; anything else reads the own key, `undefined` when absent |
| `Values.Show` | workshop/solutions/01-serializer/serializer.ts:20 | `${error}` for an Error is `name: message`, just the name when the message is empty, and just the message when the name is empty |
| `Envelope.CreateRequest` | workshop/solutions/01-serializer/serializer.ts:24-26 | the wire object has exactly the keys id, method and params, holding the three arguments unchanged |
| `Envelope.CreateResponse` | workshop/solutions/01-serializer/serializer.ts:28-30 | the response is well formed, carries the id, its object has exactly the keys id and result (result holds the argument), and `error` reads as undefined |
| `Envelope.CreateErrorResponse` | workshop/solutions/01-serializer/serializer.ts:32-34 | the response is well formed, carries the id, its object has exactly the keys id and error, error is `{code, message, data}` with the arguments, and `result` reads as undefined |
| `Envelope.Serialize` | workshop/solutions/01-serializer/serializer.ts:4-10 | succeeds exactly when stringify does, with its text; a failure is rethrown as an Error whose message is "Serialization failed: " followed by the cause's text |
| `Envelope.Deserialize` | workshop/solutions/01-serializer/serializer.ts:12-22 | succeeds exactly when the text parses to a value whose `id` reads truthy, and then returns the parsed value unchanged; every failure is an Error whose message starts "Deserialization failed: "; a parse failure wraps the parser's error; any parsed value but null or undefined (`JSON.parse` never yields undefined) without a truthy id gives the missing-id failure; a parsed null gives the wrapped TypeError of reading its id |
| `Envelope.MissingIdMessage` | workshop/solutions/01-serializer/serializer.ts:15-20 | the missing-id failure's message is "Deserialization failed: Error: Invalid RPC message: missing id", ending in "Invalid RPC message: missing id" |
| `Envelope.EncodeDecode` | workshop/solutions/01-serializer/serializer.ts:4-22 | for an object whose id is a non-empty string, serializing succeeds and deserializing the text gives the object back with its undefined parts stripped |
| `Envelope.EncodeEmptyIdRejected` | workshop/solutions/01-serializer/serializer.ts:15-17 | for an object whose id is the empty string, deserializing its serialization fails with the missing-id error |
| `Envelope.RequestRoundTrip` | tests/serializer.spec.ts:39-44 | a constructed request with JSON params serializes, and deserializing it gives the same request object back if and only if its id is non-empty |
| `Envelope.ResponseRoundTrip` | workshop/solutions/01-serializer/serializer.ts:4-22 | any response with a non-empty id serializes and deserializes to its stripped wire object |
| `Envelope.SuccessResponseRoundTrip` | workshop/solutions/01-serializer/serializer.ts:28-30 | a success response with a JSON result and non-empty id round-trips exactly |
| `Envelope.ErrorResponseRoundTrip` | workshop/solutions/01-serializer/serializer.ts:32-34 | an error response built without data comes back as `{id, error: {code, message}}`, without a data key |
| `Procedures.Procedure.constructor` | workshop/solutions/03-procedure/procedure.ts:13-14 | a fresh draft is a query with no schema and no handler |
| `Procedures.Procedure.Input` | workshop/solutions/03-procedure/procedure.ts:17-20 | sets the schema, leaves kind and handler as they were, returns the same handle |
| `Procedures.Procedure.Query` | workshop/solutions/03-procedure/procedure.ts:21-25 | sets kind query and the handler (replacing any earlier one), leaves the schema, returns the same handle |
| `Procedures.Procedure.Mutation` | workshop/solutions/03-procedure/procedure.ts:26-30 | sets kind mutation and the handler (replacing any earlier one), leaves the schema, returns the same handle |
| `Procedures.Procedure.Call` | workshop/solutions/03-procedure/procedure.ts:31-45 | settles as `Invoke` of the current draft; it has no modifies clause, so kind, schema and handler are unchanged |
| `Procedures.InvalidInputRejected` | workshop/solutions/03-procedure/procedure.ts:33-39 | when the schema rejects the input, the call fails with `{code: 400, message: "Validation failed", data: issues}`, whatever the handler, and also when there is none |
| `Procedures.ValidInputReachesHandler` | workshop/solutions/03-procedure/procedure.ts:33-44 | when the schema accepts, the handler gets the parsed input and the same ctx, and the call settles exactly as the handler does (its errors are not turned into 400s) |
| `Procedures.UncheckedInputReachesHandler` | workshop/solutions/03-procedure/procedure.ts:41-44 | without a schema, the handler gets the raw input |
| `Procedures.MissingHandler` | workshop/solutions/03-procedure/procedure.ts:41-43 | input that passes validation, with no handler set, fails with "Handler not defined" |
| `Procedures.KindIgnored` | workshop/solutions/03-procedure/procedure.ts:31-45 | the kind does not affect the call |
| `Routing.Route` | workshop/solutions/04-router/router.ts:12-24 | every response echoes the request id and has exactly one of result and error |
| `Routing.UnknownMethod` | workshop/solutions/04-router/router.ts:14-17 | an unregistered method gives error `{404, "Unknown method: " + method}` and no result |
| `Routing.SuccessfulCall` | workshop/solutions/04-router/router.ts:18-20 | the procedure is called with the request's params and the caller's ctx; its result is returned as `{id, result}` |
| `Routing.FailedCall` | workshop/solutions/04-router/router.ts:21-23 | any procedure failure gives the 500 "Internal server error" response with the request id |
| `Routing.RejectedParamsGive500` | workshop/solutions/04-router/router.ts:18-23 | params the procedure's schema rejects give code 500: the procedure's own 400 is discarded |
| `Routing.Router.constructor` | workshop/solutions/04-router/router.ts:5-6 | the table starts empty |
| `Routing.Router.Add` | workshop/solutions/04-router/router.ts:8-11 | the table afterwards maps the name to the procedure, every other entry is unchanged, and the router itself is returned |
| `Routing.Router.Handle` | workshop/solutions/04-router/router.ts:12-24 | the response is `Route` of the request and the current state of the procedure under its method; the id is echoed and the response well formed; it modifies nothing |
| `Client.CreateClient` | workshop/solutions/05-client/client.ts:11-29 | the client has one callable per declared method and no other, each bound to the url, its own key and its declared schema |
| `Client.CallRemote` | workshop/solutions/05-client/client.ts:17-25 | one call of a generated callable validates its input (a rejection fails with the schema's error), builds `{id, method, params}` from the validated input, sends it to the url, and resolves only with the result of an answer carrying no truthy error |
| `Client.Unwrap` | workshop/solutions/05-client/client.ts:21-24 | a null or undefined answer throws a TypeError; an answer with a truthy `error` raises an Error with that error's message; otherwise the call resolves with the answer's `result`, and exactly then |
| `Client.RejectedInputNotSent` | workshop/solutions/05-client/client.ts:18 | input the schema rejects fails with the schema's error, whatever the transport would do |
| `Client.ValidInputSent` | workshop/solutions/05-client/client.ts:18-20 | valid input is sent to the url as `{id, method: key, params: validated input}`, and the call settles as the transport's answer is unwrapped |
| `Client.ErrorEnvelopeRaises` | workshop/solutions/05-client/client.ts:21-23 | a response whose error object has message m fails with an Error whose message is m |
| `Client.ResultUnwrapped` | workshop/solutions/05-client/client.ts:24 | a response without a truthy error resolves with its result |
| `Client.ConstructedEnvelopes` | tests/client.spec.ts:13-42 | a constructed success response unwraps to its result; a constructed error response raises its message |
| `Client.ResponseIdIgnored` | workshop/solutions/05-client/client.ts:19-24 | replacing the response's id changes nothing: ids are never compared |
| `Transport.Serve` | workshop/solutions/02-transport/transport.ts:8-37 | dispatch runs at most once, only for POST, and only on the decoded body; any reply has status 200, 405 or 500 |
| `Transport.PreflightAnswered` | workshop/solutions/02-transport/transport.ts:13-17 | OPTIONS gets 200 with an empty body and no dispatch |
| `Transport.OtherVerbRefused` | workshop/solutions/02-transport/transport.ts:19-23 | any other verb but POST gets 405 with the encoded `{error: "Method not allowed"}`, no dispatch, and that body does not decode as an envelope |
| `Transport.PostAnswered` | workshop/solutions/02-transport/transport.ts:25-31 | a POST whose body decodes, whose dispatch and encoding succeed, gets 200 with the encoded response, after one dispatch of the decoded request |
| `Transport.PostFailed` | workshop/solutions/02-transport/transport.ts:32-36 | when reading, decoding, dispatch or encoding fails, the reply is 500 with the encoded `createErrorResponse('unknown', 500, 'Internal server error')`, which decodes to id "unknown" and code 500 |
| `Transport.ServedRoundTrip` | workshop/solutions/02-transport/transport.ts:25-31 | a POST carrying an encoded request dispatches exactly that request and answers 200 with text decoding to the dispatched response |
| `Transport.ConcatAppend` | workshop/solutions/02-transport/transport.ts:82-85 | joining chunks distributes over appending chunk sequences, which is what `body += chunk` builds on |
| `Transport.ReadBody` | workshop/solutions/02-transport/transport.ts:80-93 | the first end event resolves with the data chunks before it joined in arrival order, the first error event rejects, and with neither the promise stays pending |
| `Transport.OnRequest` | workshop/solutions/02-transport/transport.ts:13-36 | the body is read only for POST; while reading is pending no reply is written; otherwise the reply is `Serve` of the read outcome |
| `Transport.Utf8LengthBounds` | workshop/solutions/02-transport/transport.ts:52 | the Content-Length counts one to four bytes per character, exactly one for ASCII |
| `Transport.SendRequest` | workshop/solutions/02-transport/transport.ts:40-78 | a serialization failure rejects without sending; otherwise the serialized request is written once with POST and Content-Length its UTF-8 length, a network error rejects with that error, and an answer's chunks are joined and decoded |
| `Transport.StatusIgnored` | workshop/solutions/02-transport/transport.ts:56-68 | the status code of the answer never affects the outcome |
| `Transport.UndecodableAnswer` | workshop/solutions/02-transport/transport.ts:62-67 | an answer that does not decode rejects with an Error whose message starts "Failed to parse response: " |
| `Transport.RoundTripOverTransport` | tests/transport.spec.ts:17-34 | a request sent with `sendRequest` and served with a dispatch that answers it resolves, whatever the chunking, with the dispatched response (undefined parts stripped) |
| `Transport.FailureOverTransport` | tests/transport.spec.ts:59-73 | when dispatch fails, the client resolves with an envelope whose id is "unknown" and whose error code is 500 |

## Left out

- The JSON text grammar of `JSON.stringify`/`JSON.parse`: a foreign library, modelled as the abstract `TextFormat`; `Lawful` states the one property the model relies on.
- Floating-point numbers: numbers are integers, so NaN, -0, fractions and infinities (JSON writes the latter as `null`) are not modelled; `toJSON`, functions, symbols, BigInt and cyclic values cannot be expressed.
- Inherited and special properties: a property read sees the object's own keys only (`__proto__` and prototype members are not modelled).
- zod: a schema is an abstract function giving the parsed input or the issues list; the issues stand for what `e?.issues` reads from the thrown error.
- Real HTTP I/O: `http.createServer`, `http.request`, `listen`/`close`, the CORS and content-type headers (transport.ts:9-11, 20, 30, 34) and `URL` parsing with its port default (transport.ts:44-47), which the model replaces by passing the url on.
- Decoding of each `Buffer` chunk to text (a multi-byte character split across two chunks) and JavaScript strings being UTF-16: strings are sequences of Unicode scalar values.
- Promise and event ordering and concurrency between requests; in `ReadBody` events after the first end or error are ignored, as the settled promise ignores them.
- Transport.SendRequest: the network either reports one `error` event or delivers a complete answer; an `error` event on the response stream (which has no handler in the source) and a response that never ends are not modelled.
- `generateId` (client.ts:7-9) is random: each call's id is a parameter.
- `src/core/procedure.ts` is a stub whose methods all throw "Not implemented", and `src/types/rpc.ts` holds only types (used as the record datatypes).
- The demo scripts under `src/examples/`, the Jest configuration and the test files are not part of this model, except as the properties cited above.
