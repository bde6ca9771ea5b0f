/**
 * The router: a table from method name to procedure, `add` to register one and
 * `handle` to dispatch a request to it and wrap the outcome as a response.
 */
module Routing {
  import opened Wrappers
  import opened Values
  import opened Envelope
  import opened Procedures

  const InternalError := "Internal server error"

  /** The response `handle` gives for `request`, given the state of the procedure found under its method, if any. */
  function Route(request: Request, found: Option<Definition>, ctx: Value): (resp: Response)
    ensures resp.id == request.id && WellFormed(resp)
  {
    match found
    case None => CreateErrorResponse(request.id, 404, "Unknown method: " + request.methodName, Undefined)
    case Some(def) =>
      match Invoke(def, request.params, ctx)
      case Success(result) => CreateResponse(request.id, result)
      case Failure(_) => CreateErrorResponse(request.id, 500, InternalError, Undefined)
  }

  /** An unregistered method gives a 404 naming the method, with the request's id. */
  lemma UnknownMethod(request: Request, ctx: Value)
    ensures Route(request, None, ctx).error == Some(ErrorInfo(404, "Unknown method: " + request.methodName, Undefined))
    ensures Route(request, None, ctx).result.None?
  {
  }

  /** A successful call is wrapped as `{ id, result }`; the procedure sees the request's params and the caller's ctx. */
  lemma SuccessfulCall(request: Request, def: Definition, ctx: Value)
    requires Invoke(def, request.params, ctx).Success?
    ensures Route(request, Some(def), ctx) == CreateResponse(request.id, Invoke(def, request.params, ctx).value)
  {
  }

  /** Every procedure failure, whatever it carried, becomes the same 500. */
  lemma FailedCall(request: Request, def: Definition, ctx: Value)
    requires Invoke(def, request.params, ctx).Failure?
    ensures Route(request, Some(def), ctx) == CreateErrorResponse(request.id, 500, InternalError, Undefined)
  {
  }

  /** In particular a validation failure's 400 is discarded: params the schema rejects give a 500. */
  lemma RejectedParamsGive500(request: Request, kind: Kind, schema: Schema, handler: Option<Handler>, ctx: Value)
    requires schema(request.params).Failure?
    ensures Route(request, Some(Definition(kind, Some(schema), handler)), ctx).error
      == Some(ErrorInfo(500, InternalError, Undefined))
  {
    InvalidInputRejected(kind, schema, handler, request.params, ctx);
  }

  /** The object `createRouterSolution()` returns; `table` is its private Map. */
  class Router {
    var table: map<string, Procedure>

    constructor ()
      ensures table == map[]
    {
      table := map[];
    }

    /** Registers `p` under `name`, replacing any earlier entry; other entries are unchanged. */
    method Add(name: string, p: Procedure) returns (self: Router)
      modifies this
      ensures self == this
      ensures table == old(table)[name := p]
      ensures name in table && table[name] == p
      ensures forall n :: n in old(table) && n != name ==> n in table && table[n] == old(table)[n]
    {
      table := table[name := p];
      self := this;
    }

    /** Reads the table and the procedure it finds; modifies nothing. */
    method Handle(request: Request, ctx: Value) returns (resp: Response)
      ensures resp == Route(request, if request.methodName in table then Some(table[request.methodName].Def()) else None, ctx)
      ensures resp.id == request.id && WellFormed(resp)
    {
      if request.methodName !in table {
        return CreateErrorResponse(request.id, 404, "Unknown method: " + request.methodName, Undefined);
      }
      var proc := table[request.methodName];
      var outcome := proc.Call(request.params, ctx);
      match outcome {
        case Success(result) => resp := CreateResponse(request.id, result);
        case Failure(_) => resp := CreateErrorResponse(request.id, 500, InternalError, Undefined);
      }
    }
  }
}
