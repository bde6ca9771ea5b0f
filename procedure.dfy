/**
 * The procedure builder: a mutable draft `{ kind, schema?, handler? }` that the
 * fluent calls `input`, `query` and `mutation` update in place, and `call`, which
 * validates the input and runs the handler.
 */
module Procedures {
  import opened Wrappers
  import opened Values

  datatype Kind = Query | Mutation

  /** An input validator: the parsed (possibly coerced) input, or the list of issues it found. */
  type Schema = Value -> Result<Value, Value>

  /** A handler of `{ input, ctx }`; a thrown error or rejected promise is a `Failure`. */
  type Handler = (Value, Value) -> Result<Value, Thrown>

  /** The state of a draft, as a value. */
  datatype Definition = Definition(kind: Kind, schema: Option<Schema>, handler: Option<Handler>)

  /** The plain object `call` throws when validation fails: `{ code: 400, message, data: issues }`. */
  function ValidationFailure(issues: Value): Thrown
  {
    ThrownValue(Obj(map["code" := Num(400), "message" := Str("Validation failed"), "data" := issues]))
  }

  const HandlerNotDefined := Raised(JsError("Error", "Handler not defined"))

  /** What `call` settles with, given the draft's state. */
  function Invoke(def: Definition, input: Value, ctx: Value): Result<Value, Thrown>
  {
    match def.schema
    case Some(schema) =>
      (match schema(input)
       case Failure(issues) => Failure(ValidationFailure(issues))
       case Success(parsed) => Run(def.handler, parsed, ctx))
    case None => Run(def.handler, input, ctx)
  }

  function Run(handler: Option<Handler>, input: Value, ctx: Value): Result<Value, Thrown>
  {
    match handler
    case None => Failure(HandlerNotDefined)
    case Some(h) => h(input, ctx)
  }

  /**
   * A rejected input yields the 400 failure carrying the schema's issues, whatever the
   * handler is and even when there is none: the handler is not consulted.
   */
  lemma InvalidInputRejected(kind: Kind, schema: Schema, handler: Option<Handler>, input: Value, ctx: Value)
    requires schema(input).Failure?
    ensures Invoke(Definition(kind, Some(schema), handler), input, ctx)
      == Failure(ValidationFailure(schema(input).error))
  {
  }

  /**
   * An accepted input reaches the handler in its parsed form, with the same ctx, and
   * `call` settles exactly as the handler does: its errors pass through unchanged.
   */
  lemma ValidInputReachesHandler(kind: Kind, schema: Schema, handler: Handler, input: Value, ctx: Value)
    requires schema(input).Success?
    ensures Invoke(Definition(kind, Some(schema), Some(handler)), input, ctx)
      == handler(schema(input).value, ctx)
  {
  }

  /** Without a schema the raw input reaches the handler. */
  lemma UncheckedInputReachesHandler(kind: Kind, handler: Handler, input: Value, ctx: Value)
    ensures Invoke(Definition(kind, None, Some(handler)), input, ctx) == handler(input, ctx)
  {
  }

  /** Without a handler, input that passes validation fails with "Handler not defined". */
  lemma MissingHandler(kind: Kind, schema: Option<Schema>, input: Value, ctx: Value)
    requires schema.None? || schema.value(input).Success?
    ensures Invoke(Definition(kind, schema, None), input, ctx) == Failure(HandlerNotDefined)
  {
  }

  /** `call` never reads the kind. */
  lemma KindIgnored(schema: Option<Schema>, handler: Option<Handler>, input: Value, ctx: Value)
    ensures Invoke(Definition(Query, schema, handler), input, ctx)
      == Invoke(Definition(Mutation, schema, handler), input, ctx)
  {
  }

  /** The handle returned by `createProcedure()`, whose methods share one draft. */
  class Procedure {
    var kind: Kind
    var schema: Option<Schema>
    var handler: Option<Handler>

    function Def(): Definition
      reads this
    {
      Definition(kind, schema, handler)
    }

    /** A fresh draft is a query with neither schema nor handler. */
    constructor ()
      ensures kind == Kind.Query && schema.None? && handler.None?
    {
      kind := Kind.Query;
      schema := None;
      handler := None;
    }

    method Input(s: Schema) returns (self: Procedure)
      modifies this
      ensures self == this
      ensures schema == Some(s) && kind == old(kind) && handler == old(handler)
    {
      schema := Some(s);
      self := this;
    }

    method Query(h: Handler) returns (self: Procedure)
      modifies this
      ensures self == this
      ensures kind == Kind.Query && handler == Some(h) && schema == old(schema)
    {
      kind := Kind.Query;
      handler := Some(h);
      self := this;
    }

    method Mutation(h: Handler) returns (self: Procedure)
      modifies this
      ensures self == this
      ensures kind == Kind.Mutation && handler == Some(h) && schema == old(schema)
    {
      kind := Kind.Mutation;
      handler := Some(h);
      self := this;
    }

    /** Validates first, then checks for a handler, then runs it; the draft is left as it is. */
    method Call(input: Value, ctx: Value) returns (r: Result<Value, Thrown>)
      ensures r == Invoke(Def(), input, ctx)
    {
      var arg := input;
      if schema.Some? {
        var parsed := schema.value(input);
        if parsed.Failure? {
          return Failure(ValidationFailure(parsed.error));
        }
        arg := parsed.value;
      }
      if handler.None? {
        return Failure(HandlerNotDefined);
      }
      r := handler.value(arg, ctx);
    }
  }
}
