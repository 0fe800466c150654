/**
 The stand-alone erasure wrappers `ErasedCommand` and `ErasedQuery`.

 Each holds the handler behind an `Arc<dyn Any>` (here a `HandlerBox`:
 the handler with the tag of its type) and an executor, a plain function
 pointer instantiated for the concrete request, result and handler types
 at construction (here the `...Executor` record of those types). Running
 the executor first downcasts the handler, then the request, and only
 then calls the handler. `execute` is a function of the stored value and
 its argument; it returns the result together with the handler runs it
 performed, so "the handler is not run" is the empty list.
 */
module Erase {
  import opened Types
  import opened Errors
  import opened Handlers

  /** `Arc<dyn Any + Send + Sync>` holding a handler. */
  datatype HandlerBox<H> = HandlerBox(tag: TypeId, handler: H)

  /** The executor `ErasedCommand::new::<C, U>` stores. */
  datatype CommandExecutor = CommandExecutor(commandType: TypeId, handlerType: TypeId)

  /** The executor `ErasedQuery::new::<Q, R, U>` stores. */
  datatype QueryExecutor = QueryExecutor(queryType: TypeId, resultType: TypeId, handlerType: TypeId)

  datatype ErasedCommand = ErasedCommand(handler: HandlerBox<CommandHandler>, executor: CommandExecutor)

  datatype ErasedQuery = ErasedQuery(handler: HandlerBox<QueryHandler>, executor: QueryExecutor)

  /** `h.downcast::<U>()` on the stored `Arc<dyn Any>`. */
  function DowncastHandler<H>(b: HandlerBox<H>, t: TypeId): (r: Option<H>)
    ensures r.Some? <==> b.tag == t
    ensures r.Some? ==> r.value == b.handler
  {
    if b.tag == t then Some(b.handler) else None
  }

  /** The stored handler is of the type the executor will downcast it to. */
  predicate CommandWellFormed(e: ErasedCommand)
  {
    e.handler.tag == e.executor.handlerType
  }

  predicate QueryWellFormed(e: ErasedQuery)
  {
    e.handler.tag == e.executor.handlerType
  }

  /**
   `ErasedCommand::new::<C, U>(handler)`: boxes the handler under its own
   type U and keeps an executor for C and U, so the result is well formed.
   */
  function NewErasedCommand(commandType: TypeId, handler: CommandHandler): (e: ErasedCommand)
    ensures CommandWellFormed(e)
    ensures e.handler.handler == handler && e.executor.commandType == commandType
    ensures e.executor.handlerType == handler.handlerType
  {
    ErasedCommand(HandlerBox(handler.handlerType, handler), CommandExecutor(commandType, handler.handlerType))
  }

  /**
   `ErasedCommand::execute`: succeeds exactly when the handler downcast and
   then the command downcast both succeed, and then runs the stored
   handler once on the command's payload. A failed downcast runs nothing;
   the handler downcast is checked first.
   */
  function ExecuteCommand(e: ErasedCommand, command: AnyBox): (out: (Result<()>, seq<Invocation>))
    ensures out.0.Ok? <==> CommandWellFormed(e) && command.tag == e.executor.commandType
    ensures out.1 == if out.0.Ok? then [RanCommand(e.handler.handler, command.value)] else []
    ensures !CommandWellFormed(e) ==> out.0 == Err(HandlerTypeMismatch(e.executor.handlerType.name))
    ensures CommandWellFormed(e) && command.tag != e.executor.commandType ==>
              out.0 == Err(CommandTypeMismatch(e.executor.commandType.name))
  {
    match DowncastHandler(e.handler, e.executor.handlerType)
    case None => (Err(HandlerTypeMismatch(e.executor.handlerType.name)), [])
    case Some(handler) =>
      match Downcast(command, e.executor.commandType)
      case None => (Err(CommandTypeMismatch(e.executor.commandType.name)), [])
      case Some(payload) => (Ok(()), [RanCommand(handler, payload)])
  }

  /** `ErasedQuery::new::<Q, R, U>(handler)`. */
  function NewErasedQuery(queryType: TypeId, resultType: TypeId, handler: QueryHandler): (e: ErasedQuery)
    ensures QueryWellFormed(e)
    ensures e.handler.handler == handler && e.executor.queryType == queryType
    ensures e.executor.resultType == resultType && e.executor.handlerType == handler.handlerType
  {
    ErasedQuery(HandlerBox(handler.handlerType, handler), QueryExecutor(queryType, resultType, handler.handlerType))
  }

  /**
   `ErasedQuery::execute`: succeeds exactly when both downcasts succeed,
   and then returns the stored handler's result on the query's payload,
   boxed as the executor's result type R, after running it once.
   */
  function ExecuteQuery(e: ErasedQuery, query: AnyBox): (out: (Result<AnyBox>, seq<Invocation>))
    ensures out.0.Ok? <==> QueryWellFormed(e) && query.tag == e.executor.queryType
    ensures out.0.Ok? ==> out.0.value == AnyBox(e.executor.resultType, e.handler.handler.execute(query.value))
    ensures out.1 == if out.0.Ok? then [RanQuery(e.handler.handler, query.value)] else []
    ensures !QueryWellFormed(e) ==> out.0 == Err(HandlerTypeMismatch(e.executor.handlerType.name))
    ensures QueryWellFormed(e) && query.tag != e.executor.queryType ==>
              out.0 == Err(QueryTypeMismatch(e.executor.queryType.name))
  {
    match DowncastHandler(e.handler, e.executor.handlerType)
    case None => (Err(HandlerTypeMismatch(e.executor.handlerType.name)), [])
    case Some(handler) =>
      match Downcast(query, e.executor.queryType)
      case None => (Err(QueryTypeMismatch(e.executor.queryType.name)), [])
      case Some(payload) =>
        var res := handler.execute(payload);
        (Ok(AnyBox(e.executor.resultType, res)), [RanQuery(handler, payload)])
  }

  /**
   A wrapper built with `new` never reports `HandlerTypeMismatch`: given a
   command of type C it runs the given handler once, and given anything
   else it reports `CommandTypeMismatch` naming C and runs nothing.
   */
  lemma NewCommandDispatch(c: TypeId, h: CommandHandler, command: AnyBox)
    ensures var out := ExecuteCommand(NewErasedCommand(c, h), command);
            && !(out.0.Err? && out.0.error.HandlerTypeMismatch?)
            && (command.tag == c ==> out == (Ok(()), [RanCommand(h, command.value)]))
            && (command.tag != c ==> out == (Err(CommandTypeMismatch(c.name)), []))
  {
  }

  /** The same for queries: the handler's own output comes back, boxed as R. */
  lemma NewQueryDispatch(q: TypeId, r: TypeId, h: QueryHandler, query: AnyBox)
    ensures var out := ExecuteQuery(NewErasedQuery(q, r, h), query);
            && (query.tag == q ==> out == (Ok(AnyBox(r, h.execute(query.value))), [RanQuery(h, query.value)]))
            && (query.tag != q ==> out == (Err(QueryTypeMismatch(q.name)), []))
  {
  }
}
