/**
 The dispatch registry.

 A `Mediator` owns two tables keyed by request type: one from command
 types to the closure `register_command` built, one from query types to
 the closure `register_query` built. A closure is determined by the types
 it was instantiated for and the handler it captured, so it is modelled
 as that record (`CommandFn`, `QueryFn`) plus the function that runs it
 (`CallCommandFn`, `CallQueryFn`). The tables' mutexes are left out: every
 call is sequential here. Handler runs are recorded in the ghost `trace`.
 */
module Mediator {
  import opened Types
  import opened Errors
  import opened Handlers

  /** The `CommandFn` closure built by `register_command::<C, H>`. */
  datatype CommandFn = CommandFn(commandType: TypeId, handler: CommandHandler)

  /** The `QueryFn` closure built by `register_query::<Q, R, H>`. */
  datatype QueryFn = QueryFn(queryType: TypeId, resultType: TypeId, handler: QueryHandler)

  /**
   Calling a `CommandFn`: the command must downcast to C, and then the
   captured handler runs once on it; otherwise nothing runs.
   */
  function CallCommandFn(f: CommandFn, command: AnyBox): (out: (Result<()>, seq<Invocation>))
    ensures out.0.Ok? <==> command.tag == f.commandType
    ensures out.1 == if out.0.Ok? then [RanCommand(f.handler, command.value)] else []
    ensures out.0.Err? ==> out.0.error == CommandTypeMismatch(f.commandType.name)
  {
    match Downcast(command, f.commandType)
    case None => (Err(CommandTypeMismatch(f.commandType.name)), [])
    case Some(payload) => (Ok(()), [RanCommand(f.handler, payload)])
  }

  /**
   Calling a `QueryFn`: the query must downcast to Q, and then the
   captured handler's result comes back boxed as R.
   */
  function CallQueryFn(f: QueryFn, query: AnyBox): (out: (Result<AnyBox>, seq<Invocation>))
    ensures out.0.Ok? <==> query.tag == f.queryType
    ensures out.0.Ok? ==> out.0.value == AnyBox(f.resultType, f.handler.execute(query.value))
    ensures out.1 == if out.0.Ok? then [RanQuery(f.handler, query.value)] else []
    ensures out.0.Err? ==> out.0.error == QueryTypeMismatch(f.queryType.name)
  {
    match Downcast(query, f.queryType)
    case None => (Err(QueryTypeMismatch(f.queryType.name)), [])
    case Some(payload) =>
      var result := f.handler.execute(payload);
      (Ok(AnyBox(f.resultType, result)), [RanQuery(f.handler, payload)])
  }

  /** The message `get_handler` builds for a missing entry. */
  function NoHandlerMessage(typeName: string): string
  {
    "No handler for " + typeName
  }

  /** The message `query` builds when the result is not of the expected type. */
  function ResultMismatchMessage(queryType: TypeId): string
  {
    "Query result type mismatch for " + queryType.name
  }

  /**
   `get_handler`: a copy of the entry stored under the key, or the
   caller's not-found error carrying "No handler for <type name>".
   */
  function GetHandler<T>(m: map<TypeId, T>, typeId: TypeId, typeName: string,
                         notFound: string -> MediatorError): (r: Result<T>)
    ensures r.Ok? <==> typeId in m
    ensures r.Ok? ==> r.value == m[typeId]
    ensures r.Err? ==> r.error == notFound(NoHandlerMessage(typeName))
  {
    if typeId in m then Ok(m[typeId]) else Err(notFound(NoHandlerMessage(typeName)))
  }

  class Mediator {
    var commands: map<TypeId, CommandFn>
    var queries: map<TypeId, QueryFn>
    ghost var trace: seq<Invocation>

    /** Every entry is stored under the very type its closure downcasts to. */
    ghost predicate Valid()
      reads this
    {
      && (forall c | c in commands :: commands[c].commandType == c)
      && (forall q | q in queries :: queries[q].queryType == q)
    }

    /** `Mediator::new`: both tables empty, nothing run yet. */
    constructor ()
      ensures Valid()
      ensures commands == map[] && queries == map[] && trace == []
    {
      commands := map[];
      queries := map[];
      trace := [];
    }

    /**
     `register_command::<C, H>`: the entry for C becomes a closure over the
     new handler, replacing any earlier one; every other command entry
     and the whole query table stay as they were.
     */
    method RegisterCommand(commandType: TypeId, handler: CommandHandler)
      requires Valid()
      modifies this`commands
      ensures Valid()
      ensures commands == old(commands)[commandType := CommandFn(commandType, handler)]
      ensures queries == old(queries) && trace == old(trace)
    {
      commands := commands[commandType := CommandFn(commandType, handler)];
    }

    /**
     `register_query::<Q, R, H>`: the entry for Q in the query table becomes
     a closure over the new handler and result type R (last write wins);
     the command table is untouched.
     */
    method RegisterQuery(queryType: TypeId, resultType: TypeId, handler: QueryHandler)
      requires Valid()
      modifies this`queries
      ensures Valid()
      ensures queries == old(queries)[queryType := QueryFn(queryType, resultType, handler)]
      ensures commands == old(commands) && trace == old(trace)
    {
      queries := queries[queryType := QueryFn(queryType, resultType, handler)];
    }

    /** `get_command::<C>`: reads the command table, changes nothing. */
    method GetCommand(commandType: TypeId) returns (r: Result<CommandFn>)
      ensures r.Ok? <==> commandType in commands
      ensures r.Ok? ==> r.value == commands[commandType]
      ensures r.Err? ==> r.error == CommandNotFound("No handler for " + commandType.name)
    {
      r := GetHandler(commands, commandType, commandType.name, (msg: string) => CommandNotFound(msg));
    }

    /** `get_query::<Q>`: reads the query table, changes nothing. */
    method GetQuery(queryType: TypeId) returns (r: Result<QueryFn>)
      ensures r.Ok? <==> queryType in queries
      ensures r.Ok? ==> r.value == queries[queryType]
      ensures r.Err? ==> r.error == QueryNotFound("No handler for " + queryType.name)
    {
      r := GetHandler(queries, queryType, queryType.name, (msg: string) => QueryNotFound(msg));
    }

    /**
     `send::<C>`: with no entry for C, `CommandNotFound` and no handler
     runs; otherwise the handler stored under C runs exactly once on the
     command and the call succeeds (the closure's own downcast cannot
     fail, since it was built for the key's type). The tables are unchanged.
     */
    method Send(command: AnyBox) returns (r: Result<()>)
      requires Valid()
      modifies this`trace
      ensures Valid() && commands == old(commands) && queries == old(queries)
      ensures command.tag !in commands ==>
                r == Err(CommandNotFound("No handler for " + command.tag.name)) && trace == old(trace)
      ensures command.tag in commands ==>
                r == Ok(()) && trace == old(trace) + [RanCommand(commands[command.tag].handler, command.value)]
    {
      var f := GetCommand(command.tag);
      if f.Err? {
        r := Err(f.error);
        return;
      }
      var out := CallCommandFn(f.value, command);
      trace := trace + out.1;
      r := out.0;
    }

    /**
     `query::<Q, R>`: with no entry for Q, `QueryNotFound` and no handler
     runs. Otherwise the handler stored under Q runs exactly once, and
     the call returns its result if R is the result type the handler was
     registered with, and `QueryResultMismatch` naming Q if not: a value
     is returned only when it is of the expected type.
     */
    method Query(query: AnyBox, expected: TypeId) returns (r: Result<Value>)
      requires Valid()
      modifies this`trace
      ensures Valid() && commands == old(commands) && queries == old(queries)
      ensures r.Ok? ==> query.tag in queries && queries[query.tag].resultType == expected
      ensures query.tag !in queries ==>
                r == Err(QueryNotFound("No handler for " + query.tag.name)) && trace == old(trace)
      ensures query.tag in queries ==>
                trace == old(trace) + [RanQuery(queries[query.tag].handler, query.value)]
      ensures query.tag in queries && queries[query.tag].resultType == expected ==>
                r == Ok(queries[query.tag].handler.execute(query.value))
      ensures query.tag in queries && queries[query.tag].resultType != expected ==>
                r == Err(QueryResultMismatch("Query result type mismatch for " + query.tag.name))
    {
      var f := GetQuery(query.tag);
      if f.Err? {
        r := Err(f.error);
        return;
      }
      var out := CallQueryFn(f.value, query);
      trace := trace + out.1;
      // The closure's own downcast cannot fail: it was built for the key's type.
      var boxed := out.0.value;
      match Downcast(boxed, expected)
      case Some(v) =>
        r := Ok(v);
      case None =>
        r := Err(QueryResultMismatch(ResultMismatchMessage(query.tag)));
    }
  }

  /**
   The not-found errors carry the whole "No handler for <type>" message,
   so their rendering repeats the wording around the type name.
   */
  lemma NotFoundRendering(t: TypeId)
    ensures Display(CommandNotFound(NoHandlerMessage(t.name)))
            == "No command handler registered for type " + "No handler for " + t.name
    ensures Display(QueryNotFound(NoHandlerMessage(t.name)))
            == "No query handler registered for type " + "No handler for " + t.name
    ensures Display(QueryResultMismatch(ResultMismatchMessage(t)))
            == "Query result type mismatch for " + "Query result type mismatch for " + t.name
  {
  }
}
