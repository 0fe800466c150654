/**
 The handler contracts and the sample request, result and handler types.

 A command handler's `execute` returns unit, so the only thing it does is
 its effect; here that effect is the list of lines it writes to standard
 output. A query handler's `execute` returns a result and has no error
 channel. Both are total functions on the payload of an erased request.
 */
module Handlers {
  import opened Types

  /** A value of a type implementing `CommandHandler<C>`: its type and what `execute` writes. */
  datatype CommandHandler = CommandHandler(handlerType: TypeId, execute: Value -> seq<string>)

  /** A value of a type implementing `QueryHandler<Q, R>`: its type and the result `execute` returns. */
  datatype QueryHandler = QueryHandler(handlerType: TypeId, execute: Value -> Value)

  /** One run of a handler's `execute`, on the payload it was given. */
  datatype Invocation =
    | RanCommand(commandHandler: CommandHandler, command: Value)
    | RanQuery(queryHandler: QueryHandler, query: Value)

  const HelloQueryType := TypeId("rust_service::core::handlers::hello::HelloQuery")
  const HelloCommandType := TypeId("rust_service::core::handlers::hello::HelloCommand")
  const GetHelloResultType := TypeId("rust_service::core::results::hello::GetHelloResult")
  const CreateHelloHandlerType := TypeId("rust_service::core::handlers::hello::CreateHelloHandler")
  const GetHelloHandlerType := TypeId("rust_service::core::handlers::hello::GetHelloHandler")

  datatype HelloQuery = HelloQuery(name: string)
  datatype HelloCommand = HelloCommand(name: string)
  datatype GetHelloResult = GetHelloResult(name: string)

  datatype CreateHelloHandler = CreateHelloHandler
  datatype HelloRepository = HelloRepository
  datatype GetHelloHandler = GetHelloHandler(helloRepo: HelloRepository)

  /** The payload of a struct whose one field is `name: String`. */
  function NameRecord(name: string): Value
  {
    Struct([Text(name)])
  }

  /** Reads the `name` field back out of a payload, if it has that shape. */
  function NameOf(v: Value): (r: Option<string>)
    ensures r.Some? <==> exists name :: v == NameRecord(name)
    ensures forall name :: v == NameRecord(name) ==> r == Some(name)
  {
    if v.Struct? && |v.fields| == 1 && v.fields[0].Text? then
      assert v == NameRecord(v.fields[0].s);
      Some(v.fields[0].s)
    else
      None
  }

  /** `Box::new(q)` for a `HelloQuery`. */
  function BoxQuery(q: HelloQuery): (b: AnyBox)
    ensures b.tag == HelloQueryType && NameOf(b.value) == Some(q.name)
  {
    AnyBox(HelloQueryType, NameRecord(q.name))
  }

  /** `Box::new(c)` for a `HelloCommand`. */
  function BoxCommand(c: HelloCommand): (b: AnyBox)
    ensures b.tag == HelloCommandType && NameOf(b.value) == Some(c.name)
  {
    AnyBox(HelloCommandType, NameRecord(c.name))
  }

  /** The payload of a `GetHelloResult`. */
  function ResultValue(r: GetHelloResult): (v: Value)
    ensures NameOf(v) == Some(r.name)
  {
    NameRecord(r.name)
  }

  /**
   `HelloQuery` and `HelloCommand` have the same field, so their payloads
   coincide; they are still different request types, so the boxes differ.
   */
  lemma QueryAndCommandDistinct(name: string)
    ensures BoxQuery(HelloQuery(name)).value == BoxCommand(HelloCommand(name)).value
    ensures BoxQuery(HelloQuery(name)) != BoxCommand(HelloCommand(name))
  {
  }

  /** `CreateHelloHandler::execute`: one `println!` of the greeting naming the command. */
  function CreateHelloExecute(h: CreateHelloHandler, command: HelloCommand): (lines: seq<string>)
    ensures |lines| == 1
    ensures lines[0] == "Hello from HelloHandler: " + command.name
  {
    ["Hello from HelloHandler: " + command.name]
  }

  /** `HelloRepository::get_by_id`: the same text whatever the id. */
  function GetById(repo: HelloRepository, id: i32): (s: string)
    ensures s == "hello world"
  {
    "hello world"
  }

  /** `GetHelloHandler::new`. */
  function NewGetHelloHandler(repo: HelloRepository): (h: GetHelloHandler)
    ensures h.helloRepo == repo
  {
    GetHelloHandler(repo)
  }

  /** `GetHelloHandler::execute`: asks the repository for id 13 and ignores the query. */
  function GetHelloExecute(h: GetHelloHandler, query: HelloQuery): (r: GetHelloResult)
    ensures r == GetHelloResult(GetById(h.helloRepo, 13))
    ensures r.name == "hello world"
  {
    GetHelloResult(GetById(h.helloRepo, 13))
  }

  /** The result does not depend on the query's `name`. */
  lemma GetHelloIgnoresName(h: GetHelloHandler, q1: HelloQuery, q2: HelloQuery)
    ensures GetHelloExecute(h, q1) == GetHelloExecute(h, q2)
  {
  }

  /** `CreateHelloHandler` as a value of `CommandHandler<HelloCommand>`. */
  function CreateHello(h: CreateHelloHandler): (handler: CommandHandler)
    ensures handler.handlerType == CreateHelloHandlerType
    ensures forall c: HelloCommand :: handler.execute(BoxCommand(c).value) == CreateHelloExecute(h, c)
  {
    CommandHandler(CreateHelloHandlerType,
      (v: Value) => match NameOf(v)
                    case Some(name) => CreateHelloExecute(h, HelloCommand(name))
                    case None => [])
  }

  /** `GetHelloHandler` as a value of `QueryHandler<HelloQuery, GetHelloResult>`. */
  function GetHello(h: GetHelloHandler): (handler: QueryHandler)
    ensures handler.handlerType == GetHelloHandlerType
    ensures forall q: HelloQuery :: handler.execute(BoxQuery(q).value) == ResultValue(GetHelloExecute(h, q))
  {
    QueryHandler(GetHelloHandlerType,
      (v: Value) => match NameOf(v)
                    case Some(name) => ResultValue(GetHelloExecute(h, HelloQuery(name)))
                    case None => ResultValue(GetHelloExecute(h, HelloQuery(""))))
  }
}
