/**
 How the application wires the mediator (`App::setup_mediator`), and
 what callers of the mediator can rely on from its contracts alone.
 */
module App {
  import opened Types
  import opened Errors
  import opened Handlers
  import opened Mediator

  /** The query entry `setup_mediator` installs. */
  function HelloQueryEntry(): QueryFn
  {
    QueryFn(HelloQueryType, GetHelloResultType, GetHello(NewGetHelloHandler(HelloRepository)))
  }

  /**
   `App::setup_mediator`: a new mediator with one query handler,
   `GetHelloHandler` for `HelloQuery` answering `GetHelloResult`, and no
   command handler.
   */
  method SetupMediator() returns (m: Mediator)
    ensures fresh(m) && m.Valid() && m.trace == []
    ensures m.commands == map[] && m.queries == map[HelloQueryType := HelloQueryEntry()]
  {
    m := new Mediator();
    m.RegisterQuery(HelloQueryType, GetHelloResultType, GetHello(NewGetHelloHandler(HelloRepository)));
  }

  /**
   Dispatching against the wired mediator: a `HelloQuery` asking for a
   `GetHelloResult` answers "hello world" whatever its name; asking for any
   other result type fails with `QueryResultMismatch` naming the query
   type; a `HelloCommand` finds no command handler.
   */
  method HelloDispatch(name: string, other: TypeId)
      returns (answer: Result<Value>, wrongType: Result<Value>, command: Result<()>)
    requires other != GetHelloResultType
    ensures answer == Ok(ResultValue(GetHelloResult("hello world")))
    ensures wrongType == Err(QueryResultMismatch("Query result type mismatch for " + HelloQueryType.name))
    ensures command == Err(CommandNotFound("No handler for " + HelloCommandType.name))
  {
    var m := SetupMediator();
    answer := m.Query(BoxQuery(HelloQuery(name)), GetHelloResultType);
    wrongType := m.Query(BoxQuery(HelloQuery(name)), other);
    command := m.Send(BoxCommand(HelloCommand(name)));
  }

  /**
   Registering handler `a` and then handler `b` for the same command type
   leaves only `b` reachable: a later send runs `b`, once, and never `a`.
   */
  method ReRegistration(commandType: TypeId, a: CommandHandler, b: CommandHandler, payload: Value)
      returns (r: Result<()>, ghost ran: seq<Invocation>)
    ensures r == Ok(())
    ensures ran == [RanCommand(b, payload)]
  {
    var m := new Mediator();
    m.RegisterCommand(commandType, a);
    m.RegisterCommand(commandType, b);
    r := m.Send(AnyBox(commandType, payload));
    ran := m.trace;
  }

  /**
   With `CreateHelloHandler` registered for `HelloCommand`, sending a
   `HelloCommand` succeeds and its one effect is the `println!` of the greeting.
   */
  method CreateHelloDispatch(name: string) returns (r: Result<()>, ghost lines: seq<string>)
    ensures r == Ok(())
    ensures lines == ["Hello from HelloHandler: " + name]
  {
    var m := new Mediator();
    m.RegisterCommand(HelloCommandType, CreateHello(CreateHelloHandler));
    r := m.Send(BoxCommand(HelloCommand(name)));
    assert m.trace == [RanCommand(CreateHello(CreateHelloHandler), BoxCommand(HelloCommand(name)).value)];
    lines := m.trace[0].commandHandler.execute(m.trace[0].command);
  }
}
