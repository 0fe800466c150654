# Mediator dispatch core — a Dafny model

This project models the in-process mediator of `rust-service`. The mediator
is a registry that routes typed requests to the one handler registered for
their type. There are two kinds of request: *commands* (fire-and-forget, the
handler returns unit) and *queries* (the handler returns a result of a
declared type R). The model also covers:

- the stand-alone erasure wrappers `ErasedCommand` / `ErasedQuery`;
- the error taxonomy `MediatorError` and how each variant renders;
- the sample request types and handlers (`HelloQuery`, `HelloCommand`,
  `CreateHelloHandler`, `HelloRepository`, `GetHelloHandler`);
- the bearer-token extractor `AuthenticatedUser::from_request_parts`.

How Rust's dynamic typing is represented:

- `TypeId::of::<T>()` and `type_name::<T>()` become one tag,
  `Types.TypeId(name)`.
- A `Box<dyn Any>` is an `AnyBox` (a tag and a payload).
- `downcast::<T>()` compares the box's tag with `T`.
- A handler is a record holding its type and a total function on payloads.
  For a command handler, the function gives the texts it prints (one per `println!`), since
  writing output is its only effect. For a query handler, it gives the
  result.
- The closures that `register_command` / `register_query` store are the
  records `CommandFn` / `QueryFn`. Each holds the types the closure was
  instantiated for and the handler it captured. `CallCommandFn` /
  `CallQueryFn` give what calling the closure does.

`Mediator.Mediator` is a class. Its two tables are `map` fields, which the
registration methods update in place. It also has a ghost `trace` that
records every handler run, so contracts can state which handler ran and how
many times. The erasure wrappers are pure: `execute` returns its result
together with the list of handler runs it performed.

Files:

- `types.dfy`: type tags, payloads, `AnyBox`, `Downcast`
- `errors.dfy`: `MediatorError`, `Display` and its inverse `Parse`
- `handlers.dfy`: `src/core/handlers/hello.rs`
- `erase.dfy`: `src/mediator/erase.rs`
- `mediator.dfy`: `src/mediator/mediator.rs`
- `app.dfy`: `App::setup_mediator`, plus dispatch scenarios proved from the
  mediator's contracts
- `extractors.dfy`: `src/extractors.rs`

The error types follow the code:

- A `*NotFound` error carries the message built in `get_handler`,
  "No handler for <type>", not the bare type name. So it renders as, for
  example, "No command handler registered for type No handler for <type>".
- `QueryResultMismatch` carries "Query result type mismatch for <Q>". It
  names the query type Q, not the expected result type R, and its rendering
  repeats that wording.

## Model

| member | source | states |
|---|---|---|
| `Errors.Display` | src/mediator/errors.rs:4-22 | each of the six variants renders as its own fixed text followed by the string it carries |
| `Errors.Parse` | src/mediator/errors.rs:4-22 | a text it reads back as an error is exactly that error's rendering |
| `Errors.ParseDisplay` | src/mediator/errors.rs:4-22 | reading back any error's rendering gives that same error: no variant's text is a prefix of another's |
| `Errors.DisplayInjective` | src/mediator/errors.rs:4-22 | two errors that render the same are the same variant carrying the same string |
| `Handlers.QueryAndCommandDistinct` | src/core/handlers/hello.rs:9-26 | `HelloQuery` and `HelloCommand` with the same name have equal payloads but are different boxed requests, because their type tags differ |
| `Handlers.CreateHelloExecute` | src/core/handlers/hello.rs:40-45 | executing `CreateHelloHandler` does one `println!` of "Hello from HelloHandler: " followed by the command's name |
| `Handlers.GetById` | src/core/handlers/hello.rs:49-53 | `get_by_id` returns "hello world" for every `i32` id |
| `Handlers.NewGetHelloHandler` | src/core/handlers/hello.rs:67-70 | `GetHelloHandler::new` stores the given repository unchanged |
| `Handlers.GetHelloExecute` | src/core/handlers/hello.rs:59-65 | the result is the repository's answer for id 13, so its name is "hello world" |
| `Handlers.GetHelloIgnoresName` | src/core/handlers/hello.rs:60-64 | two queries with any names get the same result |
| `Handlers.CreateHello` | src/core/handlers/hello.rs:28-45 | as a type-erased command handler, on a boxed `HelloCommand` it does exactly what `CreateHelloHandler::execute` does |
| `Handlers.GetHello` | src/core/handlers/hello.rs:55-65 | as a type-erased query handler, on a boxed `HelloQuery` it returns the payload of `GetHelloHandler::execute`'s result |
| `Erase.DowncastHandler` | src/mediator/erase.rs:31-35 | the handler downcast succeeds exactly when the stored handler's type is U, and then yields the stored handler |
| `Erase.NewErasedCommand` | src/mediator/erase.rs:23-49 | `new::<C, U>` stores the handler under its own type U with an executor for C and U, so the handler downcast will succeed |
| `Erase.ExecuteCommand` | src/mediator/erase.rs:29-53 | succeeds exactly when both downcasts succeed, and then runs the stored handler once on the command; otherwise runs nothing; `HandlerTypeMismatch(U)` takes precedence over `CommandTypeMismatch(C)` |
| `Erase.NewErasedQuery` | src/mediator/erase.rs:64-91 | `new::<Q, R, U>` stores the handler under U with an executor for Q, R and U |
| `Erase.ExecuteQuery` | src/mediator/erase.rs:71-95 | succeeds exactly when both downcasts succeed, returning the handler's own result boxed as R after one run; otherwise runs nothing and reports `HandlerTypeMismatch(U)` before `QueryTypeMismatch(Q)` |
| `Erase.NewCommandDispatch` | src/mediator/erase.rs:23-53 | a wrapper built by `new` never reports `HandlerTypeMismatch`; a command of type C runs the given handler once, any other is `CommandTypeMismatch(C)` with nothing run |
| `Erase.NewQueryDispatch` | src/mediator/erase.rs:64-95 | a wrapper built by `new` returns the given handler's output boxed as R for a query of type Q, and `QueryTypeMismatch(Q)` with nothing run for any other |
| `Mediator.CallCommandFn` | src/mediator/mediator.rs:50-61 | the stored command closure runs its handler once exactly when the command downcasts to C, else gives `CommandTypeMismatch(C)` and runs nothing |
| `Mediator.CallQueryFn` | src/mediator/mediator.rs:74-85 | the stored query closure returns the handler's result boxed as R, after one run, exactly when the query downcasts to Q, else gives `QueryTypeMismatch(Q)` |
| `Mediator.GetHandler` | src/mediator/mediator.rs:114-125 | finds the entry exactly when the key is in the table and returns it unchanged; otherwise the caller's not-found error carrying "No handler for <type name>" |
| `Mediator.Mediator.constructor` | src/mediator/mediator.rs:36-41 | a new mediator has empty command and query tables |
| `Mediator.Mediator.RegisterCommand` | src/mediator/mediator.rs:43-64 | the command entry for C becomes a closure over the new handler, replacing any earlier one; other command entries and the query table are unchanged |
| `Mediator.Mediator.RegisterQuery` | src/mediator/mediator.rs:66-88 | the query entry for Q becomes a closure over the new handler and R (last write wins); the command table is unchanged |
| `Mediator.Mediator.GetCommand` | src/mediator/mediator.rs:127-136 | the entry stored for C, or `CommandNotFound("No handler for <C>")` exactly when there is none |
| `Mediator.Mediator.GetQuery` | src/mediator/mediator.rs:138-147 | the entry stored for Q, or `QueryNotFound("No handler for <Q>")` exactly when there is none |
| `Mediator.Mediator.Send` | src/mediator/mediator.rs:90-96 | unregistered C: `CommandNotFound("No handler for <C>")` and no handler runs; registered C: the handler stored under C runs exactly once on the command and the result is `Ok(())` (the `CommandTypeMismatch` path cannot be taken); tables unchanged |
| `Mediator.Mediator.Query` | src/mediator/mediator.rs:98-112 | unregistered Q: `QueryNotFound("No handler for <Q>")` and nothing runs; registered Q: its handler runs once, and the call returns exactly that handler's output if R is the registered result type, else `QueryResultMismatch("Query result type mismatch for <Q>")`; a value is only ever returned for the registered R; tables unchanged |
| `Mediator.NotFoundRendering` | src/mediator/mediator.rs:104-123 | the errors `send` and `query` return render with the wording doubled: "No command handler registered for type No handler for <C>", and so on |
| `App.SetupMediator` | src/app.rs:97-105 | the wired mediator has no command entry and one query entry, `GetHelloHandler` for `HelloQuery` with result `GetHelloResult` |
| `App.HelloDispatch` | src/app.rs:97-105 | on that mediator, a `HelloQuery` with any name asking for `GetHelloResult` returns "hello world"; asking for any other type is `QueryResultMismatch` naming `HelloQuery`; a `HelloCommand` is `CommandNotFound` |
| `App.ReRegistration` | src/mediator/mediator.rs:43-96 | after registering handler a and then handler b for one command type, a send succeeds and runs b exactly once and never a |
| `App.CreateHelloDispatch` | src/core/handlers/hello.rs:40-45 | sending a `HelloCommand` through a mediator with `CreateHelloHandler` registered succeeds, and its one effect is the one `println!` of the greeting for that name |
| `Extractors.ToStr` | src/extractors.rs:25-26 | the header value converts to text exactly when every byte is a tab or in 0x20..0x7E, and then character for byte |
| `Extractors.StripPrefix` | src/extractors.rs:28-30 | succeeds exactly when the text starts with the prefix, giving what follows it |
| `Extractors.CheckBearer` | src/extractors.rs:21-36 | every rejection has status 401; the request is accepted, as user 42, exactly when the Authorization header's text is "Bearer " followed by the expected token |
| `Extractors.CheckOrder` | src/extractors.rs:21-34 | a missing header gives "Missing token", then non-visible-ASCII gives "Invalid token", then a missing "Bearer " prefix gives "Invalid token format", then a different token gives "Invalid token"; the first failing check decides |
| `Extractors.FromRequestParts` | src/extractors.rs:14-37 | as written: accepted exactly when the header is "Bearer " followed by the configured `server_address`; all rejections are 401 |
| `Extractors.FromRequestPartsIntended` | src/extractors.rs:32-34 | corrected: accepted exactly when the header is "Bearer " followed by the configured `secret_token`; all rejections are 401 |
| `Extractors.ServerAddressAcceptedInsteadOfSecret` | src/extractors.rs:32-34 | with `secret_token` "s3cret" and `server_address` "0.0.0.0:80", the code accepts "Bearer 0.0.0.0:80" and rejects "Bearer s3cret" as "Invalid token"; the corrected check does the opposite |

## Findings

| source | as written | input that shows it | evidently intended | confidence | as-written member | corrected member |
|---|---|---|---|---|---|---|
| src/extractors.rs:32 | the bearer token is compared with `cfg.server_address`, the host:port the server binds to | config with `secret_token` "s3cret" and `server_address` "0.0.0.0:80": header "Bearer 0.0.0.0:80" is accepted, "Bearer s3cret" is rejected | compare with `cfg.secret_token`, which is loaded from `SECRET_TOKEN` and read nowhere else | medium, not executed | `Extractors.FromRequestParts`, `Extractors.ServerAddressAcceptedInsteadOfSecret` | `Extractors.FromRequestPartsIntended` |

## Left out

- The `tokio::sync::Mutex` around each table and all `async`/`await`. Calls are sequential here, so the guarantees about concurrent registration and dispatch are not modelled.
- The `tracing::error!` log lines in `get_handler` and `query`. They are side effects only.
- Rust's real `TypeId`, `type_name` and `Any::downcast`. A type's identity is its name, and distinct types are assumed to have distinct names. The crate prefix `rust_service::` in the sample type names is assumed from the repository's name.
- Static typing of payloads. A handler is a function on any payload. The adapters `Handlers.CreateHello` and `Handlers.GetHello` read the `name` field back out. For a payload without that shape they fall back to writing nothing / querying with an empty name. The mediator never passes them such a payload, because it only runs a handler on a request boxed with the handler's own type.
- `Mediator.Mediator.Query`: the `?` after calling the stored closure is not modelled as a branch. That closure's own downcast cannot fail: it was built for the type it is stored under, and this is proved.
- Handlers that fail, panic or never complete. Every handler is a total function.
- The marker traits `Command` and `Query`. They are compile-time bounds: Rust compiles `register_command`/`send` only for `Command` types and `register_query`/`query` only for `Query` types, while the model's registry operations accept boxes and tags of any type.
- HTTP header details. Header names are assumed stored in lower case. Only the first value of a repeated header is seen. `AppState::from_ref`'s clone of the state is left out.
- `src/main.rs`, `App::run` and `run_and_wait_tasks`, `src/cron.rs`, `src/api/server.rs`, routing, swagger, logger, configuration loading and the HTTP client. These are task spawning, signals, scheduling and network or file I/O.
- `src/core/use_cases/hello.rs`. It duplicates the handlers under other names and nothing in the mediator uses it.
