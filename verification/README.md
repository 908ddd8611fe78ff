# try-catch — a Dafny model

This project models `try-catch.ts`, a structured exception-handling
combinator. A call to `trySync(doFn, ...handlers)` runs a computation and
checks each raised value against a declarative list of handlers. `except(Ctor
| [Ctors], h)` matches by error class, walking the raised error's prototype
chain from its own class up to `Error`. `catchAll(h)` takes any raised value.
`finallyDo(h)` runs on every exit path.

The model is split by component:

- `categories.dfy`: `Wrappers` (a small `Option`) and `Categories`. An error
  class is a `Category`, the identity of a constructor object. The runtime's
  prototype links become an explicit parent table, `Hierarchy`. Entries 0, 1
  and 2 are the built-in chain `Object.prototype <- Function.prototype <-
  Error`. Every prototype is numbered no higher than whatever inherits from
  it; this numbering is the termination measure of the walk. A prototype
  numbered the same as its child is the self-link the source's
  `proto !== prevProto` guard stops at. `Ancestry` lists the categories the
  walk visits.
- `descriptors.dfy`: `Descriptors`. This holds the three descriptor kinds,
  `except`, `catchAll` and `finallyDo`, and the one-level flattening done by
  `Array.prototype.concat.apply([], args)`. A handler function is named by a
  token, `HandlerId`.
- `handler_table.dfy`: `HandlerTable`. This is `buildHandlersMap`, a
  left-to-right fold of `Register` steps over the flattened list. A `Slot`
  (one constructor key, the catch-all, or the finally) names the single
  place each descriptor writes.
- `matcher.dfy`: `Matcher`. This is `findHandler`, one recursive call per
  loop iteration.
- `dispatch.dfy`: `Dispatch`. This holds `handleError` and `trySync`. A
  raised value is a `Raised`: an `Error` instance, which carries its
  constructor, or any other payload. The computation and the handlers end in
  an `Outcome`: a returned value or a raise. The shared `context` object is
  an abstract state threaded through each call in order. A `Behaviours`
  record gives what each handler token does. Every run records its calls, so
  the trace shows which handlers ran, how often, in what order and with what
  arguments. `trySync` is split into the states `Running` (`Attempt`) and
  `Cleanup`/`Done` (`RunFinally`).
- `scenarios.dfy`: `Scenarios`. These are the repository's example runs,
  stated over its class hierarchy `ErrorB extends ErrorA extends Error` and
  `OtherError extends Error`.

## Model

| member | source | states |
|---|---|---|
| Categories.Ancestry | try-catch.ts:51-62 | The visited chain starts at the concrete class. Each later entry is the prototype of the one before. The entries strictly decrease, so there are at most `c + 1` of them and the walk terminates. The walk stops exactly at `Error`, a null prototype or a self-prototype, and at no earlier entry. |
| Categories.AncestryStopsAtError | try-catch.ts:57-59 | Once the walk reaches `Error`, `Error` is the last entry. `Function.prototype` and `Object.prototype` are never visited. |
| Descriptors.Except | try-catch.ts:65-72 | `except` yields one 'catch' descriptor per constructor, in list order, all with the same handler. An array argument yields an array; a single constructor yields exactly one descriptor. |
| Descriptors.CatchAll | try-catch.ts:74-76 | `catchAll(h)` contributes exactly one 'catchAll' descriptor carrying `h`. |
| Descriptors.FinallyDo | try-catch.ts:78-80 | `finallyDo(h)` contributes exactly one 'finally' descriptor carrying `h`. |
| Descriptors.Flatten | try-catch.ts:32 | A descriptor is in the flattened list exactly when some argument, single or array, contributes it. |
| Descriptors.FlattenAppend | try-catch.ts:32 | Flattening keeps argument order: it distributes over concatenation of argument lists. |
| Descriptors.ExceptListFlattensLikeSeparate | try-catch.ts:65-72 | `except([A, B, ...], h)` flattens to the same descriptors as `except(A, h), except(B, h), ...`. |
| HandlerTable.Register | try-catch.ts:33-43 | One fold step writes the descriptor's handler into its own slot and leaves every other slot (other constructor keys, catch-all, finally) unchanged. |
| HandlerTable.BuildTable | try-catch.ts:33-44 | A slot of the built table is filled exactly when some descriptor in the list writes it. |
| HandlerTable.BuildHandlersMap | try-catch.ts:31-45 | A slot is filled exactly when some argument, single or array, contributes a descriptor that writes it. |
| HandlerTable.LastWriteWins | try-catch.ts:31-45 | Every slot holds the handler of the last descriptor that writes it. This covers constructor keys, the catch-all and the finally alike. |
| HandlerTable.BuildTableAppend | try-catch.ts:31-45 | Building from `a + b` gives `b`'s table where `b` writes a slot and `a`'s table elsewhere: later entries win. |
| HandlerTable.ExceptListEquivalent | try-catch.ts:65-72 | Whatever arguments surround it, registering `except([A, B, ...], h)` builds the same table as registering the separate `except(A, h), except(B, h), ...`. |
| HandlerTable.CatchAllRegisters | try-catch.ts:37-39 | A trailing `catchAll(h)` sets the catch-all to `h`. It leaves the constructor map and the finally as they were. |
| HandlerTable.FinallyDoRegisters | try-catch.ts:40-42 | A trailing `finallyDo(h)` sets the finally to `h`. It leaves the constructor map and the catch-all as they were. |
| Matcher.FindHandler | try-catch.ts:51-62 | A registered class gets its own handler, whatever its ancestors have registered. Any handler found was registered for the class itself or for a class numbered no higher. |
| Matcher.FindHandlerNoneIff | try-catch.ts:52-62 | The result is "no handler" exactly when no category from the concrete class up to and including `Error` is registered. |
| Matcher.FindHandlerIsFirstOnAncestry | try-catch.ts:52-56 | The result is the handler of the first registered category on the ancestry, most specific first. |
| Matcher.SubclassBeforeAncestor | try-catch.ts:52-56 | Once some category on the ancestry is registered, the result is the handler of the first registered category at or before it. A registered ancestor further up is never reached. |
| Matcher.FindHandlerIgnoresOffChain | try-catch.ts:51-62 | Only the ancestry is consulted. Registering a handler for any category off it does not change the result. |
| Matcher.NeverPastError | try-catch.ts:57-59 | For an error whose ancestry reaches `Error`, handlers registered for `Function.prototype` or `Object.prototype` never change the result: the walk never goes above `Error`. |
| Dispatch.Choose | try-catch.ts:84-90 | For an `Error` instance whose ancestry has a registered category, the typed handler of the most specific such category is chosen. Otherwise, including every non-`Error` payload, the catch-all is chosen if registered. Otherwise the value is re-raised. The conditions are stated in both directions. |
| Dispatch.HandleError | try-catch.ts:82-91 | At most one handler is invoked, the chosen one, with the raised value itself. Its outcome and context are the result. With none chosen, the identical value is raised again and the context is untouched. |
| Dispatch.Attempt | try-catch.ts:100-104 | On success the pending outcome and context are the computation's value and context, and only the computation ran. A re-raise also keeps the computation's context. On a raise, re-raising happens exactly when nothing is chosen. Otherwise one handler runs, with the raised value and the computation's context, and its outcome and context become the pending ones. |
| Dispatch.RunFinally | try-catch.ts:105-107 | Without a finally, nothing changes. With one, it is called once, after every other call, with the result and the current context. If it raises, that raise replaces the pending outcome; otherwise the pending outcome stands. |
| Dispatch.TrySync | try-catch.ts:93-108 | The computation runs first and once. At most one error handler runs, only after a raise and with that raised value. The finally handler runs exactly when registered, exactly once and last. It receives the computation's value on success and `undefined` whenever the computation raised. |
| Dispatch.TrySyncSucceeds | try-catch.ts:100-102 | On success `trySync` returns the computation's value unchanged and runs no error handler, unless the finally handler raises. |
| Dispatch.TrySyncRethrows | try-catch.ts:88-90 | An unmatched raise with no catch-all is raised again after cleanup as the identical value, unless the finally handler raises. |
| Dispatch.TrySyncHandles | try-catch.ts:103-104 | A handled raise ends in whatever the chosen handler ends in: its value, or its own raise, which is not caught again, unless the finally handler raises. |
| Dispatch.TrySyncFinallyRaiseWins | try-catch.ts:105-107 | If the finally handler raises when called with the pending context, that raise replaces the pending outcome on every path. |
| Scenarios.BothRegistered | try-catch-sync.spec.ts:38-39 | `except(ErrorB, hb), except(ErrorA, ha)` builds the constructor map `{ErrorB: hb, ErrorA: ha}`. |
| Scenarios.OwnHandlerForErrorA | try-catch-sync.spec.ts:36-41 | With handlers for `ErrorB` and `ErrorA`, an `ErrorA` gets the `ErrorA` handler. |
| Scenarios.SubclassHandlerPreferred | try-catch-sync.spec.ts:43-48 | With handlers for `ErrorB` and `ErrorA`, an `ErrorB` gets the `ErrorB` handler, not its ancestor's. |
| Scenarios.AncestorHandlerCatchesSubclass | try-catch-sync.spec.ts:50-54 | With only `ErrorA` registered, an `ErrorB` gets the `ErrorA` handler. |
| Scenarios.RootHandlerCatchesAnyError | try-catch-sync.spec.ts:56-60 | When only `Error` has a handler, an `OtherError` is given that handler. |
| Scenarios.RethrowsUnhandled | try-catch-sync.spec.ts:62-70 | An `OtherError` with only an `ErrorA` handler and no catch-all is re-raised. |
| Scenarios.CatchAllTakesAnyValue | try-catch-sync.spec.ts:71-77 | A raised non-`Error` value goes to the catch-all. |
| Scenarios.OneHandlerManyTypes | try-catch-sync.spec.ts:101-112 | `except([ErrorA, OtherError], h)` serves both classes with `h`. |
| Scenarios.FinallyRunsOnBothPaths | try-catch-sync.spec.ts:78-100 | The finally handler runs after a returning computation, which yields "ok", and after a handled `ErrorA`, which yields "error_a". It sees `Some("ok")` in the first run and `undefined` in the second. |

## Left out

- `tryAsync` (try-catch.ts:110-125) is not modelled separately. With every await treated as a plain call, it is the same state machine as `trySync`, and `TrySync` stands for both. The scheduling difference is not modelled. At line 121 a handler's deferred result is returned without being awaited, so the finally at line 123 runs before an asynchronous handler settles. Unlike in `trySync`, where cleanup always follows the handler's return, an asynchronous handler may still be pending when cleanup runs.
- Prototype cycles longer than a self-link are not modelled. `Hierarchy` numbers every prototype no higher than its child, so the only cycle it admits is a self-link, which the `proto !== prevProto` guard at try-catch.ts:52 stops. A longer cycle, possible only through a `Proxy` whose `getPrototypeOf` trap lies, would make the source's loop run forever when no category on the cycle is registered or is `Error`.
- Matcher.FindHandler: its own contract states only the own-class case and that a handler found was registered at a category numbered no higher. That the category lies on the ancestry, and is the first registered one there, is stated by `FindHandlerIsFirstOnAncestry` and `FindHandlerNoneIff`; putting `Ancestry` into `FindHandler`'s own contract makes every proof about `FindHandler` much more expensive.
- Runtime reflection (`instanceof`, `e.constructor`, `Object.getPrototypeOf`) becomes explicit data. `Raised.ErrorObject` means `e instanceof Error` holds, and its `ctor` is `e.constructor`. An `Error` instance whose `constructor` property is missing or is not a constructor is not modelled.
- Falsy handlers are not modelled. In the source, a map entry whose handler is `undefined` is skipped and the walk continues, and an `undefined` catch-all or finally counts as absent. The TypeScript types rule these out, and every `HandlerId` stands for a function.
- The contents of the shared context object are not modelled. The fresh `{}` made at line 98 is the `ctx` parameter of `TrySync`, and handlers see it as an abstract state of type `C`.
- Handler bodies are not modelled; `Behaviours` interprets handler tokens as arbitrary total functions. A computation returning `undefined` cannot be told apart from one that raised in what the finally handler receives; the model keeps the two apart (`Some(v)` vs `None`).
- The jest test files are not modelled as code; `Scenarios` restates their example runs.
