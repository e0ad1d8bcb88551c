# middlewarizer in Dafny

A model of the middleware runner in `src/middlewarizer.ts`. The call
`middlewarizer(...args)(...funcs)(options)` runs the middlewares `funcs` one
after another. Each one gets a shared `next` callback and the captured context
arguments `args`. After each middleware settles, the runner looks at two
things: how many times it called `next`, and the last payload it passed. From
those it decides whether to stop with the middleware's result, warn and stop,
reject with the "called more than once" protocol error, route an error through
`handleError`, or go on to the next middleware.

The model has four modules:

- `Messages` (`messages.dfy`) holds the console lines and their exact
  wording, including the spellings "Exexuting" and "wihout" that the tests
  compare against. It also holds the decimal rendering of the 1-based ordinal.
- `Middlewarizer` (`middlewarizer.dfy`) holds the data model and the runner:
  - A middleware is a `Step`. It records the function's `name`, the payloads
    it passes to `next` in order, and how its awaited call settles (returns
    a value or throws one).
  - The `next` closure is the class `Next`. Its fields are the counter
    `nextCallsNumber` and the slot `nextError`.
  - `Invoke` feeds a step's `next` calls to it.
  - `Turn` is the loop body. `Run` is the loop.
  - `HandleError` is `handleError`.
  - `Run` is proved equal to a pure reference semantics, `Semantics`
    (recursive `RunFrom`, driven by the per-turn verdict `Classify`).
  - What a run makes observable is a `Report`: the way the returned promise
    settles (`Outcome`) and the ordered trace of `console.log` lines,
    `console.warn` lines, middleware calls and `errorHandler` calls.
- `MiddlewarizerProperties` (`properties.dfy`) holds the behaviours a run
  guarantees, proved for all chains and options.
- `MiddlewarizerScenarios` (`scenarios.dfy`) holds the runs that
  `src/middlewarizer.test.ts` exercises, stated over string payloads.

Three points of the code that a reader might expect otherwise:

- `handleError` calls the `errorHandler` without returning or awaiting its
  result (line 71). A run whose error reaches a handler that returns
  therefore resolves to `undefined`, not to the handler's value.
  `HandleError` and `ErrorHandlerScenario` state this.
- `verbose` is `options.verbose || NODE_ENV !== "production"` (line 13).
  So `verbose: false` outside production still logs.
  `QuietExactlyInProductionWithoutVerbose` states this.
- When `next` was not called and the warning is muted, the run resolves to
  the middleware's own result (lines 36-37). When the warning is not muted
  and the middleware is not the last, the run warns and resolves to
  `undefined` (lines 38-42).

The console lines, the warning and the protocol error's message are kept
in the trace as structured events (`Log`, `Warn`, `NextCalledMoreThanOnce`).
Each event's doc comment names the `Messages` function that renders its
text, and a read-back lemma per text shows which ordinal and name the text
carries.

## Model

| member | source | states |
|---|---|---|
| Middlewarizer.Run | src/middlewarizer.ts:13-56 | For every chain, options and environment, the loop's outcome and trace are exactly those of the reference semantics `Semantics`. The loop runs with a fresh counter and error slot, and a step that falls through the loop's end resolves to undefined. |
| Middlewarizer.Turn | src/middlewarizer.ts:25-55 | One loop pass stops exactly when the step's verdict is not "advance". When it stops, its outcome and trace are the step's opening followed by that verdict's conclusion. When it advances, it logs the passing line and leaves the counter at 0 with no payload kept. |
| Middlewarizer.Invoke | src/middlewarizer.ts:30 | Calling a step adds one to the `next` counter per `next` call, keeps the last payload (or the old one if `next` was not called), and yields the step's own settlement. |
| Middlewarizer.Next.Call | src/middlewarizer.ts:18-22 | `next(error)` increments the call count and overwrites the kept payload. |
| Middlewarizer.Next.constructor | src/middlewarizer.ts:14-15 | A run starts with no `next` call counted and no payload kept. |
| Middlewarizer.HandleError | src/middlewarizer.ts:60-73 | The run resolves exactly when an `errorHandler` is set and returns, and then it resolves to undefined whatever the handler returned. Without a handler it rejects with the error. A throwing handler's error rejects the run. The handler is called once with `(error, ...args)`. The failure line is logged exactly when verbose. |
| Messages.Decimal | src/middlewarizer.ts:28 | The rendering of an ordinal is a non-empty digit string with no leading zero that denotes that number. |
| Messages.ExecutingTextReadsBack | src/middlewarizer.ts:28 | The executing line is its fixed head, then the decimal digits of the 1-based ordinal, then "th middleware '", the middleware's name and "'...": the ordinal can be read back from the line. |
| Messages.FailedTextReadsBack | src/middlewarizer.ts:69 | The failure line is its fixed head, the middleware's name, then its fixed tail, so the name can be read back from it. |
| Messages.WarningTextReadsBack | src/middlewarizer.ts:39-41 | The missing-`next` warning carries the decimal digits of the 1-based ordinal between its fixed head and its fixed tail. |
| Messages.MultipleNextTextReadsBack | src/middlewarizer.ts:45-47 | The protocol error's message carries the decimal digits of the 1-based ordinal after its fixed head, followed by "th function: " and the function's name, and it ends with that name. |
| MiddlewarizerProperties.RunFromStops | src/middlewarizer.ts:24-56 | A run that reaches step i passes cleanly through every step up to its stopping step, which is the first step from i that does not pass cleanly, or the last step. It ends with that step's turn. |
| MiddlewarizerProperties.RunViews | src/middlewarizer.ts:24-56 | In every non-empty run, the stopping step's verdict decides the outcome, the warnings and the errorHandler calls. The steps called are 0 up to the stopping step, in order. |
| MiddlewarizerProperties.AllStepsPassResolveToLast | src/middlewarizer.ts:53 | When every step calls `next()` exactly once, every step runs in order and the run resolves to what the last step returned. An empty chain resolves to undefined. No warning is written and no handler is called. |
| MiddlewarizerProperties.StepRunsIffPredecessorsPass | src/middlewarizer.ts:24-56 | The steps that run are 0, 1, 2, ... in order, each once. Step j runs if and only if every step before it called `next` exactly once with no payload and returned. |
| MiddlewarizerProperties.NextStepRunsOnlyAfterCleanPass | src/middlewarizer.ts:35-55 | If step i+1 ran, then step i called `next()` exactly once without a payload and returned normally. |
| MiddlewarizerProperties.MissingNextWarnsUnlessLastOrMuted | src/middlewarizer.ts:35-42 | A step reached after clean passes that returns without calling `next` is handled as follows. If it is not the last step and the warning is not muted, there is exactly one warning, naming its ordinal, and the run resolves to undefined. Otherwise there is no warning and the run resolves to the step's result. Either way no later step runs. |
| MiddlewarizerProperties.MissingNextWarningNamesStep | src/middlewarizer.ts:38-42 | When the warning is written, it is the only one, and its text carries the 1-based ordinal of the step that did not call `next`. |
| MiddlewarizerProperties.RepeatedNextRejects | src/middlewarizer.ts:43-48 | A step that calls `next` more than once and returns rejects the run with the protocol error naming its ordinal and name, whatever the payloads. The errorHandler is not called, no warning is written and no later step runs. |
| MiddlewarizerProperties.RepeatedNextMessageNamesStep | src/middlewarizer.ts:44-48 | The rejection of a step that calls `next` more than once carries a message whose ordinal is the step's 1-based position and which ends with the step's name. |
| MiddlewarizerProperties.NextPayloadRouted | src/middlewarizer.ts:50-51 | A step that calls `next` once with a defined payload stops the chain. With no handler the run rejects with that payload. With a handler, the handler is called once with the payload and the context arguments, and the run resolves to undefined unless the handler throws. |
| MiddlewarizerProperties.ThrownErrorRouted | src/middlewarizer.ts:25-33 | A step that throws stops the chain and its error is routed the same way, however often it called `next` before throwing. |
| MiddlewarizerProperties.AtMostOneWarningAndHandlerCall | src/middlewarizer.ts:24-56 | A run writes at most one warning and calls the errorHandler at most once. |
| MiddlewarizerProperties.ContextForwardedFrom | src/middlewarizer.ts:30 | From any step on, every step call and every errorHandler call of the run carries the captured context arguments unchanged. |
| MiddlewarizerProperties.ContextForwarded | src/middlewarizer.ts:30 | Every step call and every errorHandler call of a run receives exactly the captured context arguments. |
| MiddlewarizerProperties.VerboseTrace | src/middlewarizer.ts:26-29 | In verbose mode the log is: the executing and passing lines of each step that passed, then the executing line of the stopping step, then the failure line if that step routes an error. Otherwise nothing is logged. |
| MiddlewarizerProperties.QuietExactlyInProductionWithoutVerbose | src/middlewarizer.ts:13 | A non-empty run logs nothing if and only if the environment is production and the `verbose` option is unset. |
| MiddlewarizerScenarios.MissingNextScenario | src/middlewarizer.test.ts:9-19 | `fn1` calls `next()` and `fn2` does not, so `fn1` and `fn2` run, `fn3` does not, and one warning names the 2nd function. |
| MiddlewarizerScenarios.ArgumentsScenario | src/middlewarizer.test.ts:21-31 | Both steps run and each is called with the context arguments `(dummy, "second")`. The object `{ dummy: "dummy" }` of line 25 is stood in for by the string value "dummy", since the scenarios are stated over string payloads. |
| MiddlewarizerScenarios.StopOnPayloadScenario | src/middlewarizer.test.ts:33-43 | `next("My Error")` in `fn2` rejects the run with that error, and `fn3` never runs. |
| MiddlewarizerScenarios.DoubleNextScenario | src/middlewarizer.test.ts:45-55 | Calling `next` twice in the first step rejects with the protocol error for ordinal 1, and the second step never runs. The step's name "fn1" is a label: a `jest.fn()` mock reports `Function.name` "mockConstructor", and the test only checks that the run rejects. |
| MiddlewarizerScenarios.WarnUnlessLastScenario | src/middlewarizer.test.ts:57-72 | Two silent steps warn exactly once. A passing step followed by a silent last step never warns. |
| MiddlewarizerScenarios.ErrorHandlerScenario | src/middlewarizer.test.ts:74-83 | Outside production, the errorHandler is called exactly once, with `(error, "arg one")`. `fn2` never runs, the run resolves to undefined whatever the handler returned, and the log is the executing line of `fn1` followed by its failure line. |
| MiddlewarizerScenarios.LastResultScenario | src/middlewarizer.test.ts:85-92 | The run resolves to "return Hello", the last middleware's return value. |
| MiddlewarizerScenarios.VerboseModeScenario | src/middlewarizer.test.ts:94-113 | By default outside production, the run rejects with `fn2`'s error after logging, in order: executing `fn1`, passing, executing `fn2`, failed `fn2`. |
| MiddlewarizerScenarios.VerboseModeTextFirstStep | src/middlewarizer.test.ts:101-103 | The first log line reads exactly as the test expects: "Middlewarizer: Exexuting the 1th middleware 'fn1'...". |
| MiddlewarizerScenarios.VerboseModeTextPassing | src/middlewarizer.test.ts:104-106 | The second log line reads exactly "Middlewarizer: Passing wihout error to the next middleware". |
| MiddlewarizerScenarios.VerboseModeTextSecondStep | src/middlewarizer.test.ts:107-109 | The third log line reads exactly "Middlewarizer: Exexuting the 2th middleware 'fn2'...". |
| MiddlewarizerScenarios.VerboseModeTextFailure | src/middlewarizer.test.ts:110-112 | The fourth log line reads exactly "Middlewarizer: Failed to pass middleware 'fn2'. Stopped middleware stack.". |

## Left out

- `async`/`await`: each step is modelled as settling once, after its `next` calls. A step that calls `next` after its promise has settled, or from a timer, is not modelled. Neither is the interleaving of concurrent runs, which share no state anyway.
- Console output is not performed. `console.log` and `console.warn` become `Log` and `Warn` events in the run's trace. Their texts are rendered by `LogText` and `WarningText`, and the protocol error's message by `MultipleNextText`; the read-back lemmas state which ordinal and name each text carries.
- HandleError: the `errorHandler`'s call is neither awaited nor returned (line 71). An async handler whose promise rejects leaves the run resolved to `undefined` and raises an unhandled rejection; that rejection is not modelled.
- `process.env.NODE_ENV` becomes the boolean parameter `production`.
- `new Error(error)` in `handleError`: the rejection carries the routed value itself (`ErrorFrom(error)`). The string conversion of the message is not modelled.
- JavaScript truthiness of the options is not modelled. `errorHandler` is present or absent, and `muteNoNextCallWarning` and `verbose` are booleans. An absent `options` object reads as all three unset.
- `typeof nextError !== "undefined"`: only `undefined` counts as "no payload". Every other value, `null` included, is a `Defined` payload.
- A middleware is an abstract record rather than code: its `next` payloads and its settlement are fixed in advance. `Function.name` is taken as a given string. The `true` that `next` returns is not modelled, because a record cannot react to it.
- The Jest mocks and assertions of `src/middlewarizer.test.ts` are restated as the scenario lemmas above; the harness itself is not modelled.
