/** The middleware runner: `middlewarizer(...args)(...funcs)(options)` runs the
    steps `funcs` one after another, handing each the shared `next` callback and
    the captured context arguments, and decides after every step from the
    number of `next` calls and the last payload whether to stop, to report an
    error or to go on with the following step. */
module Middlewarizer {
  import opened Messages

  datatype Option<T> = None | Some(value: T)

  /** A JavaScript value: `undefined`, or any other value `v`. */
  datatype Value<V> = Undefined | Defined(v: V)

  /** How a call completes: it returns a value or it throws one. A step's call
      is awaited, so for a step this is how its promise settles. */
  datatype Settled<V> = Returned(value: Value<V>) | Raised(error: Value<V>)

  /** One middleware, seen by what it does: under its `name`, it calls `next`
      once per element of `nextArgs` with that payload, in order, and then
      settles. */
  datatype Step<V> = Step(name: string, nextArgs: seq<Value<V>>, settles: Settled<V>)

  /** The `errorHandler` option, seen by how its synchronous call completes:
      `handleError` neither awaits nor returns that call, so a handler that
      returns a promise counts as `Returned` whatever the promise does. */
  datatype Handler<V> = Handler(settles: Settled<V>)

  /** The run options; an absent `options` object reads as all three unset. */
  datatype Options<V> = Options(
    errorHandler: Option<Handler<V>>,
    muteNoNextCallWarning: bool,
    verbose: bool)

  /** `middlewarizer(...args)(...funcs)`: the captured context arguments and the steps. */
  datatype Chain<V> = Chain(args: seq<Value<V>>, funcs: seq<Step<V>>)

  /** Why a run's promise rejects. */
  datatype Rejection<V> =
    | NextCalledMoreThanOnce(ordinal: nat, name: string)  // new Error(MultipleNextText(ordinal, name))
    | ErrorFrom(error: Value<V>)                          // `new Error(error)` from handleError
    | HandlerThrew(error: Value<V>)                       // the errorHandler itself threw

  datatype Outcome<V> = Resolved(value: Value<V>) | Rejected(reason: Rejection<V>)

  /** What a run makes observable, in order: console lines and the calls it makes. */
  datatype Event<V> =
    | Log(line: LogLine)                                  // console.log(LogText(line))
    | Warn(ordinal: nat)                                  // console.warn(WarningText(ordinal))
    | StepCalled(index: nat, args: seq<Value<V>>)         // funcs[index](next, ...args)
    | HandlerCalled(error: Value<V>, args: seq<Value<V>>) // errorHandler(error, ...args)

  datatype Report<V> = Report(outcome: Outcome<V>, events: seq<Event<V>>)

  function NoOptions<V>(): Options<V> {
    Options(None, false, false)
  }

  /** The `verbose` flag of a run: the option, or any environment other than production. */
  function Verbose<V>(options: Options<V>, production: bool): bool {
    options.verbose || !production
  }

  // ---------------------------------------------------------------------------
  // Views of a trace

  /** The indices of the steps that were called, in call order. */
  function StepsRun<V>(events: seq<Event<V>>): seq<nat> {
    if events == [] then []
    else (if events[0].StepCalled? then [events[0].index] else []) + StepsRun(events[1..])
  }

  /** The console.log lines. */
  function Logs<V>(events: seq<Event<V>>): seq<LogLine> {
    if events == [] then []
    else (if events[0].Log? then [events[0].line] else []) + Logs(events[1..])
  }

  /** The ordinals named by console.warn lines. */
  function Warnings<V>(events: seq<Event<V>>): seq<nat> {
    if events == [] then []
    else (if events[0].Warn? then [events[0].ordinal] else []) + Warnings(events[1..])
  }

  /** The calls of the errorHandler. */
  function HandlerCalls<V>(events: seq<Event<V>>): seq<Event<V>> {
    if events == [] then []
    else (if events[0].HandlerCalled? then [events[0]] else []) + HandlerCalls(events[1..])
  }

  /** Each view of a trace distributes over concatenation. */
  lemma ViewsAppend<V>(a: seq<Event<V>>, b: seq<Event<V>>)
    ensures StepsRun(a + b) == StepsRun(a) + StepsRun(b)
    ensures Logs(a + b) == Logs(a) + Logs(b)
    ensures Warnings(a + b) == Warnings(a) + Warnings(b)
    ensures HandlerCalls(a + b) == HandlerCalls(a) + HandlerCalls(b)
  {
    StepsRunAppend(a, b);
    LogsAppend(a, b);
    WarningsAppend(a, b);
    HandlerCallsAppend(a, b);
  }

  lemma {:induction false} StepsRunAppend<V>(a: seq<Event<V>>, b: seq<Event<V>>)
    ensures StepsRun(a + b) == StepsRun(a) + StepsRun(b)
  {
    if a == [] {
      assert a + b == b;
    } else {
      assert (a + b)[0] == a[0];
      assert (a + b)[1..] == a[1..] + b;
      StepsRunAppend(a[1..], b);
    }
  }

  lemma {:induction false} LogsAppend<V>(a: seq<Event<V>>, b: seq<Event<V>>)
    ensures Logs(a + b) == Logs(a) + Logs(b)
  {
    if a == [] {
      assert a + b == b;
    } else {
      assert (a + b)[0] == a[0];
      assert (a + b)[1..] == a[1..] + b;
      LogsAppend(a[1..], b);
    }
  }

  lemma {:induction false} WarningsAppend<V>(a: seq<Event<V>>, b: seq<Event<V>>)
    ensures Warnings(a + b) == Warnings(a) + Warnings(b)
  {
    if a == [] {
      assert a + b == b;
    } else {
      assert (a + b)[0] == a[0];
      assert (a + b)[1..] == a[1..] + b;
      WarningsAppend(a[1..], b);
    }
  }

  lemma {:induction false} HandlerCallsAppend<V>(a: seq<Event<V>>, b: seq<Event<V>>)
    ensures HandlerCalls(a + b) == HandlerCalls(a) + HandlerCalls(b)
  {
    if a == [] {
      assert a + b == b;
    } else {
      assert (a + b)[0] == a[0];
      assert (a + b)[1..] == a[1..] + b;
      HandlerCallsAppend(a[1..], b);
    }
  }

  // ---------------------------------------------------------------------------
  // The `next` callback and one step's call

  /** The state the `next` closure shares with the run loop. */
  class Next<V> {
    var calls: nat          // nextCallsNumber
    var error: Value<V>     // nextError

    constructor ()
      ensures calls == 0 && error == Undefined
    {
      calls := 0;
      error := Undefined;
    }

    /** `next(error)`: count the call and keep its payload. */
    method Call(payload: Value<V>)
      modifies this
      ensures calls == old(calls) + 1 && error == payload
    {
      calls := calls + 1;
      error := payload;
    }
  }

  /** Calls `step` with `next`: the step's `next` calls update the shared
      state, then the step settles. */
  method Invoke<V>(step: Step<V>, next: Next<V>) returns (settled: Settled<V>)
    modifies next
    ensures next.calls == old(next.calls) + |step.nextArgs|
    ensures next.error == if step.nextArgs == [] then old(next.error) else step.nextArgs[|step.nextArgs| - 1]
    ensures settled == step.settles
  {
    for j := 0 to |step.nextArgs|
      invariant next.calls == old(next.calls) + j
      invariant next.error == if j == 0 then old(next.error) else step.nextArgs[j - 1]
    {
      next.Call(step.nextArgs[j]);
    }
    settled := step.settles;
  }

  // ---------------------------------------------------------------------------
  // handleError

  /** Logs the failure when verbose, then either calls the errorHandler with
      `(error, ...args)` and resolves to undefined whatever the handler
      returns, or rejects with `new Error(error)`. */
  function HandleError<V>(error: Value<V>, options: Options<V>, verbose: bool, name: string,
                          args: seq<Value<V>>): (r: Report<V>)
    ensures r.outcome.Resolved? <==>
              options.errorHandler.Some? && options.errorHandler.value.settles.Returned?
    ensures r.outcome.Resolved? ==> r.outcome.value == Undefined
    ensures options.errorHandler.None? ==> r.outcome == Rejected(ErrorFrom(error))
    ensures options.errorHandler.Some? && options.errorHandler.value.settles.Raised? ==>
              r.outcome == Rejected(HandlerThrew(options.errorHandler.value.settles.error))
    ensures HandlerCalls(r.events) ==
              if options.errorHandler.Some? then [HandlerCalled(error, args)] else []
    ensures Logs(r.events) == if verbose then [Failed(name)] else []
    ensures StepsRun(r.events) == [] && Warnings(r.events) == []
  {
    var logged: seq<Event<V>> := if verbose then [Log(Failed(name))] else [];
    match options.errorHandler
    case None =>
      Report(Rejected(ErrorFrom(error)), logged)
    case Some(handler) =>
      var events := logged + [HandlerCalled(error, args)];
      ViewsAppend(logged, [HandlerCalled(error, args)]);
      match handler.settles
      case Returned(_) => Report(Resolved(Undefined), events)
      case Raised(e) => Report(Rejected(HandlerThrew(e)), events)
  }

  // ---------------------------------------------------------------------------
  // Reference semantics of a run

  /** What a step's turn comes to, judged from the step alone. */
  datatype Verdict<V> =
    | Threw(error: Value<V>)        // the step threw: route the error
    | Finish(result: Value<V>)      // stop with the step's result
    | Unacknowledged                // warn and stop with undefined
    | Overcalled                    // next called more than once: protocol error
    | Reported(payload: Value<V>)   // a defined payload passed to next: route it
    | Advance                       // go on with the following step

  /** The verdict on a step's turn, given whether it is the last step and
      whether the missing-next warning is muted. */
  function Classify<V>(step: Step<V>, isLast: bool, mute: bool): Verdict<V> {
    match step.settles
    case Raised(e) => Threw(e)
    case Returned(v) =>
      if |step.nextArgs| == 0 then (if mute || isLast then Finish(v) else Unacknowledged)
      else if |step.nextArgs| > 1 then Overcalled
      else if step.nextArgs[0].Defined? then Reported(step.nextArgs[0])
      else if isLast then Finish(v)
      else Advance
  }

  /** What opens step i's turn: the verbose trace line, then the call itself. */
  function Opening<V>(verbose: bool, i: nat, name: string, args: seq<Value<V>>): seq<Event<V>> {
    (if verbose then [Log(Executing(i + 1, name))] else []) + [StepCalled(i, args)]
  }

  /** The whole of a turn that advances: its opening, then the verbose passing line. */
  function Passed<V>(verbose: bool, i: nat, name: string, args: seq<Value<V>>): seq<Event<V>> {
    Opening(verbose, i, name, args) + (if verbose then [Log(Passing)] else [])
  }

  /** The end of a run whose turn at step i stops the chain with verdict v. */
  function Conclude<V>(c: Chain<V>, options: Options<V>, verbose: bool, i: nat, v: Verdict<V>): Report<V>
    requires i < |c.funcs| && !v.Advance?
  {
    match v
    case Threw(e) => HandleError(e, options, verbose, c.funcs[i].name, c.args)
    case Reported(p) => HandleError(p, options, verbose, c.funcs[i].name, c.args)
    case Finish(result) => Report(Resolved(result), [])
    case Unacknowledged => Report(Resolved(Undefined), [Warn(i + 1)])
    case Overcalled => Report(Rejected(NextCalledMoreThanOnce(i + 1, c.funcs[i].name)), [])
  }

  /** The run from step i on, given that every turn starts with no `next` call
      counted and no payload kept. */
  function RunFrom<V>(c: Chain<V>, options: Options<V>, verbose: bool, i: nat): Report<V>
    requires i <= |c.funcs|
    decreases |c.funcs| - i
  {
    if i == |c.funcs| then Report(Resolved(Undefined), [])
    else
      var step := c.funcs[i];
      var opening := Opening(verbose, i, step.name, c.args);
      var v := Classify(step, i == |c.funcs| - 1, options.muteNoNextCallWarning);
      if v.Advance? then
        var rest := RunFrom(c, options, verbose, i + 1);
        Report(rest.outcome, Passed(verbose, i, step.name, c.args) + rest.events)
      else
        var last := Conclude(c, options, verbose, i, v);
        Report(last.outcome, opening + last.events)
  }

  lemma Associative<T>(a: seq<T>, b: seq<T>, c: seq<T>)
    ensures a + (b + c) == a + b + c
  {
  }

  /** The reference semantics of `middlewarizer(...c.args)(...c.funcs)(options)`
      run in an environment that is or is not production. */
  function Semantics<V>(c: Chain<V>, options: Options<V>, production: bool): Report<V> {
    RunFrom(c, options, Verbose(options, production), 0)
  }

  // ---------------------------------------------------------------------------
  // The run loop

  /** One pass of the loop body for step i: announce and call the step, then
      judge the turn from the `next` counter and the kept payload. `stop`
      tells whether the loop returns `outcome`; otherwise the counter is
      reset for the following step. */
  method Turn<V>(c: Chain<V>, options: Options<V>, verbose: bool, i: nat, next: Next<V>)
    returns (stop: bool, outcome: Outcome<V>, events: seq<Event<V>>)
    requires i < |c.funcs|
    requires next.calls == 0 && next.error == Undefined
    modifies next
    ensures var v := Classify(c.funcs[i], i == |c.funcs| - 1, options.muteNoNextCallWarning);
            && stop == !v.Advance?
            && (stop ==> var last := Conclude(c, options, verbose, i, v);
                         outcome == last.outcome &&
                         events == Opening(verbose, i, c.funcs[i].name, c.args) + last.events)
            && (!stop ==> events == Passed(verbose, i, c.funcs[i].name, c.args) &&
                          next.calls == 0 && next.error == Undefined)
  {
    var funcs, args := c.funcs, c.args;
    events := if verbose then [Log(Executing(i + 1, funcs[i].name))] else [];
    events := events + [StepCalled(i, args)];
    var settled := Invoke(funcs[i], next);
    if settled.Raised? {
      var routed := HandleError(settled.error, options, verbose, funcs[i].name, args);
      return true, routed.outcome, events + routed.events;
    }
    var result := settled.value;

    if next.calls == 0 {
      if options.muteNoNextCallWarning || i == |funcs| - 1 {
        return true, Resolved(result), events;
      }
      return true, Resolved(Undefined), events + [Warn(i + 1)];
    } else if next.calls > 1 {
      return true, Rejected(NextCalledMoreThanOnce(i + 1, funcs[i].name)), events;
    }

    if next.error.Defined? {
      var routed := HandleError(next.error, options, verbose, funcs[i].name, args);
      return true, routed.outcome, events + routed.events;
    }

    if i == |funcs| - 1 {
      return true, Resolved(result), events;
    }
    if verbose {
      events := events + [Log(Passing)];
    }
    next.calls := 0;
    stop, outcome := false, Resolved(Undefined);
  }

  /** The run closure: the step loop, with the `next` counter and error slot
      created afresh for the run. */
  method Run<V>(c: Chain<V>, options: Options<V>, production: bool)
    returns (outcome: Outcome<V>, events: seq<Event<V>>)
    ensures Report(outcome, events) == Semantics(c, options, production)
  {
    var verbose := Verbose(options, production);
    var next := new Next<V>();
    events := [];
    for i := 0 to |c.funcs|
      invariant next.calls == 0 && next.error == Undefined
      invariant Semantics(c, options, production) ==
                Report(RunFrom(c, options, verbose, i).outcome, events + RunFrom(c, options, verbose, i).events)
    {
      var stop, o, turn := Turn(c, options, verbose, i, next);
      if stop {
        return o, events + turn;
      }
      ghost var rest := RunFrom(c, options, verbose, i + 1);
      Associative(events, turn, rest.events);
      events := events + turn;
    }
    outcome := Resolved(Undefined);
  }
}
