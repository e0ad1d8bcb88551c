/** Concrete runs matching the behaviours the repository's own test suite
    exercises, with payloads and context arguments drawn from strings. */
module MiddlewarizerScenarios {
  import opened Messages
  import opened Middlewarizer
  import opened MiddlewarizerProperties

  /** A step that calls `next()` once and returns undefined. */
  function CallsNext(name: string): Step<string> {
    Step(name, [Undefined], Returned(Undefined))
  }

  /** A step that returns `value` without calling `next`. */
  function Silent(name: string, value: Value<string>): Step<string> {
    Step(name, [], Returned(value))
  }

  /** `fn1` calls `next()`, `fn2` calls `next(error)`, no options, outside
      production: the run rejects with the error after logging, in this
      order, the lines the verbose-mode test expects. */
  lemma VerboseModeScenario(error: string)
    ensures var c := Chain([], [CallsNext("fn1"), Step("fn2", [Defined(error)], Returned(Undefined))]);
            var r := Semantics(c, NoOptions(), false);
            && r.outcome == Rejected(ErrorFrom(Defined(error)))
            && Logs(r.events) == [Executing(1, "fn1"), Passing, Executing(2, "fn2"), Failed("fn2")]
  {
    var c := Chain([], [CallsNext("fn1"), Step("fn2", [Defined(error)], Returned(Undefined))]);
    StopAt(c.funcs, 1);
    NextPayloadRouted(c, NoOptions(), false, 1);
    VerboseTrace(c, NoOptions(), false);
  }

  /** The text of the first line of that trace. */
  lemma VerboseModeTextFirstStep()
    ensures LogText(Executing(1, "fn1")) == "Middlewarizer: Exexuting the 1th middleware 'fn1'..."
  {
    assert Decimal(1) == "1";
    assert "Middlewarizer: Exexuting the " + "1" + "th middleware '" + "fn1" + "'..."
        == "Middlewarizer: Exexuting the 1th middleware 'fn1'...";
  }

  /** The text of the second line of that trace. */
  lemma VerboseModeTextPassing()
    ensures LogText(Passing) == "Middlewarizer: Passing wihout error to the next middleware"
  {
  }

  /** The text of the third line of that trace. */
  lemma VerboseModeTextSecondStep()
    ensures LogText(Executing(2, "fn2")) == "Middlewarizer: Exexuting the 2th middleware 'fn2'..."
  {
    assert Decimal(2) == "2";
    assert "Middlewarizer: Exexuting the " + "2" + "th middleware '" + "fn2" + "'..."
        == "Middlewarizer: Exexuting the 2th middleware 'fn2'...";
  }

  /** The text of the last line of that trace. */
  lemma VerboseModeTextFailure()
    ensures LogText(Failed("fn2")) == "Middlewarizer: Failed to pass middleware 'fn2'. Stopped middleware stack."
  {
    assert "Middlewarizer: Failed to pass middleware '" + "fn2" == "Middlewarizer: Failed to pass middleware 'fn2";
    assert "Middlewarizer: Failed to pass middleware 'fn2" + "'. Stopped middleware stack."
        == "Middlewarizer: Failed to pass middleware 'fn2'. Stopped middleware stack.";
  }

  /** `fn1` calls `next()`, `fn2` returns without calling it, `fn3` never
      runs, and one warning names the 2nd function. */
  lemma MissingNextScenario()
    ensures var c := Chain([], [CallsNext("fn1"), Silent("fn2", Undefined), Silent("fn3", Undefined)]);
            var r := Semantics(c, NoOptions(), false);
            && StepsRun(r.events) == [0, 1]
            && Warnings(r.events) == [2]
            && r.outcome == Resolved(Undefined)
  {
    var c := Chain([], [CallsNext("fn1"), Silent("fn2", Undefined), Silent("fn3", Undefined)]);
    MissingNextWarnsUnlessLastOrMuted(c, NoOptions(), false, 1);
    assert Range(0, 2) == [0, 1];
  }

  /** Context arguments "dummy" and "second", both steps call `next()`:
      both steps run, in order, and each is called with those arguments. */
  lemma ArgumentsScenario()
    ensures var c := Chain([Defined("dummy"), Defined("second")], [CallsNext("fn1"), CallsNext("fn2")]);
            var r := Semantics(c, NoOptions(), false);
            && StepsRun(r.events) == [0, 1]
            && forall ev | ev in r.events && ev.StepCalled? :: ev.args == [Defined("dummy"), Defined("second")]
  {
    var c := Chain([Defined("dummy"), Defined("second")], [CallsNext("fn1"), CallsNext("fn2")]);
    AllStepsPassResolveToLast(c, NoOptions(), false);
    ContextForwarded(c, NoOptions(), false);
    assert Range(0, 2) == [0, 1];
  }

  /** `fn1` calls `next()`, `fn2` calls `next("My Error")`: the run rejects
      with that error and `fn3` never runs. */
  lemma StopOnPayloadScenario()
    ensures var c := Chain([Defined("first")], [CallsNext("fn1"), Step("fn2", [Defined("My Error")], Returned(Undefined)),
                                                Silent("fn3", Undefined)]);
            var r := Semantics(c, NoOptions(), false);
            && r.outcome == Rejected(ErrorFrom(Defined("My Error")))
            && StepsRun(r.events) == [0, 1]
  {
    var c := Chain([Defined("first")], [CallsNext("fn1"), Step("fn2", [Defined("My Error")], Returned(Undefined)),
                                        Silent("fn3", Undefined)]);
    NextPayloadRouted(c, NoOptions(), false, 1);
    assert Range(0, 2) == [0, 1];
  }

  /** Two steps that do not call `next` warn once, for the 1st function; a
      step that calls `next()` followed by a last step that does not warns
      never. */
  lemma WarnUnlessLastScenario()
    ensures var c := Chain([], [Silent("fn1", Undefined), Silent("fn2", Undefined)]);
            Warnings(Semantics(c, NoOptions(), false).events) == [1]
    ensures var c := Chain([], [CallsNext("fn3"), Silent("fn4", Undefined)]);
            Warnings(Semantics(c, NoOptions(), false).events) == []
  {
    var c1 := Chain([], [Silent("fn1", Undefined), Silent("fn2", Undefined)]);
    MissingNextWarnsUnlessLastOrMuted(c1, NoOptions(), false, 0);
    var c2 := Chain([], [CallsNext("fn3"), Silent("fn4", Undefined)]);
    MissingNextWarnsUnlessLastOrMuted(c2, NoOptions(), false, 1);
  }

  /** `fn1` calls `next()` and then `next("With or without error")`: the run
      rejects with the protocol error for the 1st function and `fn2` never
      runs. */
  lemma DoubleNextScenario()
    ensures var fn1 := Step("fn1", [Undefined, Defined("With or without error")], Returned(Undefined));
            var c := Chain([], [fn1, Silent("fn2", Undefined)]);
            var r := Semantics(c, NoOptions(), false);
            && r.outcome == Rejected(NextCalledMoreThanOnce(1, "fn1"))
            && StepsRun(r.events) == [0]
  {
    var fn1 := Step("fn1", [Undefined, Defined("With or without error")], Returned(Undefined));
    var c := Chain([], [fn1, Silent("fn2", Undefined)]);
    RepeatedNextRejects(c, NoOptions(), false, 0);
    assert Range(0, 1) == [0];
  }

  /** With context argument "arg one" and an errorHandler, `fn1` calls
      `next(error)` outside production: the handler is called with
      `(error, "arg one")`, the run resolves to undefined although the
      handler returned a value, `fn2` never runs, and the log shows `fn1`
      starting and failing. */
  lemma ErrorHandlerScenario(error: string, handlerResult: Value<string>)
    ensures var c := Chain([Defined("arg one")], [Step("fn1", [Defined(error)], Returned(Undefined)),
                                                  Silent("fn2", Undefined)]);
            var options := Options(Some(Handler(Returned(handlerResult))), false, false);
            var r := Semantics(c, options, false);
            && HandlerCalls(r.events) == [HandlerCalled(Defined(error), [Defined("arg one")])]
            && r.outcome == Resolved(Undefined)
            && StepsRun(r.events) == [0]
            && Logs(r.events) == [Executing(1, "fn1"), Failed("fn1")]
  {
    var c := Chain([Defined("arg one")], [Step("fn1", [Defined(error)], Returned(Undefined)),
                                          Silent("fn2", Undefined)]);
    var options := Options(Some(Handler(Returned(handlerResult))), false, false);
    StopAt(c.funcs, 0);
    NextPayloadRouted(c, options, false, 0);
    VerboseTrace(c, options, false);
    assert Range(0, 1) == [0];
  }

  /** `fn1` calls `next()` and `fn2` returns "return Hello": the run resolves
      to what the last middleware returned. */
  lemma LastResultScenario()
    ensures var c := Chain([], [CallsNext("fn1"), Silent("fn2", Defined("return Hello"))]);
            Semantics(c, NoOptions(), false).outcome == Resolved(Defined("return Hello"))
  {
    var c := Chain([], [CallsNext("fn1"), Silent("fn2", Defined("return Hello"))]);
    MissingNextWarnsUnlessLastOrMuted(c, NoOptions(), false, 1);
  }
}
