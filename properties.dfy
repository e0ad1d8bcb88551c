/** What a run of the middleware chain guarantees, proved about the reference
    semantics that the run loop refines. */
module MiddlewarizerProperties {
  import opened Messages
  import opened Middlewarizer

  /** A step hands over cleanly: it returns after calling `next` exactly once
      with an undefined payload. */
  predicate Passes<V>(step: Step<V>) {
    step.settles.Returned? && |step.nextArgs| == 1 && step.nextArgs[0].Undefined?
  }

  /** The turn of a step advances exactly when the step passes cleanly and is
      not the last one. */
  lemma AdvanceIffPasses<V>(step: Step<V>, isLast: bool, mute: bool)
    ensures Classify(step, isLast, mute).Advance? <==> Passes(step) && !isLast
  {
  }

  /** The index of the step at which a run that reaches step i stops: the first
      step from i on that does not pass cleanly, or the last step. */
  function StopFrom<V>(funcs: seq<Step<V>>, i: nat): (s: nat)
    requires i < |funcs|
    ensures i <= s < |funcs|
    ensures forall k | i <= k < s :: Passes(funcs[k])
    ensures s == |funcs| - 1 || !Passes(funcs[s])
    decreases |funcs| - i
  {
    if i == |funcs| - 1 || !Passes(funcs[i]) then i else StopFrom(funcs, i + 1)
  }

  /** The stopping step is determined by the clean prefix before it. */
  lemma StopAt<V>(funcs: seq<Step<V>>, i: nat)
    requires i < |funcs|
    requires forall k | 0 <= k < i :: Passes(funcs[k])
    requires i == |funcs| - 1 || !Passes(funcs[i])
    ensures StopFrom(funcs, 0) == i
  {
  }

  /** The indices i, i + 1, ..., j - 1. */
  function Range(i: nat, j: nat): (r: seq<nat>)
    requires i <= j
    ensures |r| == j - i
    ensures forall k | 0 <= k < |r| :: r[k] == i + k
    decreases j - i
  {
    if i == j then [] else [i] + Range(i + 1, j)
  }

  /** The trace of the turns of steps i .. j - 1, all of which advanced. */
  function PassedTurns<V>(c: Chain<V>, verbose: bool, i: nat, j: nat): seq<Event<V>>
    requires i <= j <= |c.funcs|
    decreases j - i
  {
    if i == j then [] else Passed(verbose, i, c.funcs[i].name, c.args) + PassedTurns(c, verbose, i + 1, j)
  }

  /** The verbose lines of the turns of steps i .. j - 1, all of which advanced. */
  function PassLogs<V>(c: Chain<V>, i: nat, j: nat): seq<LogLine>
    requires i <= j <= |c.funcs|
    decreases j - i
  {
    if i == j then [] else [Executing(i + 1, c.funcs[i].name), Passing] + PassLogs(c, i + 1, j)
  }

  /** The verdict on the turn of step s. */
  function VerdictAt<V>(c: Chain<V>, options: Options<V>, s: nat): Verdict<V>
    requires s < |c.funcs|
  {
    Classify(c.funcs[s], s == |c.funcs| - 1, options.muteNoNextCallWarning)
  }

  /** The error a verdict hands to handleError, if any. */
  function RoutedError<V>(v: Verdict<V>): Option<Value<V>> {
    match v
    case Threw(e) => Some(e)
    case Reported(p) => Some(p)
    case _ => None
  }

  /** The last turn of a run that stops at step s, with the end of the run. */
  function Finale<V>(c: Chain<V>, options: Options<V>, verbose: bool, s: nat): Report<V>
    requires s < |c.funcs| && (s == |c.funcs| - 1 || !Passes(c.funcs[s]))
  {
    var last := Conclude(c, options, verbose, s, VerdictAt(c, options, s));
    Report(last.outcome, Opening(verbose, s, c.funcs[s].name, c.args) + last.events)
  }

  // ---------------------------------------------------------------------------
  // The shape of every run

  /** A turn that stops the chain ends the run. */
  lemma StopTurn<V>(c: Chain<V>, options: Options<V>, verbose: bool, i: nat)
    requires i < |c.funcs| && (i == |c.funcs| - 1 || !Passes(c.funcs[i]))
    ensures RunFrom(c, options, verbose, i) == Finale(c, options, verbose, i)
  {
    AdvanceIffPasses(c.funcs[i], i == |c.funcs| - 1, options.muteNoNextCallWarning);
  }

  /** A turn that passes cleanly is followed by the rest of the run. */
  lemma PassTurn<V>(c: Chain<V>, options: Options<V>, verbose: bool, i: nat)
    requires i < |c.funcs| - 1 && Passes(c.funcs[i])
    ensures var rest := RunFrom(c, options, verbose, i + 1);
            RunFrom(c, options, verbose, i) == Report(rest.outcome, Passed(verbose, i, c.funcs[i].name, c.args) + rest.events)
  {
    AdvanceIffPasses(c.funcs[i], false, options.muteNoNextCallWarning);
  }

  /** A run that reaches step i passes cleanly through the steps before its
      stopping step and ends with the turn of that step. */
  lemma {:induction false} RunFromStops<V>(c: Chain<V>, options: Options<V>, verbose: bool, i: nat)
    requires i < |c.funcs|
    ensures var s := StopFrom(c.funcs, i);
            var f := Finale(c, options, verbose, s);
            RunFrom(c, options, verbose, i) == Report(f.outcome, PassedTurns(c, verbose, i, s) + f.events)
    decreases |c.funcs| - i
  {
    var s := StopFrom(c.funcs, i);
    var f := Finale(c, options, verbose, s);
    if s == i {
      StopTurn(c, options, verbose, i);
      assert PassedTurns(c, verbose, i, s) + f.events == f.events;
    } else {
      assert StopFrom(c.funcs, i + 1) == s;
      RunFromStops(c, options, verbose, i + 1);
      PassThenStop(c, options, verbose, i, s);
    }
  }

  /** The inductive step of RunFromStops: a clean pass in front of a run
      that stops at step s. */
  lemma PassThenStop<V>(c: Chain<V>, options: Options<V>, verbose: bool, i: nat, s: nat)
    requires i < s < |c.funcs| && Passes(c.funcs[i])
    requires s == |c.funcs| - 1 || !Passes(c.funcs[s])
    requires var f := Finale(c, options, verbose, s);
             RunFrom(c, options, verbose, i + 1) == Report(f.outcome, PassedTurns(c, verbose, i + 1, s) + f.events)
    ensures var f := Finale(c, options, verbose, s);
            RunFrom(c, options, verbose, i) == Report(f.outcome, PassedTurns(c, verbose, i, s) + f.events)
  {
    var f := Finale(c, options, verbose, s);
    PassTurn(c, options, verbose, i);
    var turn := Passed(verbose, i, c.funcs[i].name, c.args);
    assert PassedTurns(c, verbose, i, s) == turn + PassedTurns(c, verbose, i + 1, s);
    Associative(turn, PassedTurns(c, verbose, i + 1, s), f.events);
  }

  /** What one passed turn shows. */
  lemma PassedViews<V>(verbose: bool, i: nat, name: string, args: seq<Value<V>>)
    ensures var t := Passed(verbose, i, name, args);
            && StepsRun(t) == [i]
            && Warnings(t) == [] && HandlerCalls(t) == []
            && Logs(t) == if verbose then [Executing(i + 1, name), Passing] else []
  {
    var passLine: seq<Event<V>> := if verbose then [Log(Passing)] else [];
    OpeningViews(verbose, i, name, args);
    ViewsAppend(Opening(verbose, i, name, args), passLine);
  }

  lemma {:induction false} PassedTurnsViews<V>(c: Chain<V>, verbose: bool, i: nat, j: nat)
    requires i <= j <= |c.funcs|
    ensures var t := PassedTurns(c, verbose, i, j);
            && StepsRun(t) == Range(i, j)
            && Warnings(t) == [] && HandlerCalls(t) == []
            && Logs(t) == if verbose then PassLogs(c, i, j) else []
    decreases j - i
  {
    if i < j {
      PassedTurnsViews(c, verbose, i + 1, j);
      var turn := Passed(verbose, i, c.funcs[i].name, c.args);
      PassedViews(verbose, i, c.funcs[i].name, c.args);
      ViewsAppend(turn, PassedTurns(c, verbose, i + 1, j));
      assert PassedTurns(c, verbose, i, j) == turn + PassedTurns(c, verbose, i + 1, j);
    }
  }

  lemma OpeningViews<V>(verbose: bool, i: nat, name: string, args: seq<Value<V>>)
    ensures var t := Opening(verbose, i, name, args);
            && StepsRun(t) == [i]
            && Warnings(t) == [] && HandlerCalls(t) == []
            && Logs(t) == if verbose then [Executing(i + 1, name)] else []
  {
    ViewsAppend(if verbose then [Log(Executing(i + 1, name))] else [], [StepCalled(i, args)]);
  }

  lemma ConcludeViews<V>(c: Chain<V>, options: Options<V>, verbose: bool, s: nat, v: Verdict<V>)
    requires s < |c.funcs| && !v.Advance?
    ensures var t := Conclude(c, options, verbose, s, v).events;
            && StepsRun(t) == []
            && Warnings(t) == (if v.Unacknowledged? then [s + 1] else [])
            && HandlerCalls(t) ==
                 (if RoutedError(v).Some? && options.errorHandler.Some?
                  then [HandlerCalled(RoutedError(v).value, c.args)] else [])
            && Logs(t) == (if verbose && RoutedError(v).Some? then [Failed(c.funcs[s].name)] else [])
  {
  }

  lemma FinaleViews<V>(c: Chain<V>, options: Options<V>, verbose: bool, s: nat)
    requires s < |c.funcs| && (s == |c.funcs| - 1 || !Passes(c.funcs[s]))
    ensures var f := Finale(c, options, verbose, s);
            var v := VerdictAt(c, options, s);
            var name := c.funcs[s].name;
            && StepsRun(f.events) == [s]
            && Warnings(f.events) == (if v.Unacknowledged? then [s + 1] else [])
            && HandlerCalls(f.events) ==
                 (if RoutedError(v).Some? && options.errorHandler.Some?
                  then [HandlerCalled(RoutedError(v).value, c.args)] else [])
            && Logs(f.events) ==
                 (if verbose then [Executing(s + 1, name)] else []) +
                 (if verbose && RoutedError(v).Some? then [Failed(name)] else [])
  {
    var v := VerdictAt(c, options, s);
    var name := c.funcs[s].name;
    AdvanceIffPasses(c.funcs[s], s == |c.funcs| - 1, options.muteNoNextCallWarning);
    var last := Conclude(c, options, verbose, s, v);
    OpeningViews(verbose, s, name, c.args);
    ConcludeViews(c, options, verbose, s, v);
    ViewsAppend(Opening(verbose, s, name, c.args), last.events);
  }

  /** A non-empty run passes cleanly through the steps before its stopping
      step and ends with the turn of that step. */
  lemma RunShape<V>(c: Chain<V>, options: Options<V>, production: bool)
    requires |c.funcs| > 0
    ensures var s := StopFrom(c.funcs, 0);
            var verbose := Verbose(options, production);
            var f := Finale(c, options, verbose, s);
            && !VerdictAt(c, options, s).Advance?
            && Semantics(c, options, production) == Report(f.outcome, PassedTurns(c, verbose, 0, s) + f.events)
  {
    var s := StopFrom(c.funcs, 0);
    AdvanceIffPasses(c.funcs[s], s == |c.funcs| - 1, options.muteNoNextCallWarning);
    RunFromStops(c, options, Verbose(options, production), 0);
  }

  /** What every non-empty run shows: its outcome, the steps that ran, the
      warnings and the errorHandler calls, all decided by the stopping step
      and its verdict. */
  lemma RunViews<V>(c: Chain<V>, options: Options<V>, production: bool)
    requires |c.funcs| > 0
    ensures var r := Semantics(c, options, production);
            var s := StopFrom(c.funcs, 0);
            var v := VerdictAt(c, options, s);
            && !v.Advance?
            && r.outcome == Conclude(c, options, Verbose(options, production), s, v).outcome
            && StepsRun(r.events) == Range(0, s + 1)
            && Warnings(r.events) == (if v.Unacknowledged? then [s + 1] else [])
            && HandlerCalls(r.events) ==
                 (if RoutedError(v).Some? && options.errorHandler.Some?
                  then [HandlerCalled(RoutedError(v).value, c.args)] else [])
  {
    var s := StopFrom(c.funcs, 0);
    var verbose := Verbose(options, production);
    RunShape(c, options, production);
    PassedTurnsViews(c, verbose, 0, s);
    FinaleViews(c, options, verbose, s);
    ViewsAppend(PassedTurns(c, verbose, 0, s), Finale(c, options, verbose, s).events);
    RangeAppend(0, s);
  }

  lemma {:induction false} RangeAppend(i: nat, j: nat)
    requires i <= j
    ensures Range(i, j) + [j] == Range(i, j + 1)
    decreases j - i
  {
    if i < j {
      RangeAppend(i + 1, j);
    }
  }

  // ---------------------------------------------------------------------------
  // The promised behaviours

  /** When every step calls `next` exactly once without a payload, every step
      runs, in order, and the run resolves to what the last step returned;
      an empty chain resolves to undefined. */
  lemma AllStepsPassResolveToLast<V>(c: Chain<V>, options: Options<V>, production: bool)
    requires forall k | 0 <= k < |c.funcs| :: Passes(c.funcs[k])
    ensures var r := Semantics(c, options, production);
            && r.outcome.Resolved?
            && (c.funcs == [] ==> r.outcome.value == Undefined)
            && (c.funcs != [] ==> c.funcs[|c.funcs| - 1].settles == Returned(r.outcome.value))
            && StepsRun(r.events) == Range(0, |c.funcs|)
            && Warnings(r.events) == [] && HandlerCalls(r.events) == []
  {
    if c.funcs != [] {
      StopAt(c.funcs, |c.funcs| - 1);
      RunViews(c, options, production);
    }
  }

  /** A step runs exactly when every step before it passed cleanly; the steps
      that run are 0, 1, 2, ... in that order, each once. */
  lemma StepRunsIffPredecessorsPass<V>(c: Chain<V>, options: Options<V>, production: bool)
    ensures var ran := StepsRun(Semantics(c, options, production).events);
            && ran == Range(0, |ran|)
            && forall j | 0 <= j < |c.funcs| ::
                 j in ran <==> forall k | 0 <= k < j :: Passes(c.funcs[k])
  {
    if c.funcs != [] {
      var s := StopFrom(c.funcs, 0);
      StepsRunUpToStop(c, options, production);
      forall j | 0 <= j < |c.funcs|
        ensures CleanBefore(c.funcs, j) <==> j <= s
      {
        CleanPrefixIffBeforeStop(c.funcs, j);
      }
      var ran := StepsRun(Semantics(c, options, production).events);
      assert ran == Range(0, s + 1);
      assert forall j | 0 <= j < |c.funcs| :: CleanBefore(c.funcs, j) <==> j <= s;
      PrefixRunsIffClean(c.funcs, s, ran);
    }
  }

  /** The prefix 0 .. s of the steps, s the stopping step, holds exactly the
      steps whose predecessors all pass cleanly. */
  lemma PrefixRunsIffClean<V>(funcs: seq<Step<V>>, s: nat, ran: seq<nat>)
    requires s < |funcs| && ran == Range(0, s + 1)
    requires forall j | 0 <= j < |funcs| :: CleanBefore(funcs, j) <==> j <= s
    ensures forall j | 0 <= j < |funcs| :: j in ran <==> CleanBefore(funcs, j)
  {
    forall j | 0 <= j < |funcs|
      ensures j in ran <==> CleanBefore(funcs, j)
    {
      InRange(0, s + 1, j);
    }
  }

  /** Every step before step j passes cleanly. */
  predicate CleanBefore<V>(funcs: seq<Step<V>>, j: nat)
    requires j <= |funcs|
  {
    forall k | 0 <= k < j :: Passes(funcs[k])
  }

  /** The steps called in a non-empty run are 0 up to the stopping step. */
  lemma StepsRunUpToStop<V>(c: Chain<V>, options: Options<V>, production: bool)
    requires |c.funcs| > 0
    ensures StepsRun(Semantics(c, options, production).events) == Range(0, StopFrom(c.funcs, 0) + 1)
  {
    RunViews(c, options, production);
  }

  lemma InRange(i: nat, j: nat, x: nat)
    requires i <= j
    ensures x in Range(i, j) <==> i <= x < j
  {
    if i <= x < j {
      assert Range(i, j)[x - i] == x;
    }
  }

  /** Every step before step j passes cleanly exactly when j is at most the
      stopping step. */
  lemma CleanPrefixIffBeforeStop<V>(funcs: seq<Step<V>>, j: nat)
    requires j < |funcs|
    ensures (forall k | 0 <= k < j :: Passes(funcs[k])) <==> j <= StopFrom(funcs, 0)
  {
    var s := StopFrom(funcs, 0);
    if s < j {
      assert !Passes(funcs[s]);
    }
  }

  /** The following step runs only after the current one passed cleanly. */
  lemma NextStepRunsOnlyAfterCleanPass<V>(c: Chain<V>, options: Options<V>, production: bool, i: nat)
    requires i + 1 < |c.funcs|
    requires i + 1 in StepsRun(Semantics(c, options, production).events)
    ensures Passes(c.funcs[i])
  {
    StepRunsIffPredecessorsPass(c, options, production);
  }

  /** A step that returns without calling `next`, reached after clean passes:
      a non-last step warns once, naming its 1-based ordinal, and the run
      resolves to undefined, unless the warning is muted; the last step, or
      any step with the warning muted, ends the run with its own result and
      no warning. */
  lemma MissingNextWarnsUnlessLastOrMuted<V>(c: Chain<V>, options: Options<V>, production: bool, i: nat)
    requires i < |c.funcs|
    requires forall k | 0 <= k < i :: Passes(c.funcs[k])
    requires c.funcs[i].settles.Returned? && c.funcs[i].nextArgs == []
    ensures var r := Semantics(c, options, production);
            && StepsRun(r.events) == Range(0, i + 1)
            && HandlerCalls(r.events) == []
            && if !options.muteNoNextCallWarning && i < |c.funcs| - 1
               then r.outcome == Resolved(Undefined) && Warnings(r.events) == [i + 1]
               else r.outcome == Resolved(c.funcs[i].settles.value) && Warnings(r.events) == []
  {
    if !options.muteNoNextCallWarning && i < |c.funcs| - 1 {
      MissingNextWarns(c, options, production, i);
    } else {
      MissingNextFinishes(c, options, production, i);
    }
  }

  lemma MissingNextWarns<V>(c: Chain<V>, options: Options<V>, production: bool, i: nat)
    requires i < |c.funcs| - 1 && !options.muteNoNextCallWarning
    requires forall k | 0 <= k < i :: Passes(c.funcs[k])
    requires c.funcs[i].settles.Returned? && c.funcs[i].nextArgs == []
    ensures var r := Semantics(c, options, production);
            && StepsRun(r.events) == Range(0, i + 1)
            && HandlerCalls(r.events) == []
            && r.outcome == Resolved(Undefined) && Warnings(r.events) == [i + 1]
  {
    StopAt(c.funcs, i);
    assert VerdictAt(c, options, i) == Unacknowledged;
    RunViews(c, options, production);
  }

  lemma MissingNextFinishes<V>(c: Chain<V>, options: Options<V>, production: bool, i: nat)
    requires i < |c.funcs| && (options.muteNoNextCallWarning || i == |c.funcs| - 1)
    requires forall k | 0 <= k < i :: Passes(c.funcs[k])
    requires c.funcs[i].settles.Returned? && c.funcs[i].nextArgs == []
    ensures var r := Semantics(c, options, production);
            && StepsRun(r.events) == Range(0, i + 1)
            && HandlerCalls(r.events) == []
            && r.outcome == Resolved(c.funcs[i].settles.value) && Warnings(r.events) == []
  {
    StopAt(c.funcs, i);
    assert VerdictAt(c, options, i) == Finish(c.funcs[i].settles.value);
    RunViews(c, options, production);
  }

  /** A step that calls `next` more than once and returns, reached after clean
      passes, rejects the run with the protocol error naming its ordinal and
      name, whatever payloads it passed; the errorHandler is not called and no
      later step runs. */
  lemma RepeatedNextRejects<V>(c: Chain<V>, options: Options<V>, production: bool, i: nat)
    requires i < |c.funcs|
    requires forall k | 0 <= k < i :: Passes(c.funcs[k])
    requires c.funcs[i].settles.Returned? && |c.funcs[i].nextArgs| > 1
    ensures var r := Semantics(c, options, production);
            && r.outcome == Rejected(NextCalledMoreThanOnce(i + 1, c.funcs[i].name))
            && HandlerCalls(r.events) == [] && Warnings(r.events) == []
            && StepsRun(r.events) == Range(0, i + 1)
  {
    StopAt(c.funcs, i);
    RunViews(c, options, production);
  }

  /** The one warning such a step writes names its 1-based ordinal: the
      ordinal reads back from the console.warn text. */
  lemma MissingNextWarningNamesStep<V>(c: Chain<V>, options: Options<V>, production: bool, i: nat)
    requires i < |c.funcs| - 1 && !options.muteNoNextCallWarning
    requires forall k | 0 <= k < i :: Passes(c.funcs[k])
    requires c.funcs[i].settles.Returned? && c.funcs[i].nextArgs == []
    ensures var w := Warnings(Semantics(c, options, production).events);
            |w| == 1 && WritesNumber(WarningText(w[0]), "Middlewarizer Warning: Next has not been called inside your ", i + 1,
                                        "th function. You can mute this warning by setting 'muteNoNextCallWarning'")
  {
    MissingNextWarnsUnlessLastOrMuted(c, options, production, i);
    assert Warnings(Semantics(c, options, production).events) == [i + 1];
    WarningTextReadsBack(i + 1);
  }

  /** The protocol error's message names the offending step: its 1-based
      ordinal reads back from the message, which ends with the step's name. */
  lemma RepeatedNextMessageNamesStep<V>(c: Chain<V>, options: Options<V>, production: bool, i: nat)
    requires i < |c.funcs|
    requires forall k | 0 <= k < i :: Passes(c.funcs[k])
    requires c.funcs[i].settles.Returned? && |c.funcs[i].nextArgs| > 1
    ensures var r := Semantics(c, options, production);
            var name := c.funcs[i].name;
            && r.outcome.Rejected? && r.outcome.reason.NextCalledMoreThanOnce?
            && var m := MultipleNextText(r.outcome.reason.ordinal, r.outcome.reason.name);
               && WritesNumber(m, "Middlewarizer Error: Next has been called more than once inside your ", i + 1,
                               "th function: " + name)
               && |name| <= |m| && m[|m| - |name|..] == name
  {
    RepeatedNextRejects(c, options, production, i);
    var r := Semantics(c, options, production);
    assert r.outcome.reason == NextCalledMoreThanOnce(i + 1, c.funcs[i].name);
    MultipleNextTextReadsBack(i + 1, c.funcs[i].name);
  }

  /** What routing an error through handleError makes of a run stopped at
      step i: without an errorHandler the run rejects with the error; with
      one, the handler is called once with `(error, ...args)` and the run
      resolves to undefined, unless the handler itself throws. */
  ghost predicate RoutedTo<V>(c: Chain<V>, options: Options<V>, r: Report<V>, error: Value<V>, i: nat) {
    && StepsRun(r.events) == Range(0, i + 1)
    && Warnings(r.events) == []
    && match options.errorHandler
       case None =>
         r.outcome == Rejected(ErrorFrom(error)) && HandlerCalls(r.events) == []
       case Some(h) =>
         && HandlerCalls(r.events) == [HandlerCalled(error, c.args)]
         && r.outcome == match h.settles
                         case Returned(_) => Resolved(Undefined)
                         case Raised(e) => Rejected(HandlerThrew(e))
  }

  /** A step that calls `next` once with a defined payload, reached after clean
      passes, stops the chain and routes that payload through handleError. */
  lemma NextPayloadRouted<V>(c: Chain<V>, options: Options<V>, production: bool, i: nat)
    requires i < |c.funcs|
    requires forall k | 0 <= k < i :: Passes(c.funcs[k])
    requires c.funcs[i].settles.Returned?
    requires |c.funcs[i].nextArgs| == 1 && c.funcs[i].nextArgs[0].Defined?
    ensures RoutedTo(c, options, Semantics(c, options, production), c.funcs[i].nextArgs[0], i)
  {
    StopAt(c.funcs, i);
    assert VerdictAt(c, options, i) == Reported(c.funcs[i].nextArgs[0]);
    RunViews(c, options, production);
  }

  /** A step that throws, reached after clean passes, stops the chain and
      routes the thrown value through handleError, however many times it
      called `next` and with whatever payloads. */
  lemma ThrownErrorRouted<V>(c: Chain<V>, options: Options<V>, production: bool, i: nat)
    requires i < |c.funcs|
    requires forall k | 0 <= k < i :: Passes(c.funcs[k])
    requires c.funcs[i].settles.Raised?
    ensures RoutedTo(c, options, Semantics(c, options, production), c.funcs[i].settles.error, i)
  {
    StopAt(c.funcs, i);
    assert VerdictAt(c, options, i) == Threw(c.funcs[i].settles.error);
    RunViews(c, options, production);
  }

  /** A run warns at most once and calls the errorHandler at most once. */
  lemma AtMostOneWarningAndHandlerCall<V>(c: Chain<V>, options: Options<V>, production: bool)
    ensures var r := Semantics(c, options, production);
            |Warnings(r.events)| <= 1 && |HandlerCalls(r.events)| <= 1
  {
    if c.funcs != [] {
      RunViews(c, options, production);
    }
  }

  /** Every step call and every errorHandler call in `events` carries `args`. */
  ghost predicate Forwards<V>(events: seq<Event<V>>, args: seq<Value<V>>) {
    forall ev | ev in events :: (ev.StepCalled? ==> ev.args == args) && (ev.HandlerCalled? ==> ev.args == args)
  }

  lemma ForwardsAppend<V>(a: seq<Event<V>>, b: seq<Event<V>>, args: seq<Value<V>>)
    requires Forwards(a, args) && Forwards(b, args)
    ensures Forwards(a + b, args)
  {
  }

  lemma OpeningForwards<V>(verbose: bool, i: nat, name: string, args: seq<Value<V>>)
    ensures Forwards(Opening(verbose, i, name, args), args)
    ensures Forwards(Passed(verbose, i, name, args), args)
  {
    var opening := Opening(verbose, i, name, args);
    var passLine: seq<Event<V>> := if verbose then [Log(Passing)] else [];
    ForwardsAppend(opening, passLine, args);
  }

  /** A turn that stops the chain forwards the context arguments. */
  lemma StopForwards<V>(c: Chain<V>, options: Options<V>, verbose: bool, i: nat)
    requires i < |c.funcs| && !VerdictAt(c, options, i).Advance?
    ensures Forwards(RunFrom(c, options, verbose, i).events, c.args)
  {
    var name := c.funcs[i].name;
    var last := Conclude(c, options, verbose, i, VerdictAt(c, options, i));
    OpeningForwards(verbose, i, name, c.args);
    ForwardsAppend(Opening(verbose, i, name, c.args), last.events, c.args);
  }

  /** A turn that advances forwards the context arguments if the rest of the run does. */
  lemma AdvanceForwards<V>(c: Chain<V>, options: Options<V>, verbose: bool, i: nat)
    requires i < |c.funcs| && VerdictAt(c, options, i).Advance?
    requires Forwards(RunFrom(c, options, verbose, i + 1).events, c.args)
    ensures Forwards(RunFrom(c, options, verbose, i).events, c.args)
  {
    var name := c.funcs[i].name;
    OpeningForwards(verbose, i, name, c.args);
    ForwardsAppend(Passed(verbose, i, name, c.args), RunFrom(c, options, verbose, i + 1).events, c.args);
  }

  /** The context arguments reach every step call and every errorHandler
      call of the run from step i on unchanged. */
  lemma {:induction false} ContextForwardedFrom<V>(c: Chain<V>, options: Options<V>, verbose: bool, i: nat)
    requires i <= |c.funcs|
    ensures Forwards(RunFrom(c, options, verbose, i).events, c.args)
    decreases |c.funcs| - i
  {
    if i < |c.funcs| {
      if VerdictAt(c, options, i).Advance? {
        ContextForwardedFrom(c, options, verbose, i + 1);
        AdvanceForwards(c, options, verbose, i);
      } else {
        StopForwards(c, options, verbose, i);
      }
    }
  }

  lemma ContextForwarded<V>(c: Chain<V>, options: Options<V>, production: bool)
    ensures forall ev | ev in Semantics(c, options, production).events ::
              (ev.StepCalled? ==> ev.args == c.args) && (ev.HandlerCalled? ==> ev.args == c.args)
  {
    ContextForwardedFrom(c, options, Verbose(options, production), 0);
    assert Forwards(Semantics(c, options, production).events, c.args);
  }

  /** In verbose mode each step that passes logs its "executing" and
      "passing" lines; the stopping step logs its "executing" line and, when
      it routes an error, the "failed" line; otherwise nothing is logged. */
  lemma VerboseTrace<V>(c: Chain<V>, options: Options<V>, production: bool)
    requires |c.funcs| > 0
    ensures var s := StopFrom(c.funcs, 0);
            var name := c.funcs[s].name;
            Logs(Semantics(c, options, production).events) ==
              if Verbose(options, production)
              then PassLogs(c, 0, s) + [Executing(s + 1, name)] +
                   (if RoutedError(VerdictAt(c, options, s)).Some? then [Failed(name)] else [])
              else []
  {
    RunShape(c, options, production);
    ShapeLogs(c, options, Verbose(options, production));
  }

  lemma ShapeLogs<V>(c: Chain<V>, options: Options<V>, verbose: bool)
    requires |c.funcs| > 0
    ensures var s := StopFrom(c.funcs, 0);
            var name := c.funcs[s].name;
            Logs(PassedTurns(c, verbose, 0, s) + Finale(c, options, verbose, s).events) ==
              if verbose
              then PassLogs(c, 0, s) + [Executing(s + 1, name)] +
                   (if RoutedError(VerdictAt(c, options, s)).Some? then [Failed(name)] else [])
              else []
  {
    var s := StopFrom(c.funcs, 0);
    var name := c.funcs[s].name;
    var pt := PassedTurns(c, verbose, 0, s);
    var f := Finale(c, options, verbose, s);
    PassedTurnsViews(c, verbose, 0, s);
    FinaleViews(c, options, verbose, s);
    ViewsAppend(pt, f.events);
    var failed: seq<LogLine> := if RoutedError(VerdictAt(c, options, s)).Some? then [Failed(name)] else [];
    if verbose {
      Associative(PassLogs(c, 0, s), [Executing(s + 1, name)], failed);
    }
  }

  /** A non-empty run logs nothing exactly in production with `verbose` unset:
      outside production, `verbose: false` does not silence the log. */
  lemma QuietExactlyInProductionWithoutVerbose<V>(c: Chain<V>, options: Options<V>, production: bool)
    requires |c.funcs| > 0
    ensures Logs(Semantics(c, options, production).events) == [] <==> production && !options.verbose
  {
    VerboseTrace(c, options, production);
    var s := StopFrom(c.funcs, 0);
    if Verbose(options, production) {
      var logs := Logs(Semantics(c, options, production).events);
      assert logs[|PassLogs(c, 0, s)|] == Executing(s + 1, c.funcs[s].name);
    }
  }
}
