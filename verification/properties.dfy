/**
 Properties of the shell that relate several calls: how each kind of input is
 dispatched, what the meta-commands show after an evaluation, and what holds of the
 session after any sequence of input lines.
 */
module ShellProperties {

  import opened Js
  import opened Registry
  import opened Shell

  /** One input line together with the answers the collaborators give while it is evaluated. */
  datatype Input = Input(line: string, world: World)

  /** The session after evaluating one input line. */
  function Next(s: Session, i: Input): Session {
    Eval(s, i.line, i.world).session
  }

  /** The session after applying `step` to the input lines one after another. */
  function Fold(s: Session, inputs: seq<Input>, step: (Session, Input) -> Session): Session
    decreases |inputs|
  {
    if inputs == [] then s
    else Fold(step(s, inputs[0]), inputs[1..], step)
  }

  /** The session after evaluating the input lines one after another. */
  function Run(s: Session, inputs: seq<Input>): Session {
    Fold(s, inputs, Next)
  }

  /** Reference meaning of the slot after a run: the failure recorded by the latest
      line whose query failed, or the initial slot when no query failed. */
  function LatestFailure(initial: Option<QueryError>, inputs: seq<Input>): Option<QueryError>
    decreases |inputs|
  {
    if inputs == [] then initial
    else
      var last := inputs[|inputs| - 1];
      match QueryFailure(last.line, last.world)
      case Some(e) => Some(e)
      case None => LatestFailure(initial, inputs[..|inputs| - 1])
  }

  /** Input made only of whitespace and line terminators completes at once, calls no
      collaborator and leaves the session unchanged. */
  lemma BlankInputDoesNothing(s: Session, cmd: string, w: World)
    requires AllTrimmable(cmd)
    ensures Eval(s, cmd, w) == Step(s, Completed, [], [])
  {
    TrimEmptyIffAllTrimmable(cmd);
  }

  /** A `SyntaxError`, whether the host evaluator or the parser raised it, asks the host
      for more input and never reaches the query runner. */
  lemma SyntaxErrorIsRecoverable(s: Session, cmd: string, w: World)
    requires !IsBlank(cmd)
    ensures w.hostEval(cmd).err.Some? && IsSyntaxError(w.hostEval(cmd).err.value) ==>
      Eval(s, cmd, w).completion == Recoverable(w.hostEval(cmd).err.value) && SentQueries(Eval(s, cmd, w).calls) == []
    ensures (&& w.hostEval(cmd).err.None?
             && w.parseScript(Wrapped(cmd)).ParseError?
             && IsSyntaxError(w.parseScript(Wrapped(cmd)).err)) ==>
      Eval(s, cmd, w).completion == Recoverable(w.parseScript(Wrapped(cmd)).err) && SentQueries(Eval(s, cmd, w).calls) == []
  {
  }

  /** Any other error from the host evaluator is handed back with the host's result;
      nothing is parsed, nothing is sent, the session is unchanged. A corollary of
      `Eval`'s contract, with `Catch` unfolded for an error not named `SyntaxError`. */
  lemma HostErrorPassesThrough(s: Session, cmd: string, w: World)
    requires !IsBlank(cmd)
    requires w.hostEval(cmd).err.Some? && !IsSyntaxError(w.hostEval(cmd).err.value)
    ensures Eval(s, cmd, w) == Step(s, Errored(w.hostEval(cmd).err.value, w.hostEval(cmd).result), [], [HostEvalCall(cmd)])
  {
  }

  /** However the cycle ends, a request for more input carries a `SyntaxError` and an
      error handed back to the host is never one. */
  lemma CompletionMatchesErrorName(s: Session, cmd: string, w: World)
    ensures var c := Eval(s, cmd, w).completion;
      && (c.Recoverable? ==> IsSyntaxError(c.cause))
      && (c.Errored? ==> !IsSyntaxError(c.err))
  {
    if ReachesExecutor(cmd, w) {
      var host := w.hostEval(cmd);
      assert Eval(s, cmd, w).completion == AfterHostEval(s, cmd, host.result, w).completion;
    }
  }

  /** A query that succeeds prints its result, completes the callback and leaves the slot alone. */
  lemma QuerySuccess(s: Session, cmd: string, w: World)
    requires ReachesExecutor(cmd, w)
    requires w.runQueries(w.parseScript(Wrapped(cmd)).body).Resolved?
    ensures Eval(s, cmd, w).session == s
    ensures Eval(s, cmd, w).completion == Completed
    ensures Eval(s, cmd, w).output == [ResultShown(w.runQueries(w.parseScript(Wrapped(cmd)).body).value)]
  {
  }

  /** A query that fails with a driver error records the failure, prints an `Error:` line,
      adds the expanded response body exactly for an HTTP error, and still completes the
      callback without an error, provided an HTTP body is JSON. */
  lemma QueryFailureRecorded(s: Session, cmd: string, w: World)
    requires ReachesExecutor(cmd, w)
    requires w.runQueries(w.parseScript(Wrapped(cmd)).body).Rejected?
    requires w.runQueries(w.parseScript(Wrapped(cmd)).body).error.faunaError.Some?
    ensures
      var error := w.runQueries(w.parseScript(Wrapped(cmd)).body).error;
      var fe := error.faunaError.value;
      var r := Eval(s, cmd, w);
      && r.session == s.(lastError := Some(error))
      && (fe.responseRaw.None? ==> r.completion == Completed && r.output == [ErrorShown(fe.message)])
      && (PayloadParses(fe, w) ==>
            r.completion == Completed
            && r.output == [ErrorShown(fe.message), PayloadShown(w.parseJson(fe.responseRaw.value).value)])
  {
  }

  /** An HTTP error whose body is not JSON: the failure is recorded and its `Error:` line
      printed, then `JSON.parse` throws a `SyntaxError`, which the evaluation wrapper
      reports to the host as a request for more input. */
  lemma UnparseablePayloadAsksForMoreInput(s: Session, cmd: string, w: World)
    requires ReachesExecutor(cmd, w)
    requires w.runQueries(w.parseScript(Wrapped(cmd)).body).Rejected?
    requires
      var fe := w.runQueries(w.parseScript(Wrapped(cmd)).body).error.faunaError;
      fe.Some? && fe.value.responseRaw.Some? && w.parseJson(fe.value.responseRaw.value).JsonError?
    ensures
      var error := w.runQueries(w.parseScript(Wrapped(cmd)).body).error;
      var r := Eval(s, cmd, w);
      && r.session.lastError == Some(error)
      && r.output == [ErrorShown(error.faunaError.value.message)]
      && r.completion == Recoverable(JsError("SyntaxError", w.parseJson(error.faunaError.value.responseRaw.value).message))
  {
  }

  /** A rejection without a driver error: the failure is recorded, nothing is printed,
      and the `TypeError` from reading its message goes back to the host. */
  lemma MissingDriverErrorPassesTypeError(s: Session, cmd: string, w: World)
    requires ReachesExecutor(cmd, w)
    requires w.runQueries(w.parseScript(Wrapped(cmd)).body).Rejected?
    requires w.runQueries(w.parseScript(Wrapped(cmd)).body).error.faunaError.None?
    ensures
      var r := Eval(s, cmd, w);
      && r.session.lastError == Some(w.runQueries(w.parseScript(Wrapped(cmd)).body).error)
      && r.output == []
      && r.completion == Errored(MissingFaunaError, w.hostEval(cmd).result)
  {
  }

  /** An error thrown by the query runner before any handler is attached skips the
      `.catch` handler: the slot is not written and nothing is printed. The async query
      step rejects with that error, and the evaluation wrapper's catch handler sorts it
      by name, with the host evaluator's result. */
  lemma RunnerThrowSkipsHandler(s: Session, cmd: string, w: World)
    requires ReachesExecutor(cmd, w)
    requires w.runQueries(w.parseScript(Wrapped(cmd)).body).Thrown?
    ensures
      var e := w.runQueries(w.parseScript(Wrapped(cmd)).body).err;
      var r := Eval(s, cmd, w);
      && r.session == s
      && r.output == []
      && r.completion == Catch(e, w.hostEval(cmd).result)
  {
  }

  /** After a failed query, `.last_error` shows exactly the error that query produced. */
  lemma LastErrorShowsFailure(host: Table, s: Session, cmd: string, w: World)
    requires ShellTable(host, s.commands)
    requires QueryFailure(cmd, w).Some?
    ensures InvokeCommand(Eval(s, cmd, w).session, "last_error") == Ran([LastErrorShown(QueryFailure(cmd, w)), PromptShown])
  {
  }

  /** As the code is written, `.last_error` after a failed query prints nothing at all:
      the action throws on `this.repl` before it reads the slot. */
  lemma LastErrorAsWrittenShowsNothing(host: Table, s: Session, cmd: string, w: World)
    requires ShellTable(host, s.commands)
    requires QueryFailure(cmd, w).Some?
    ensures InvokeAsWritten(Eval(s, cmd, w).session, "last_error") == Threw([], NoReplForContext)
    ensures InvokeAsWritten(Eval(s, cmd, w).session, "last_error") != InvokeCommand(Eval(s, cmd, w).session, "last_error")
  {
  }

  /** A keyword the plain-object table inherits, such as `.constructor`, is found by the
      host's lookup, and calling its missing action throws. */
  lemma InheritedKeywordThrows(host: Table, s: Session)
    requires ShellTable(host, s.commands)
    requires "constructor" !in host
    ensures InvokeCommand(s, "constructor") == Threw([], ActionNotCallable)
  {
  }

  /** A parse error not named `SyntaxError` is handed back with the host evaluator's
      result after the host evaluator and the parser ran; nothing is sent and the
      session is unchanged. A corollary of `Eval`'s contract, with `Catch` unfolded. */
  lemma ParseErrorPassesThrough(s: Session, cmd: string, w: World)
    requires !IsBlank(cmd)
    requires w.hostEval(cmd).err.None?
    requires w.parseScript(Wrapped(cmd)).ParseError? && !IsSyntaxError(w.parseScript(Wrapped(cmd)).err)
    ensures Eval(s, cmd, w) == Step(s, Errored(w.parseScript(Wrapped(cmd)).err, w.hostEval(cmd).result), [],
                                    [HostEvalCall(cmd), ParseCall(Wrapped(cmd))])
  {
  }

  /** Evaluating input never changes the command table. */
  lemma {:induction false} RunKeepsCommands(s: Session, inputs: seq<Input>)
    ensures Run(s, inputs).commands == s.commands
    decreases |inputs|
  {
    if inputs != [] {
      RunKeepsCommands(Next(s, inputs[0]), inputs[1..]);
    }
  }

  /** Folding over a longer sequence is folding over the prefix, then one more step. */
  lemma {:induction false} FoldSnoc(s: Session, inputs: seq<Input>, next: Input, step: (Session, Input) -> Session)
    ensures Fold(s, inputs + [next], step) == step(Fold(s, inputs, step), next)
    decreases |inputs|
  {
    if inputs == [] {
      assert [] + [next] == [next];
    } else {
      assert (inputs + [next])[0] == inputs[0];
      assert (inputs + [next])[1..] == inputs[1..] + [next];
      FoldSnoc(step(s, inputs[0]), inputs[1..], next, step);
    }
  }

  /** Running a longer sequence is running the prefix, then one more cycle. */
  lemma RunSnoc(s: Session, inputs: seq<Input>, next: Input)
    ensures Run(s, inputs + [next]) == Next(Run(s, inputs), next)
  {
    FoldSnoc(s, inputs, next, Next);
  }

  /** After any run, the slot holds the failure of the latest line whose query failed,
      or what it held before the run when no query failed. */
  lemma {:induction false} RunLastError(s: Session, inputs: seq<Input>)
    ensures Run(s, inputs).lastError == LatestFailure(s.lastError, inputs)
    decreases |inputs|
  {
    if inputs != [] {
      var prefix := inputs[..|inputs| - 1];
      var last := inputs[|inputs| - 1];
      assert inputs == prefix + [last];
      RunSnoc(s, prefix, last);
      RunLastError(s, prefix);
    }
  }

  /** From start-up on, `.last_error` shows the latest recorded failure, or `undefined`
      when no query has failed yet. */
  lemma LastErrorCommandAfterRun(host: Table, s: Session, inputs: seq<Input>)
    requires s.lastError == None && ShellTable(host, s.commands)
    ensures InvokeCommand(Run(s, inputs), "last_error") == Ran([LastErrorShown(LatestFailure(None, inputs)), PromptShown])
  {
    RunKeepsCommands(s, inputs);
    RunLastError(s, inputs);
  }
}
