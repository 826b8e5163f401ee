/**
 The evaluation side of the interactive shell: a session (the `lastError` slot of the
 evaluation context and the command table), the per-line evaluation step that wraps
 the host REPL's evaluator, the query step that records failures, and the two
 meta-commands.

 Everything the shell calls but does not define is an oracle in `World`: the host
 evaluator, the script parser, the query runner and `JSON.parse`. A `World` is given
 per input line, since the database and the host context may answer differently each
 time. Each step reports which of these it called, in order, so that "nothing was
 evaluated" or "no query was sent" can be stated.
 */
module Shell {

  import opened Js
  import opened Registry

  /** An opaque JavaScript value: a host evaluation result, a query result or a parsed payload. */
  datatype Value = Undefined | Opaque(repr: string)

  /** One statement node of a parsed script; the shell passes them on untouched. */
  datatype Statement = Statement(node: string)

  /** The driver error a failed query carries in its `faunaError` property.
      `responseRaw` is present exactly when the error is an HTTP error, and is the
      raw response body the service returned. */
  datatype FaunaError = FaunaError(message: string, responseRaw: Option<string>)

  /** The value a failed query rejects with; its `faunaError` property may be missing. */
  datatype QueryError = QueryError(faunaError: Option<FaunaError>)

  /** What the host evaluator passes to its callback: an error or nothing, and a result. */
  datatype HostReply = HostReply(err: Option<JsError>, result: Value)

  /** What the script parser returns for a source text, or the error it throws. */
  datatype ParseReply = Program(body: seq<Statement>) | ParseError(err: JsError)

  /** What calling the query runner and attaching `.then`/`.catch` to its answer gives:
      a promise that resolves or rejects, or an error thrown before any handler is
      attached. `Thrown` covers the runner throwing synchronously and the runner
      returning something that is not a promise, whose `.then` cannot be called. */
  datatype QueryReply = Resolved(value: Value) | Rejected(error: QueryError) | Thrown(err: JsError)

  /** What `JSON.parse` returns, or the message of the `SyntaxError` it throws. */
  datatype JsonReply = Json(value: Value) | JsonError(message: string)

  /** The collaborators one evaluation cycle may call. */
  datatype World = World(
    hostEval: string -> HostReply,
    parseScript: string -> ParseReply,
    runQueries: seq<Statement> -> QueryReply,
    parseJson: string -> JsonReply)

  /** A call the shell made to a collaborator, with its argument. */
  datatype Call =
    | HostEvalCall(cmd: string)
    | ParseCall(source: string)
    | QueryCall(fql: seq<Statement>)
    | JsonCall(raw: string)

  /** A line written to the console, as a tagged value instead of formatted text. */
  datatype Line =
    | ResultShown(value: Value)             // the full query result, unbounded depth
    | ErrorShown(message: string)           // "Error: <message>"
    | PayloadShown(payload: Value)          // the parsed HTTP error body, fully expanded
    | ScreenCleared
    | LastErrorShown(slot: Option<QueryError>)
    | PromptShown
    | HostCommandRan(id: string)

  /** How the host REPL's callback is completed for one input. */
  datatype Completion =
    | Completed                                  // cb() : nothing to print
    | Recoverable(cause: JsError)                // cb(new Recoverable(e)) : wait for more input
    | Errored(err: JsError, result: Value)       // cb(e, result) : the host reports e

  /** The mutable part of the shell: the context's `lastError` slot and the command table. */
  datatype Session = Session(lastError: Option<QueryError>, commands: Table)

  /** Outcome of one evaluation cycle. */
  datatype Step = Step(session: Session, completion: Completion, output: seq<Line>, calls: seq<Call>)

  /** How the promise returned by the query step settles. */
  datatype Settled = Fulfilled | Failed(reason: JsError)

  /** Outcome of the query step. */
  datatype Execution = Execution(lastError: Option<QueryError>, settled: Settled, output: seq<Line>, calls: seq<Call>)

  /** The error thrown when a rejection has no `faunaError` and its `message` is read. */
  const MissingFaunaError := JsError("TypeError", "Cannot read properties of undefined (reading 'message')")

  /** The text handed to the parser: the input wrapped in parentheses, so that an
      object literal parses as an expression. */
  function Wrapped(cmd: string): (source: string)
    ensures |source| == |cmd| + 2
    ensures source[0] == '(' && source[|source| - 1] == ')' && source[1..|source| - 1] == cmd
  {
    "(" + cmd + ")"
  }

  /** The catch handler of the evaluation wrapper: a `SyntaxError` becomes a request for
      more input, any other error is handed back to the host with the evaluation result. */
  function Catch(error: JsError, result: Value): (c: Completion)
    ensures c.Recoverable? <==> IsSyntaxError(error)
    ensures c.Recoverable? ==> c.cause == error
    ensures c.Errored? ==> c.err == error && c.result == result
    ensures !c.Completed?
  {
    if IsSyntaxError(error) then Recoverable(error) else Errored(error, result)
  }

  /** The payload dump is attempted only for HTTP errors; it succeeds when the body is JSON. */
  predicate PayloadParses(fe: FaunaError, w: World) {
    fe.responseRaw.Some? && w.parseJson(fe.responseRaw.value).Json?
  }

  /** The runner rejected with an HTTP error, whose raw response body the handler parses. */
  predicate HttpRejection(reply: QueryReply) {
    reply.Rejected? && reply.error.faunaError.Some? && reply.error.faunaError.value.responseRaw.Some?
  }

  /** `executeFql`: run the statements; print the result on success. On failure store
      the rejection in `lastError`, print its message, and for an HTTP error also print
      its parsed response body. */
  function ExecuteFql(lastError: Option<QueryError>, fql: seq<Statement>, w: World): (x: Execution)
    // the executor receives exactly the statements given, and is called first
    ensures |x.calls| >= 1 && x.calls[0] == QueryCall(fql)
    ensures SentQueries(x.calls) == [fql]
    // nothing else is called, except `JSON.parse` on the body of an HTTP error
    ensures x.calls == [QueryCall(fql)] +
      (if HttpRejection(w.runQueries(fql)) then [JsonCall(w.runQueries(fql).error.faunaError.value.responseRaw.value)] else [])
    // success: result printed, slot untouched
    ensures w.runQueries(fql).Resolved? ==>
      x == Execution(lastError, Fulfilled, [ResultShown(w.runQueries(fql).value)], [QueryCall(fql)])
    // failure: the slot holds the rejection, whatever happens next
    ensures x.lastError == (if w.runQueries(fql).Rejected? then Some(w.runQueries(fql).error) else lastError)
    // failure with a driver error: one Error line, then the payload iff it is an HTTP error that parses
    ensures w.runQueries(fql).Rejected? && w.runQueries(fql).error.faunaError.Some? ==>
      var fe := w.runQueries(fql).error.faunaError.value;
      && |x.output| == (if PayloadParses(fe, w) then 2 else 1)
      && x.output[0] == ErrorShown(fe.message)
      && (PayloadParses(fe, w) ==> x.output[1] == PayloadShown(w.parseJson(fe.responseRaw.value).value))
      && (x.settled.Fulfilled? <==> fe.responseRaw.None? || PayloadParses(fe, w))
      // an HTTP body that is not JSON rejects with the SyntaxError JSON.parse threw
      && (fe.responseRaw.Some? && !PayloadParses(fe, w) ==>
            x.settled == Failed(JsError("SyntaxError", w.parseJson(fe.responseRaw.value).message)))
    // failure without a driver error: nothing printed, the promise rejects with a TypeError
    ensures w.runQueries(fql).Rejected? && w.runQueries(fql).error.faunaError.None? ==>
      x.output == [] && x.settled == Failed(MissingFaunaError)
    // an error thrown before the handlers are attached: nothing recorded, nothing printed,
    // and the promise of the async step rejects with that error
    ensures w.runQueries(fql).Thrown? ==>
      x == Execution(lastError, Failed(w.runQueries(fql).err), [], [QueryCall(fql)])
    // once a handler runs, the promise only ever rejects with a SyntaxError from JSON.parse or the TypeError
    ensures x.settled.Failed? && !w.runQueries(fql).Thrown? ==>
      IsSyntaxError(x.settled.reason) || x.settled.reason == MissingFaunaError
  {
    match w.runQueries(fql)
    case Resolved(res) => Execution(lastError, Fulfilled, [ResultShown(res)], [QueryCall(fql)])
    case Thrown(e) => Execution(lastError, Failed(e), [], [QueryCall(fql)])
    case Rejected(error) =>
      match error.faunaError
      case None => Execution(Some(error), Failed(MissingFaunaError), [], [QueryCall(fql)])
      case Some(fe) =>
        match fe.responseRaw
        case None => Execution(Some(error), Fulfilled, [ErrorShown(fe.message)], [QueryCall(fql)])
        case Some(raw) =>
          var calls := [QueryCall(fql), JsonCall(raw)];
          assert [JsonCall(raw)][1..] == [] && SentQueries([JsonCall(raw)]) == [];
          assert calls[1..] == [JsonCall(raw)] && SentQueries(calls) == [fql];
          match w.parseJson(raw)
          case Json(payload) =>
            Execution(Some(error), Fulfilled, [ErrorShown(fe.message), PayloadShown(payload)], calls)
          case JsonError(m) =>
            Execution(Some(error), Failed(JsError("SyntaxError", m)), [ErrorShown(fe.message)], calls)
  }

  /** The input is blank: `cmd.trim() === ""`. */
  predicate IsBlank(cmd: string) {
    Trim(cmd) == ""
  }

  /** The input gets as far as the query runner: it is not blank, the host evaluator
      raised nothing, and the wrapped input parsed. */
  predicate ReachesExecutor(cmd: string, w: World) {
    && !IsBlank(cmd)
    && w.hostEval(cmd).err.None?
    && w.parseScript(Wrapped(cmd)).Program?
  }

  /** The query failure one cycle records, if any: the rejection of the query sent for it. */
  function QueryFailure(cmd: string, w: World): Option<QueryError>
  {
    if ReachesExecutor(cmd, w) && w.runQueries(w.parseScript(Wrapped(cmd)).body).Rejected? then
      Some(w.runQueries(w.parseScript(Wrapped(cmd)).body).error)
    else None
  }

  /** The statement lists a trace of calls sent to the query runner, in order. */
  function SentQueries(calls: seq<Call>): seq<seq<Statement>>
  {
    if calls == [] then []
    else (if calls[0].QueryCall? then [calls[0].fql] else []) + SentQueries(calls[1..])
  }

  /** How the evaluation wrapper completes once the awaited query step settled: a
      fulfilled step completes the callback with nothing, a rejected one goes through
      the catch handler with the host evaluator's result. */
  function Settle(settled: Settled, result: Value): (c: Completion)
    ensures settled.Fulfilled? <==> c.Completed?
    ensures settled.Failed? ==> c == Catch(settled.reason, result)
  {
    if settled.Fulfilled? then Completed else Catch(settled.reason, result)
  }

  /** The rest of the evaluation wrapper's `try` block once the host evaluator raised
      nothing: parse the wrapped input, then run the statements it parsed to. `result`
      is the host evaluator's result, handed back with any error that is not a
      `SyntaxError`. */
  function AfterHostEval(s: Session, cmd: string, result: Value, w: World): (r: Step)
    ensures r.session.commands == s.commands
    ensures |r.calls| >= 1 && r.calls[0] == ParseCall(Wrapped(cmd))
    // a parse error goes through the catch handler; nothing is sent and the slot is untouched
    ensures w.parseScript(Wrapped(cmd)).ParseError? ==>
      r == Step(s, Catch(w.parseScript(Wrapped(cmd)).err, result), [], [ParseCall(Wrapped(cmd))])
    // a parsed program is sent as is; the slot records its failure, if any
    ensures w.parseScript(Wrapped(cmd)).Program? ==>
      && |r.calls| >= 2 && r.calls[1] == QueryCall(w.parseScript(Wrapped(cmd)).body)
      && r.session.lastError == ExecuteFql(s.lastError, w.parseScript(Wrapped(cmd)).body, w).lastError
    // the slot changes only to record a rejection of the query sent
    ensures r.session.lastError ==
      (if w.parseScript(Wrapped(cmd)).Program? && w.runQueries(w.parseScript(Wrapped(cmd)).body).Rejected?
       then Some(w.runQueries(w.parseScript(Wrapped(cmd)).body).error) else s.lastError)
    // the query step's output is the cycle's output, and how it settles decides the completion
    ensures w.parseScript(Wrapped(cmd)).Program? ==>
      var x := ExecuteFql(s.lastError, w.parseScript(Wrapped(cmd)).body, w);
      r.output == x.output && r.completion == Settle(x.settled, result)
    // whatever the path, a request for more input carries a SyntaxError and a handed-back error never does
    ensures r.completion.Recoverable? ==> IsSyntaxError(r.completion.cause)
    ensures r.completion.Errored? ==> !IsSyntaxError(r.completion.err)
    ensures SentQueries(r.calls) ==
      (if w.parseScript(Wrapped(cmd)).Program? then [w.parseScript(Wrapped(cmd)).body] else [])
  {
    var source := Wrapped(cmd);
    match w.parseScript(source)
    case ParseError(e) =>
      Step(s, Catch(e, result), [], [ParseCall(source)])
    case Program(body) =>
      var x := ExecuteFql(s.lastError, body, w);
      var calls := [ParseCall(source)] + x.calls;
      assert calls[1..] == x.calls;
      Step(s.(lastError := x.lastError), Settle(x.settled, result), x.output, calls)
  }

  /** The evaluation wrapper's `try` block for input that is not blank: give the input
      to the host evaluator, and go on to parse and run it only if that raised nothing. */
  function HostStage(s: Session, cmd: string, w: World): (r: Step)
    ensures r.session.commands == s.commands
    ensures |r.calls| >= 1 && r.calls[0] == HostEvalCall(cmd)
    ensures w.hostEval(cmd).err.Some? ==>
      r == Step(s, Catch(w.hostEval(cmd).err.value, w.hostEval(cmd).result), [], [HostEvalCall(cmd)])
    ensures w.hostEval(cmd).err.None? && w.parseScript(Wrapped(cmd)).ParseError? ==>
      r == Step(s, Catch(w.parseScript(Wrapped(cmd)).err, w.hostEval(cmd).result), [],
                [HostEvalCall(cmd), ParseCall(Wrapped(cmd))])
    ensures r.session.lastError ==
      (if w.hostEval(cmd).err.None? && w.parseScript(Wrapped(cmd)).Program?
          && w.runQueries(w.parseScript(Wrapped(cmd)).body).Rejected?
       then Some(w.runQueries(w.parseScript(Wrapped(cmd)).body).error) else s.lastError)
    ensures SentQueries(r.calls) ==
      (if w.hostEval(cmd).err.None? && w.parseScript(Wrapped(cmd)).Program? then [w.parseScript(Wrapped(cmd)).body] else [])
    ensures w.hostEval(cmd).err.None? && w.parseScript(Wrapped(cmd)).Program? ==>
      |r.calls| >= 3 && r.calls[1] == ParseCall(Wrapped(cmd)) && r.calls[2] == QueryCall(w.parseScript(Wrapped(cmd)).body)
    ensures w.hostEval(cmd).err.None? && w.parseScript(Wrapped(cmd)).Program? ==>
      var x := ExecuteFql(s.lastError, w.parseScript(Wrapped(cmd)).body, w);
      r.output == x.output && r.completion == Settle(x.settled, w.hostEval(cmd).result)
  {
    var host := w.hostEval(cmd);
    if host.err.Some? then
      Step(s, Catch(host.err.value, host.result), [], [HostEvalCall(cmd)])
    else
      var rest := AfterHostEval(s, cmd, host.result, w);
      var calls := [HostEvalCall(cmd)] + rest.calls;
      assert calls[1..] == rest.calls;
      assert SentQueries(calls) == SentQueries(rest.calls);
      rest.(calls := calls)
  }

  /** One evaluation cycle of the wrapped evaluator: `withFaunaEval(originalEval)`
      applied to the input line `cmd`. */
  function Eval(s: Session, cmd: string, w: World): (r: Step)
    // the command table is never touched by evaluation
    ensures r.session.commands == s.commands
    // blank input: callback completed with nothing, no collaborator called, slot unchanged
    ensures IsBlank(cmd) ==> r == Step(s, Completed, [], [])
    // anything else is first given, untouched, to the host evaluator
    ensures !IsBlank(cmd) ==> |r.calls| >= 1 && r.calls[0] == HostEvalCall(cmd)
    // a host error goes through the catch handler with the host's result; nothing else is called
    ensures !IsBlank(cmd) && w.hostEval(cmd).err.Some? ==>
      r == Step(s, Catch(w.hostEval(cmd).err.value, w.hostEval(cmd).result), [], [HostEvalCall(cmd)])
    // so does a parse error, after the host evaluator and the parser were called
    ensures !IsBlank(cmd) && w.hostEval(cmd).err.None? && w.parseScript(Wrapped(cmd)).ParseError? ==>
      r == Step(s, Catch(w.parseScript(Wrapped(cmd)).err, w.hostEval(cmd).result), [],
                [HostEvalCall(cmd), ParseCall(Wrapped(cmd))])
    // the slot changes only to record the failure of a query sent in this cycle
    ensures r.session.lastError == (if QueryFailure(cmd, w).Some? then QueryFailure(cmd, w) else s.lastError)
    // one query is sent exactly when evaluation and parsing both succeed, and it is the parse body
    ensures SentQueries(r.calls) == (if ReachesExecutor(cmd, w) then [w.parseScript(Wrapped(cmd)).body] else [])
    ensures ReachesExecutor(cmd, w) ==>
      |r.calls| >= 3 && r.calls[1] == ParseCall(Wrapped(cmd)) && r.calls[2] == QueryCall(w.parseScript(Wrapped(cmd)).body)
    // the query step's output is the cycle's output; a rejected step goes through the catch handler
    ensures ReachesExecutor(cmd, w) ==>
      var x := ExecuteFql(s.lastError, w.parseScript(Wrapped(cmd)).body, w);
      r.output == x.output && r.completion == Settle(x.settled, w.hostEval(cmd).result)
  {
    if IsBlank(cmd) then Step(s, Completed, [], [])
    else
      var reaches := w.hostEval(cmd).err.None? && w.parseScript(Wrapped(cmd)).Program?;
      assert ReachesExecutor(cmd, w) == reaches;
      assert QueryFailure(cmd, w).Some? <==> reaches && w.runQueries(w.parseScript(Wrapped(cmd)).body).Rejected?;
      HostStage(s, cmd, w)
  }

  /** How invoking a meta-command `.keyword` ends. */
  datatype Invocation =
    | UnknownKeyword                           // the host reports an invalid keyword
    | Ran(output: seq<Line>)                   // the action printed `output` and returned
    | Threw(output: seq<Line>, err: JsError)   // the action printed `output`, then threw `err`

  /** The object an action runs with as `this`. The shell stores `this.clear` and
      `this.lastError` unbound, so the host calls them on its REPL server; the actions
      were written for the shell object, whose `repl` property is that server. */
  datatype Receiver = ShellObject | ReplServer

  /** Thrown when the host calls the `action` of an inherited, non-command value. */
  const ActionNotCallable := JsError("TypeError", "cmd.action is not a function")

  /** Thrown when an action reads `this.repl.displayPrompt` on the REPL server. */
  const NoReplForPrompt := JsError("TypeError", "Cannot read properties of undefined (reading 'displayPrompt')")

  /** Thrown when an action reads `this.repl.context` on the REPL server. */
  const NoReplForContext := JsError("TypeError", "Cannot read properties of undefined (reading 'context')")

  /** Running an entry's action with the given receiver. Host actions are opaque. */
  function RunAction(s: Session, action: Action, receiver: Receiver): Invocation
  {
    match action
    case HostAction(id) => Ran([HostCommandRan(id)])
    case ClearScreen =>
      if receiver == ShellObject then Ran([ScreenCleared, PromptShown])
      else Threw([ScreenCleared], NoReplForPrompt)
    case ShowLastError =>
      if receiver == ShellObject then Ran([LastErrorShown(s.lastError), PromptShown])
      else Threw([], NoReplForContext)
  }

  /** The host's `commands[keyword]` lookup on the table, then a call of the entry's action:
      own entries first, then the names the plain object inherits. */
  function Invoke(s: Session, keyword: string, receiver: Receiver): Invocation
  {
    if keyword in s.commands then RunAction(s, s.commands[keyword].action, receiver)
    else if keyword in InheritedKeywords then Threw([], ActionNotCallable)
    else UnknownKeyword
  }

  /** Invoking `.keyword` with the shell's actions bound to the shell, as they were written
      to run. Meta-commands send nothing and leave the session as it is. */
  function InvokeCommand(s: Session, keyword: string): (out: Invocation)
    ensures out.UnknownKeyword? <==> keyword !in s.commands && keyword !in InheritedKeywords
    ensures keyword !in s.commands && keyword in InheritedKeywords ==> out == Threw([], ActionNotCallable)
    ensures keyword in s.commands && s.commands[keyword].action == ShowLastError ==>
      out == Ran([LastErrorShown(s.lastError), PromptShown])
    ensures keyword in s.commands && s.commands[keyword].action == ClearScreen ==>
      out == Ran([ScreenCleared, PromptShown])
  {
    Invoke(s, keyword, ShellObject)
  }

  /** Invoking `.keyword` as the code is written: the shell's actions run with the REPL
      server as `this`, which has no `repl` property. */
  function InvokeAsWritten(s: Session, keyword: string): (out: Invocation)
    ensures out.UnknownKeyword? <==> keyword !in s.commands && keyword !in InheritedKeywords
    ensures keyword in s.commands && s.commands[keyword].action == ShowLastError ==>
      out == Threw([], NoReplForContext)
    ensures keyword in s.commands && s.commands[keyword].action == ClearScreen ==>
      out == Threw([ScreenCleared], NoReplForPrompt)
    // only host entries run to the end
    ensures out.Ran? ==> keyword in s.commands && s.commands[keyword].action.HostAction?
  {
    Invoke(s, keyword, ReplServer)
  }

  /** `startShell`, after the banner: the slot starts `undefined` and the command table is
      assembled from the host REPL's table. */
  method StartShell(host: Table) returns (s: Session)
    ensures s.lastError == None
    ensures ShellTable(host, s.commands)
    // with the actions bound to the shell, `.last_error` shows `undefined` ...
    ensures InvokeCommand(s, "last_error") == Ran([LastErrorShown(None), PromptShown])
    // ... while as written it throws before printing anything
    ensures InvokeAsWritten(s, "last_error") == Threw([], NoReplForContext)
    ensures InvokeCommand(s, "load") == UnknownKeyword && InvokeCommand(s, "editor") == UnknownKeyword
  {
    var commands := AssembleCommands(host);
    s := Session(None, commands);
  }
}
