# Fauna shell: evaluation dispatch and command registry

A Dafny model of the interactive shell command of the Fauna CLI (`src/commands/shell.js`).
The shell wraps Node's REPL. Every input line goes first to the host evaluator, then to
a script parser, and then to the query runner, which sends the parsed statements to the
database. The model covers:

- **Command registry** (`registry.dfy`, module `Registry`). `filterCommands` removes a
  deny-list of keywords from the host REPL's command table. It is modelled as a loop
  over the table's keys, checked against a reference map comprehension `Without`. After
  that, `defineCommand` binds the shell's own `clear` and `last_error` entries over the
  filtered table (`DefineAll`, where the last definition of a keyword wins).
  `AssembleCommands` puts the two steps together, and `ShellTable` states the exact
  table that results.
- **Per-line evaluation** (`shell.dfy`, module `Shell`). `Eval` is `withFaunaEval`.
  Blank input (`String.prototype.trim`, in `js.dfy`) completes at once. A host-evaluator
  error and a parse error are sorted by `name`: a `SyntaxError` becomes `Recoverable`,
  and any other error is handed back with the host's result. A successful parse hands
  its body to `ExecuteFql`. That step prints the result, or records the rejection in
  `lastError` and prints an `Error:` line. An HTTP error also gets its parsed response
  body printed.
- **Meta-commands and start-up.** `InvokeCommand` looks a keyword up the way the host
  does. Own entries come first, then the names a plain object inherits from
  `Object.prototype`, whose missing action throws. It then runs the entry's action with
  the shell's actions bound to the shell. `InvokeAsWritten` runs them as the code is
  written, with the REPL server as `this` (see "## Findings"). `StartShell` starts the
  `lastError` slot as `undefined` and assembles the table.
- **Runs of many lines** (`properties.dfy`, module `ShellProperties`). Evaluation never
  changes the command table. After any run, the slot holds the latest query failure.

The collaborators are oracles in a `World` record, one per input line: the host
evaluator, the parser, `runQueries` and `JSON.parse`. Each step returns the calls it
made, in order. That is how "nothing is evaluated" and "no query is sent" are stated.
Console output is a list of tagged `Line` values.

Two facts about the code are worth stating plainly:
- Only a rejected query writes `lastError`; a parse error is never recorded.
- Every error named `SyntaxError` becomes a `Recoverable`, including one that more
  input cannot fix.

The code as written has two edge cases, and the model keeps both:
- A rejection with no `faunaError` property makes the catch handler throw a `TypeError`
  before it prints anything. That error goes back to the host, and `lastError` is
  already set.
- An HTTP error whose body is not JSON makes `JSON.parse` throw a `SyntaxError` after
  the `Error:` line. The wrapper then reports a `Recoverable`, not a completed callback.

## Model

| member | source | states |
|---|---|---|
| Registry.FilterCommands | src/commands/shell.js:66-77 | a keyword is in the result iff it is in the input table and not in the deny-list; each kept keyword keeps its entry; the result equals the reference filter `Without` |
| Registry.WithoutIdempotent | src/commands/shell.js:66-77 | filtering twice with the same deny-list gives the same table as filtering once |
| Registry.WithoutNothing | src/commands/shell.js:69-76 | with an empty deny-list the filtered table equals the input table |
| Registry.DefineAll | src/commands/shell.js:61-63 | defining commands in order yields the old keywords plus every defined one; a keyword takes the entry of its last definition; undefined keywords keep their old entry |
| Registry.AssembleCommands | src/commands/shell.js:55-63 | the final table has no `load` or `editor`; `clear` and `last_error` hold the shell's own entries from the `commands` field whatever the host table held; every other host entry is kept unchanged and nothing else is added |
| Shell.StartShell | src/commands/shell.js:50-63 | the slot starts undefined; the table is the assembled shell table; `.load`/`.editor` are unknown keywords; with the actions bound to the shell `.last_error` then shows undefined, and as written it throws on `this.repl.context` before printing |
| Js.Trim | src/commands/shell.js:81 | the trimmed text is the middle of the input: only whitespace and line terminators come before and after it, and it neither starts nor ends with one |
| Js.TrimEmptyIffAllTrimmable | src/commands/shell.js:81 | `cmd.trim() === ""` holds exactly when every character is whitespace or a line terminator |
| Shell.Wrapped | src/commands/shell.js:86 | the parser gets the input between one opening and one closing parenthesis, with nothing else added |
| Shell.Catch | src/commands/shell.js:88-93 | an error is reported as Recoverable iff its name is `SyntaxError`, and the Recoverable wraps that error; any other error is handed back with the evaluation result; the callback is never completed empty here |
| Shell.ExecuteFql | src/commands/shell.js:99-122 | the runner gets exactly the given statements and is the only query sent; the only other call is `JSON.parse` on the body of an HTTP error; on success the result is printed and the slot is untouched; on failure the slot holds the rejection; a driver error prints one `Error:` line, then one payload dump iff it is an HTTP error whose body parses; an HTTP body that is not JSON rejects with the `SyntaxError` `JSON.parse` threw; a rejection without a driver error prints nothing and rejects with a `TypeError`; an error the runner throws before `.then`/`.catch` are attached leaves the slot alone, prints nothing and is what the step rejects with |
| Shell.Settle | src/commands/shell.js:87-93 | a fulfilled query step completes the callback with nothing, and only then; a rejected one goes through the catch handler with the host's result |
| Shell.AfterHostEval | src/commands/shell.js:86-93 | the parser gets the wrapped input; a parse error goes through the catch handler with the host's result, and nothing is sent; a parsed program is sent as the one query, the slot changes only to record its rejection, the cycle prints what the query step printed and completes as that step settled; a request for more input always carries a `SyntaxError` and a handed-back error never does |
| Shell.HostStage | src/commands/shell.js:83-95 | the input goes to the host evaluator first; a host error goes through the catch handler with the host's result and nothing else is called; otherwise the wrapped input is parsed, and a parsed body is the one query sent, whose rejection alone changes the slot |
| Shell.Eval | src/commands/shell.js:79-97 | blank input completes with no calls, no output and no session change; other input goes first to the host evaluator untouched; a host error, or a parse error after it, goes through the catch handler with the host's result and nothing else is called; the table never changes; the slot changes only to the failure of the query this cycle sent; exactly one query is sent iff host evaluation and parsing both succeed, and it is the parse body of the wrapped input; then the cycle prints what the query step printed and completes as that step settled |
| Shell.InvokeCommand | src/commands/shell.js:125-133 | a keyword that is neither in the table nor inherited by a plain object is unknown; an inherited one such as `constructor` throws because it has no action; `clear` clears the screen and re-prompts; `last_error` shows the current slot and re-prompts; this is with the actions bound to the shell |
| Shell.InvokeAsWritten | src/commands/shell.js:125-133 | with the REPL server as `this`, `last_error` throws before printing anything, `clear` clears the screen and then throws, and only host entries run to the end |
| ShellProperties.BlankInputDoesNothing | src/commands/shell.js:81 | input of only whitespace and line terminators leaves the session as it was, completes the callback with nothing, and calls no collaborator |
| ShellProperties.SyntaxErrorIsRecoverable | src/commands/shell.js:85-90 | a `SyntaxError` from the host evaluator or from parsing the wrapped input is reported as Recoverable, and no query is sent |
| ShellProperties.ParseErrorPassesThrough | src/commands/shell.js:86-92 | a parse error not named `SyntaxError` comes back as `cb(error, result)` with the host evaluator's result, after exactly the host-evaluator and parser calls, with the session unchanged |
| ShellProperties.HostErrorPassesThrough | src/commands/shell.js:85-92 | any other host error comes back as `cb(error, result)`, with no parse, no query and the session unchanged |
| ShellProperties.CompletionMatchesErrorName | src/commands/shell.js:88-93 | a Recoverable always carries a `SyntaxError`, and an error handed back to the host never does |
| ShellProperties.QuerySuccess | src/commands/shell.js:100-107 | a successful query prints its full result, completes the callback, and leaves the session unchanged |
| ShellProperties.QueryFailureRecorded | src/commands/shell.js:108-122 | a failed query with a driver error sets the slot to that error and prints an `Error:` line; the payload dump is added exactly for an HTTP error whose body parses as JSON; the callback then completes without an error, as it does for a non-HTTP error |
| ShellProperties.UnparseablePayloadAsksForMoreInput | src/commands/shell.js:108-122 | an HTTP error whose body is not JSON is recorded and its `Error:` line printed; then `JSON.parse`'s `SyntaxError` reaches the host as Recoverable |
| ShellProperties.MissingDriverErrorPassesTypeError | src/commands/shell.js:108-110 | a rejection without a driver error is recorded, prints nothing, and hands the host a `TypeError` with the evaluation result |
| ShellProperties.RunnerThrowSkipsHandler | src/commands/shell.js:99-108 | an error the query runner throws before the handlers are attached leaves the session unchanged, prints nothing, and reaches the host through the wrapper's catch handler with the host evaluator's result |
| ShellProperties.LastErrorShowsFailure | src/commands/shell.js:130-133 | after a failed query, `.last_error` shows exactly the error that query produced |
| ShellProperties.LastErrorAsWrittenShowsNothing | src/commands/shell.js:130-133 | as written, `.last_error` after a failed query throws on `this.repl` and prints nothing, so it differs from the bound action |
| ShellProperties.InheritedKeywordThrows | src/commands/shell.js:66-77 | in the assembled table, `.constructor` is found through the plain object's prototype and throws, since it has no action |
| ShellProperties.RunKeepsCommands | src/commands/shell.js:79-97 | no sequence of input lines changes the command table |
| ShellProperties.RunLastError | src/commands/shell.js:109 | after any run of input lines, the slot holds the failure of the latest line whose query failed, or its value from before the run if no query failed |
| ShellProperties.LastErrorCommandAfterRun | src/commands/shell.js:50 | from start-up on, `.last_error` shows the latest query failure of the run, or undefined when no query has failed |

## Findings

| source | as written | input that shows it | evidently intended | confidence | as-written member | corrected member |
|---|---|---|---|---|---|---|
| src/commands/shell.js:11-22 | the `commands` field stores `this.clear` and `this.lastError` unbound; the host calls an action with its REPL server as `this`, and that server has no `repl` property, so `lastError` throws on `this.repl.context` and `clear` throws on `this.repl.displayPrompt` | a failed query, then `.last_error` | `.last_error` prints the recorded error and re-prompts; `.clear` clears the screen and re-prompts | medium, not executed; it rests on Node's documented contract that `defineCommand` actions run with the REPL server as `this` | ShellProperties.LastErrorAsWrittenShowsNothing | ShellProperties.LastErrorShowsFailure |

## Left out

- Node's REPL internals: buffering of multi-line input after a `Recoverable`, reading `.keyword rest` lines, the "Invalid REPL keyword" message and the `.help` listing. The model stops at the signal the wrapper gives the host.
- Console formatting: `util.inspect` with unbounded depth, `compact: false`, `console.clear` and `displayPrompt` are I/O and a library formatter. They appear only as tagged `Line` values.
- The helper bindings copied into the evaluation context (`Object.assign(context, q)`). They live in the host evaluator's scope, which is an oracle here.
- Writes to the context by evaluated user code. A line such as `lastError = 1` changes the slot through the host evaluator, and the model's host evaluator does not touch the session.
- Shell.InvokeCommand: runs the shell's actions bound to the shell, as they were written to run. As the code stands they run with the REPL server as `this` and throw. `Shell.InvokeAsWritten` models that, and "## Findings" records it.
- Shell.StartShell: its `InvokeCommand` clause holds for the actions bound to the shell. As written, `.last_error` right after start-up throws, which its `InvokeAsWritten` clause states.
- ShellProperties.LastErrorShowsFailure: holds for the bound actions of `Shell.InvokeCommand`. As written, `.last_error` prints nothing (`ShellProperties.LastErrorAsWrittenShowsNothing`).
- ShellProperties.LastErrorCommandAfterRun: holds for the bound actions of `Shell.InvokeCommand`, as the line above explains.
- A host table entry named `__proto__`: copying it into the plain object would replace the object's prototype rather than add an entry. Node's default table has no such entry.
- The texts of the `TypeError`s the model names are V8's wording where it is known, and stand-ins otherwise. Only the error name is ever inspected.
- The host evaluator, the script parser, `runQueries`, the driver's HTTP-error class test and `JSON.parse` are foreign code and network calls. They are oracles, and an HTTP error is one whose `responseRaw` is present. Statement ordering and fail-fast behaviour inside the query runner are not visible here.
- Shell.ExecuteFql: a rejection value that is `undefined` or `null` is not modelled; every rejection is an object with an optional `faunaError`. Errors thrown by the success handler or by the callback itself are not modelled either. A synchronous throw from `runQueries`, or a return value that is not a promise, is modelled as one `Thrown` answer; the model does not tell the two apart. The `TypeError` message text is V8's wording and stands in for whatever the engine produces.
- Promise and async sequencing: one cycle is one sequential step, and every collaborator answers. A query that never settles is not modelled.
- Connection and CLI plumbing: `run`, scoped clients, endpoint banners, log lines, the prompt text, and the command's `args`, `flags`, `description` and `examples`.
- The test helpers in `test/helpers/utils.js`. They read environment variables to build CLI options and an endpoint URL, and are not shell behaviour.
