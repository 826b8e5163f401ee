/**
 The shell's command registry: the table of REPL meta-commands (`.keyword`), built at
 start-up from the host REPL's own table, minus a deny-list, plus the shell's two
 commands. A table maps a keyword to the `{help, action}` entry stored under it.
 */
module Registry {

  import opened Js

  /** What an entry runs when invoked. Host entries are opaque and told apart by keyword. */
  datatype Action = HostAction(id: string) | ClearScreen | ShowLastError

  /** The `{help, action}` object a REPL keeps under a command keyword. */
  datatype Command = Command(help: string, action: Action)

  type Table = map<string, Command>

  /** One element of the shell's `commands` field: a keyword and the entry defined for it. */
  datatype Definition = Definition(cmd: string, options: Command)

  /** The shell's own commands, in declaration order. */
  const ShellCommands: seq<Definition> := [
    Definition("clear", Command("Clear the repl", ClearScreen)),
    Definition("last_error", Command("Display the last error", ShowLastError))
  ]

  /** Host commands the shell refuses to expose: loading files, the multi-line
      editor, and the host `clear` (which would also reset the evaluation context). */
  const Unwanted: seq<string> := ["load", "editor", "clear"]

  /** The properties every plain JavaScript object inherits from `Object.prototype`.
      The table `filterCommands` builds is a plain object `{}`, so a lookup of one of
      these keywords in it finds an inherited value, which is not a command entry. */
  const InheritedKeywords: set<string> := {
    "constructor", "__proto__", "hasOwnProperty", "isPrototypeOf",
    "propertyIsEnumerable", "toString", "toLocaleString", "valueOf",
    "__defineGetter__", "__defineSetter__", "__lookupGetter__", "__lookupSetter__"
  }

  /** Reference meaning of filtering: the entries of `commands` whose keyword is not unwanted. */
  function Without<V>(commands: map<string, V>, unwanted: seq<string>): map<string, V>
  {
    map k | k in commands && k !in unwanted :: commands[k]
  }

  /** `filterCommands`: walks the keys of `commands` and copies every entry whose
      keyword is not in `unwanted` into a fresh table. */
  method FilterCommands<V>(commands: map<string, V>, unwanted: seq<string>) returns (filtered: map<string, V>)
    ensures forall k :: k in filtered <==> k in commands && k !in unwanted
    ensures forall k :: k in filtered ==> filtered[k] == commands[k]
    ensures filtered == Without(commands, unwanted)
  {
    var keys := commands.Keys;
    filtered := map[];
    while keys != {}
      invariant keys <= commands.Keys
      invariant forall k :: k in filtered <==> k in commands && k !in keys && k !in unwanted
      invariant forall k :: k in filtered ==> filtered[k] == commands[k]
      decreases keys
    {
      var k :| k in keys;
      if k !in unwanted {
        filtered := filtered[k := commands[k]];
      }
      keys := keys - {k};
    }
  }

  /** Filtering twice with the same deny-list changes nothing more. */
  lemma WithoutIdempotent<V>(commands: map<string, V>, unwanted: seq<string>)
    ensures Without(Without(commands, unwanted), unwanted) == Without(commands, unwanted)
  {
  }

  /** An empty deny-list keeps every entry. */
  lemma WithoutNothing<V>(commands: map<string, V>)
    ensures Without(commands, []) == commands
  {
  }

  /** The entry a list of definitions leaves bound to keyword `k` when applied in
      order: the options of the last definition for `k`, if there is one. */
  function LastBinding(defs: seq<Definition>, k: string): Option<Command>
  {
    if defs == [] then None
    else match LastBinding(defs[1..], k)
      case Some(c) => Some(c)
      case None => if defs[0].cmd == k then Some(defs[0].options) else None
  }

  /** `defineCommand` applied to each definition in turn: every call binds its keyword,
      overwriting any entry already there, so the last definition of a keyword wins. */
  function DefineAll(table: Table, defs: seq<Definition>): (r: Table)
    ensures forall k :: k in r <==> k in table || LastBinding(defs, k).Some?
    ensures forall k :: k in r && LastBinding(defs, k).Some? ==> r[k] == LastBinding(defs, k).value
    ensures forall k :: k in table && LastBinding(defs, k).None? ==> r[k] == table[k]
    decreases |defs|
  {
    if defs == [] then table
    else DefineAll(table[defs[0].cmd := defs[0].options], defs[1..])
  }

  /** The keyword is one the shell defines itself. */
  predicate IsShellKeyword(k: string) {
    k == "clear" || k == "last_error"
  }

  /** The table the shell ends up with, stated against the host REPL's table: no `load`
      or `editor`, `clear` and `last_error` bound to the shell's own actions, and every
      other host entry kept unchanged. */
  ghost predicate ShellTable(host: Table, t: Table) {
    && "load" !in t
    && "editor" !in t
    && "clear" in t && t["clear"] == Command("Clear the repl", ClearScreen)
    && "last_error" in t && t["last_error"] == Command("Display the last error", ShowLastError)
    && (forall k :: k in t <==> IsShellKeyword(k) || (k in host && k !in Unwanted))
    && (forall k :: k in t && !IsShellKeyword(k) ==> t[k] == host[k])
  }

  /** Start-up assembly of the command table: filter the host table through the
      deny-list, then define the shell's own commands over the result. */
  method AssembleCommands(host: Table) returns (t: Table)
    ensures ShellTable(host, t)
  {
    var filtered := FilterCommands(host, Unwanted);
    assert "clear" !in filtered;
    t := DefineAll(filtered, ShellCommands);
    assert forall k :: LastBinding(ShellCommands, k).Some? <==> IsShellKeyword(k);
  }
}
