/**
 * The command runtime (packages/cerebro-core/src/cli.ts): the `Cli` class
 * with its write-once command registry, its ordered extensions and loaders,
 * the output level chosen from argv, and `run`, which runs the loaders,
 * resolves a command, merges its options with the global ones, lets the
 * extensions fill a fresh toolbox and dispatches.
 */
module Runtime {
  import opened Js
  import opened Strings
  import opened Utils
  import opened Levenshtein
  import opened ParameterTools
  import opened DefaultArguments
  import opened Domain
  import opened LoadModule
  import opened Loaders
  import opened PrintTools

  /** A warning or error handed to the logger. Debug lines are not kept. */
  datatype LogLine = Warning(text: string) | ErrorLine(text: string)

  /* ---------------------------------------------------------------- */
  /* The command registry                                               */
  /* ---------------------------------------------------------------- */

  /** The `commands` Map: its keys in insertion order, and its entries. */
  datatype Registry = Registry(keys: seq<string>, entries: map<string, Command>)

  /** The keys are those of the entries, each once. */
  ghost predicate ValidRegistry(reg: Registry)
  {
    Distinct(reg.keys) && forall k :: k in reg.entries <==> k in reg.keys
  }

  /** `commands.set(k, c)` where k is not yet a key: k goes to the end. */
  function Insert(reg: Registry, k: string, c: Command): (r: Registry)
    ensures k in reg.entries ==> r == reg
  {
    if k in reg.entries then reg else Registry(reg.keys + [k], reg.entries[k := c])
  }

  /** The aliases loop of `addCommand`: each alias that is not yet a key is mapped to c. */
  function InsertAll(reg: Registry, aliases: seq<string>, c: Command): Registry
    decreases |aliases|
  {
    if |aliases| == 0 then reg
    else Insert(InsertAll(reg, aliases[..|aliases| - 1], c), aliases[|aliases| - 1], c)
  }

  function AliasWarning(alias: string): string
  {
    "Ignoring command alias \"" + alias + ", command with the same name was found.\""
  }

  function NameWarning(name: string): string
  {
    "Ignored command with name \"" + name + ", it was found in the command list.\""
  }

  /** The warnings of the aliases loop: one per alias that was already a key when its turn came. */
  function AliasWarnings(reg: Registry, aliases: seq<string>, c: Command): seq<LogLine>
    decreases |aliases|
  {
    if |aliases| == 0 then []
    else
      var before := aliases[..|aliases| - 1];
      var alias := aliases[|aliases| - 1];
      AliasWarnings(reg, before, c)
      + (if alias in InsertAll(reg, before, c).entries then [Warning(AliasWarning(alias))] else [])
  }

  /**
   * The aliases `addCommand` walks: none when the alias is undefined, a
   * string as a one-element list, a list as it is. A null alias is not
   * undefined, so `null.forEach` throws.
   */
  function AliasesToRegister(c: Command): (r: Result<seq<string>>)
    ensures r.Err? <==> c.alias.NullAlias?
    ensures c.alias.AliasString? ==> r == Ok([c.alias.s])
    ensures c.alias.AliasList? ==> r == Ok(c.alias.items)
    ensures c.alias.NoAlias? ==> r == Ok([])
  {
    match c.alias
    case NoAlias => Ok([])
    case NullAlias => Err(TypeError("Cannot read properties of null (reading 'forEach')"))
    case AliasString(s) => Ok([s])
    case AliasList(items) => Ok(items)
  }

  /** What one `addCommand` call does: the new registry, the error it throws, and its warnings. */
  datatype Added = Added(reg: Registry, error: Option<JsError>, log: seq<LogLine>)

  function AddCommandSpec(reg: Registry, c: Command): Added
  {
    if c.name in reg.entries then Added(reg, None, [Warning(NameWarning(c.name))])
    else
      var named := Insert(reg, c.name, c);
      match AliasesToRegister(c)
      case Err(e) => Added(named, Some(e), [])
      case Ok(aliases) => Added(InsertAll(named, aliases, c), None, AliasWarnings(named, aliases, c))
  }

  /** The aliases that become new keys, in order: those not in seen and not earlier in the list. */
  function Fresh(seen: set<string>, aliases: seq<string>): seq<string>
    decreases |aliases|
  {
    if |aliases| == 0 then []
    else
      var before := Fresh(seen, aliases[..|aliases| - 1]);
      var alias := aliases[|aliases| - 1];
      before + (if alias in seen || alias in before then [] else [alias])
  }

  /**
   * The aliases loop keeps the registry valid, never changes an existing
   * entry, appends exactly the fresh aliases in order, and maps each of them
   * to c; afterwards every alias is a key.
   */
  lemma InsertAllEffect(reg: Registry, aliases: seq<string>, c: Command)
    requires ValidRegistry(reg)
    ensures var r := InsertAll(reg, aliases, c);
      && ValidRegistry(r)
      && r.keys == reg.keys + Fresh(reg.entries.Keys, aliases)
      && (forall k :: k in reg.entries ==> k in r.entries && r.entries[k] == reg.entries[k])
      && (forall k :: k in r.entries && k !in reg.entries ==> r.entries[k] == c)
      && (forall a :: a in aliases ==> a in r.entries)
  {
    InsertAllKeys(reg, aliases, c);
    InsertAllEntries(reg, aliases, c);
    InsertAllCovers(reg, aliases, c);
  }

  /** The registry stays valid and gains exactly the fresh aliases, in order. */
  lemma {:induction false} InsertAllKeys(reg: Registry, aliases: seq<string>, c: Command)
    requires ValidRegistry(reg)
    ensures var r := InsertAll(reg, aliases, c);
      ValidRegistry(r) && r.keys == reg.keys + Fresh(reg.entries.Keys, aliases)
    decreases |aliases|
  {
    if |aliases| > 0 {
      var before := aliases[..|aliases| - 1];
      var alias := aliases[|aliases| - 1];
      InsertAllKeys(reg, before, c);
      var mid := InsertAll(reg, before, c);
      var newKeys := Fresh(reg.entries.Keys, before);
      assert alias in mid.entries <==> alias in reg.entries.Keys || alias in newKeys;
      InsertEffect(mid, alias, c);
      var tail := if alias in reg.entries.Keys || alias in newKeys then [] else [alias];
      assert Fresh(reg.entries.Keys, aliases) == newKeys + tail;
      assert InsertAll(reg, aliases, c).keys == (reg.keys + newKeys) + tail;
    }
  }

  /** No existing entry changes, and every added entry maps to c. */
  lemma {:induction false} InsertAllEntries(reg: Registry, aliases: seq<string>, c: Command)
    ensures var r := InsertAll(reg, aliases, c);
      && (forall k :: k in reg.entries ==> k in r.entries && r.entries[k] == reg.entries[k])
      && (forall k :: k in r.entries && k !in reg.entries ==> r.entries[k] == c)
    decreases |aliases|
  {
    if |aliases| > 0 {
      InsertAllEntries(reg, aliases[..|aliases| - 1], c);
    }
  }

  /** Afterwards every alias is a key. */
  lemma {:induction false} InsertAllCovers(reg: Registry, aliases: seq<string>, c: Command)
    ensures forall a :: a in aliases ==> a in InsertAll(reg, aliases, c).entries
    decreases |aliases|
  {
    if |aliases| > 0 {
      var before := aliases[..|aliases| - 1];
      InsertAllCovers(reg, before, c);
      InsertAllEntries(InsertAll(reg, before, c), [aliases[|aliases| - 1]], c);
      assert aliases == before + [aliases[|aliases| - 1]];
    }
  }

  /** One `commands.set` of an absent key keeps the registry valid, appends the key and keeps every other entry. */
  lemma InsertEffect(reg: Registry, k: string, c: Command)
    requires ValidRegistry(reg)
    ensures var r := Insert(reg, k, c);
      && ValidRegistry(r)
      && r.keys == reg.keys + (if k in reg.entries then [] else [k])
      && k in r.entries
      && (forall x :: x in reg.entries ==> x in r.entries && r.entries[x] == reg.entries[x])
      && (forall x :: x in r.entries && x !in reg.entries ==> x == k && r.entries[x] == c)
  {
    if k !in reg.entries {
      assert k !in reg.keys;
    }
  }

  /** A command whose name is already a key changes nothing and logs one warning. */
  lemma AddCommandExisting(reg: Registry, c: Command)
    requires c.name in reg.entries
    ensures AddCommandSpec(reg, c) == Added(reg, None, [Warning(NameWarning(c.name))])
  {
  }

  /**
   * A command with a new name is registered under its name, appended first,
   * then under each alias that is not yet a key, in order; no existing key
   * is overwritten and the registry stays valid.
   */
  lemma AddCommandNew(reg: Registry, c: Command)
    requires ValidRegistry(reg) && c.name !in reg.entries && !c.alias.NullAlias?
    ensures var r := AddCommandSpec(reg, c).reg;
      && ValidRegistry(r)
      && r.keys == reg.keys + [c.name] + Fresh(reg.entries.Keys + {c.name}, AliasesToRegister(c).value)
      && r.entries[c.name] == c
      && (forall k :: k in reg.entries ==> r.entries[k] == reg.entries[k])
      && (forall k :: k in r.entries && k !in reg.entries ==> r.entries[k] == c)
      && (forall a :: a in AliasesToRegister(c).value ==> a in r.entries)
      && AddCommandSpec(reg, c).error.None?
  {
    var named := Insert(reg, c.name, c);
    assert named.entries.Keys == reg.entries.Keys + {c.name};
    assert ValidRegistry(named) by {
      forall i, j | 0 <= i < j < |named.keys|
        ensures named.keys[i] != named.keys[j]
      {
        if j == |reg.keys| {
          assert named.keys[i] == reg.keys[i];
        }
      }
    }
    InsertAllEffect(named, AliasesToRegister(c).value, c);
  }

  /** With any alias, `addCommand` never overwrites a key and keeps the registry valid. */
  lemma AddCommandNoOverwrite(reg: Registry, c: Command)
    requires ValidRegistry(reg)
    ensures ValidRegistry(AddCommandSpec(reg, c).reg)
    ensures forall k :: k in reg.entries ==>
      k in AddCommandSpec(reg, c).reg.entries && AddCommandSpec(reg, c).reg.entries[k] == reg.entries[k]
  {
    if c.name !in reg.entries {
      if c.alias.NullAlias? {
        var named := Insert(reg, c.name, c);
        assert ValidRegistry(named) by {
          forall i, j | 0 <= i < j < |named.keys|
            ensures named.keys[i] != named.keys[j]
          {
            if j == |reg.keys| {
              assert named.keys[i] == reg.keys[i];
            }
          }
        }
      } else {
        AddCommandNew(reg, c);
      }
    }
  }

  /** An alias equal to the name, or repeated, is skipped with a warning instead of re-registered. */
  lemma AddCommandRepeatedAlias(c: Command, a: string)
    requires c.name != a && c.alias == AliasList([a, a, c.name])
    ensures AddCommandSpec(Registry([], map[]), c).reg == Registry([c.name, a], map[c.name := c, a := c])
    ensures AddCommandSpec(Registry([], map[]), c).log == [Warning(AliasWarning(a)), Warning(AliasWarning(c.name))]
  {
    var named := Registry([c.name], map[c.name := c]);
    var aliases := [a, a, c.name];
    var one := Registry([c.name, a], map[c.name := c, a := c]);
    assert Insert(Registry([], map[]), c.name, c) == named;
    assert AddCommandSpec(Registry([], map[]), c) == Added(InsertAll(named, aliases, c), None, AliasWarnings(named, aliases, c));
    assert aliases[..2] == [a, a] && [a, a][..1] == [a] && [a][..0] == [];
    assert InsertAll(named, [a], c) == one;
    assert InsertAll(named, [a, a], c) == one;
    assert AliasWarnings(named, [a], c) == [];
    assert AliasWarnings(named, [a, a], c) == [Warning(AliasWarning(a))];
  }

  /* ---------------------------------------------------------------- */
  /* The built-in commands and extensions                               */
  /* ---------------------------------------------------------------- */

  /** packages/cerebro-core/src/commands/version.ts. */
  function VersionCommand(): Command
  {
    Command("version", Some("Output the version number"), None, Func("version"), false, None,
            AliasList(["v", "V"]), [])
  }

  /** packages/cerebro-core/src/commands/help.ts: no alias, one default option. */
  function HelpCommand(): Command
  {
    Command("help", None, None, Func("help"), false, None, NoAlias,
            [OptionDef("command", map["description" := Str("The command to display help for"),
                                      "defaultOption" := Bool(true)])])
  }

  /** The core extensions, each identified by the toolbox slot its setup fills. */
  function CoreExtensions(): seq<Extension>
  {
    [ Extension("meta", Func("meta"), None, None),
      Extension("print", Func("print"), None, None),
      Extension("prompt", Func("prompts"), None, None),
      Extension("system", Func("system"), None, None),
      Extension("logger", Func("logger"), None, None) ]
  }

  /** The registry right after construction. */
  lemma InitialRegistry()
    ensures AddCommandSpec(Registry([], map[]), VersionCommand())
      == Added(Registry(["version", "v", "V"], map["version" := VersionCommand(), "v" := VersionCommand(), "V" := VersionCommand()]), None, [])
    ensures var r := AddCommandSpec(AddCommandSpec(Registry([], map[]), VersionCommand()).reg, HelpCommand());
      && r.reg.keys == ["version", "v", "V", "help"]
      && r.reg.entries == map["version" := VersionCommand(), "v" := VersionCommand(), "V" := VersionCommand(),
                              "help" := HelpCommand()]
      && r.log == [] && r.error.None?
  {
    var v := VersionCommand();
    var empty := Registry([], map[]);
    var named := Insert(empty, "version", v);
    var aliases := ["v", "V"];
    assert aliases[..1] == ["v"] && aliases[..1][..0] == [];
    assert "v" != "version" && "V" != "version" && "V" != "v";
    assert InsertAll(named, aliases, v) == Registry(["version", "v", "V"], map["version" := v, "v" := v, "V" := v]);
    assert AliasWarnings(named, aliases, v) == [];
  }

  /* ---------------------------------------------------------------- */
  /* Output level                                                       */
  /* ---------------------------------------------------------------- */

  /** The CEREBRO_OUTPUT_LEVEL the constructor leaves: quiet, then the first verbose flag, in that order. */
  function OutputLevel(argv: seq<string>): int
  {
    var level := if "--quiet" in argv || "-q" in argv then VerbosityQuiet else VerbosityNormal;
    if "--verbose" in argv || "-v" in argv then VerbosityVerbose
    else if "--very-verbose" in argv || "-vv" in argv then VerbosityVeryVerbose
    else if "--debug" in argv || "-vvv" in argv then VerbosityDebug
    else level
  }

  /**
   * Normal by default, quiet for --quiet or -q, and any verbose flag wins
   * over quiet, with --verbose over --very-verbose over --debug.
   */
  lemma OutputLevelCases(argv: seq<string>)
    ensures OutputLevel(argv) in {VerbosityQuiet, VerbosityNormal, VerbosityVerbose, VerbosityVeryVerbose, VerbosityDebug}
    ensures OutputLevel(argv) == VerbosityNormal <==>
      !("--quiet" in argv || "-q" in argv || "--verbose" in argv || "-v" in argv
        || "--very-verbose" in argv || "-vv" in argv || "--debug" in argv || "-vvv" in argv)
    ensures OutputLevel(argv) == VerbosityQuiet <==>
      ("--quiet" in argv || "-q" in argv)
      && !("--verbose" in argv || "-v" in argv || "--very-verbose" in argv || "-vv" in argv
           || "--debug" in argv || "-vvv" in argv)
    ensures ("--verbose" in argv || "-v" in argv) ==> OutputLevel(argv) == VerbosityVerbose
  {
  }

  /* ---------------------------------------------------------------- */
  /* The toolbox and the pieces of `run`                                */
  /* ---------------------------------------------------------------- */

  /** `toolbox.parameters`; a None field is absent. */
  datatype Parameters = Parameters(command: Option<string>, options: map<string, Value>,
                                   raw: Option<seq<string>>, argv: Option<seq<string>>)

  /**
   * The toolbox a command runs with: the slots extensions fill (meta, print,
   * prompts, system, logger and any other), whether the runtime is
   * attached, and the fields `run` sets.
   */
  datatype Toolbox = Toolbox(slots: map<string, Value>, runtime: bool, parameters: Parameters,
                             command: Option<Command>, commandName: Option<string>, result: Option<Value>)

  /** `new EmptyToolbox()` with the runtime attached. */
  function FreshToolbox(): Toolbox
  {
    Toolbox(map[], true, Parameters(None, map[], None, None), None, None, None)
  }

  /** The outcome of `commandLineCommands`: a command token (None for null) and the rest, or a thrown error with its `command` property. */
  datatype ParseOutcome = Parsed(command: Option<string>, argv: seq<string>) | Thrown(error: JsError, token: string)

  /**
   * Everything `run` depends on outside the runtime: the host the loaders
   * use, `process.argv`, the two argument parsers, the effect of an
   * extension's setup function on the toolbox (or the error it throws), and
   * the outcome of calling a command's execute function.
   */
  datatype Env = Env(
    host: Host,
    processArgv: seq<string>,
    bundledElectron: bool,
    parseCommands: (seq<string>, seq<string>) -> ParseOutcome,
    parseArgs: (seq<OptionDef>, seq<string>) -> Result<Value>,
    setup: (Value, Toolbox) -> Result<Toolbox>,
    execute: (Value, Toolbox) -> Result<Value>)

  /**
   * The toolbox after each extension has run in order; non-functions are
   * skipped, and the first setup that throws ends the loop with its error.
   */
  function ApplyExtensions(extensions: seq<Extension>, setup: (Value, Toolbox) -> Result<Toolbox>, t: Toolbox): Result<Toolbox>
    decreases |extensions|
  {
    if |extensions| == 0 then Ok(t)
    else
      var e := extensions[|extensions| - 1];
      match ApplyExtensions(extensions[..|extensions| - 1], setup, t)
      case Err(error) => Err(error)
      case Ok(before) => if e.execute.Func? then setup(e.execute, before) else Ok(before)
  }

  /** The skip warnings the extension loop logs before it ends, at the first throw or after the last extension. */
  function ExtensionWarnings(extensions: seq<Extension>, setup: (Value, Toolbox) -> Result<Toolbox>, t: Toolbox): seq<LogLine>
    decreases |extensions|
  {
    if |extensions| == 0 then []
    else
      var before := extensions[..|extensions| - 1];
      var e := extensions[|extensions| - 1];
      ExtensionWarnings(before, setup, t)
      + (if ApplyExtensions(before, setup, t).Ok? && !e.execute.Func? then [Warning(SkipWarning(e.name))] else [])
  }

  /** One more extension, after the ones before it succeeded, either sets up the toolbox or adds one skip warning. */
  lemma ExtensionsNext(all: seq<Extension>, index: int, setup: (Value, Toolbox) -> Result<Toolbox>, t: Toolbox)
    requires 0 <= index < |all|
    requires ApplyExtensions(all[..index], setup, t).Ok?
    ensures var e := all[index];
      var before := ApplyExtensions(all[..index], setup, t).value;
      && ApplyExtensions(all[..index + 1], setup, t) == (if e.execute.Func? then setup(e.execute, before) else Ok(before))
      && ExtensionWarnings(all[..index + 1], setup, t)
        == ExtensionWarnings(all[..index], setup, t) + (if e.execute.Func? then [] else [Warning(SkipWarning(e.name))])
  {
    assert all[..index + 1][..index] == all[..index];
  }

  /** Once a setup has thrown, the extensions after it neither run nor warn. */
  lemma {:induction false} ExtensionsStop(a: seq<Extension>, b: seq<Extension>, setup: (Value, Toolbox) -> Result<Toolbox>, t: Toolbox)
    requires ApplyExtensions(a, setup, t).Err?
    ensures ApplyExtensions(a + b, setup, t) == ApplyExtensions(a, setup, t)
    ensures ExtensionWarnings(a + b, setup, t) == ExtensionWarnings(a, setup, t)
    decreases |b|
  {
    if |b| > 0 {
      ExtensionsStop(a, b[..|b| - 1], setup, t);
      assert (a + b)[..|a + b| - 1] == a + b[..|b| - 1];
    } else {
      assert a + b == a;
    }
  }

  /** When no setup throws, the loop logs exactly the skip warnings of all the extensions. */
  lemma {:induction false} ExtensionWarningsWhenAllRun(extensions: seq<Extension>, setup: (Value, Toolbox) -> Result<Toolbox>, t: Toolbox)
    requires ApplyExtensions(extensions, setup, t).Ok?
    ensures ExtensionWarnings(extensions, setup, t) == SkipWarnings(extensions)
    decreases |extensions|
  {
    if |extensions| > 0 {
      var before := extensions[..|extensions| - 1];
      assert ApplyExtensions(before, setup, t).Ok?;
      ExtensionWarningsWhenAllRun(before, setup, t);
    }
  }

  function SkipWarning(name: string): string
  {
    "Skipped " + name + " because execute is not a function."
  }

  /** The warnings of the extension loop: one per extension whose execute is not a function, in order. */
  function SkipWarnings(extensions: seq<Extension>): (r: seq<LogLine>)
    ensures |r| <= |extensions|
    ensures forall e :: e in extensions && !e.execute.Func? ==> Warning(SkipWarning(e.name)) in r
    ensures (forall e :: e in extensions ==> e.execute.Func?) ==> r == []
    decreases |extensions|
  {
    if |extensions| == 0 then []
    else
      var before := extensions[..|extensions| - 1];
      var e := extensions[|extensions| - 1];
      assert forall x :: x in extensions ==> x in before || x == e;
      SkipWarnings(before) + (if e.execute.Func? then [] else [Warning(SkipWarning(e.name))])
  }

  /** Running a list of extensions after another is running their concatenation; a throw in the first list ends both. */
  lemma {:induction false} ApplyExtensionsAppend(a: seq<Extension>, b: seq<Extension>, setup: (Value, Toolbox) -> Result<Toolbox>, t: Toolbox)
    ensures ApplyExtensions(a + b, setup, t)
            == match ApplyExtensions(a, setup, t)
               case Err(e) => Err(e)
               case Ok(middle) => ApplyExtensions(b, setup, middle)
    decreases |b|
  {
    if |b| > 0 {
      ApplyExtensionsAppend(a, b[..|b| - 1], setup, t);
      assert (a + b)[..|a + b| - 1] == a + b[..|b| - 1];
    } else {
      assert a + b == a;
    }
  }

  /** An extension whose execute is not a function leaves the toolbox as it is. */
  lemma ApplyExtensionsSkips(a: seq<Extension>, e: Extension, b: seq<Extension>, setup: (Value, Toolbox) -> Result<Toolbox>, t: Toolbox)
    requires !e.execute.Func?
    ensures ApplyExtensions(a + [e] + b, setup, t) == ApplyExtensions(a + b, setup, t)
  {
    ApplyExtensionsAppend(a + [e], b, setup, t);
    ApplyExtensionsAppend(a, b, setup, t);
    assert (a + [e])[..|a + [e]| - 1] == a;
  }

  /**
   * `parseCLIArgs(raw)`: the parser's `_all` group (or the falsy raw value
   * itself), spread into a new object, with `extra-dependencies` also under
   * `extraDependencies` and `fragment` also under `fragments` when truthy.
   * Reading a property of null or undefined throws.
   */
  function ParseCliArgs(raw: Value): (r: Result<map<string, Value>>)
    ensures r.Err? <==> IsNil(if Truthy(raw) then Get(raw, "_all") else raw)
    ensures r.Ok? ==> var all := if Truthy(raw) then Get(raw, "_all") else raw;
      && (all.Obj? ==> forall k :: k in all.fields && k != "extraDependencies" && k != "fragments"
                                   ==> k in r.value && r.value[k] == all.fields[k])
      && (Truthy(Get(all, "extra-dependencies")) ==> "extraDependencies" in r.value && r.value["extraDependencies"] == Get(all, "extra-dependencies"))
      && (Truthy(Get(all, "fragment")) ==> "fragments" in r.value && r.value["fragments"] == Get(all, "fragment"))
  {
    var options := if Truthy(raw) then Get(raw, "_all") else raw;
    if IsNil(options) then
      Err(TypeError("Cannot read properties of " + (if options.Null? then "null" else "undefined")
                    + " (reading 'extra-dependencies')"))
    else
      var spread := if options.Obj? then options.fields else map[];
      var withDependencies := if Truthy(Get(options, "extra-dependencies"))
                              then spread["extraDependencies" := Get(options, "extra-dependencies")]
                              else spread;
      Ok(if Truthy(Get(options, "fragment")) then withDependencies["fragments" := Get(options, "fragment")]
         else withDependencies)
  }

  /** `options[k]` on the parsed options. */
  function OptionValue(options: map<string, Value>, k: string): Value
  {
    if k in options then options[k] else Undefined
  }

  /** Which command `prepareToolboxResult` runs: help, then version, then the resolved one. */
  function DispatchTarget(entries: map<string, Command>, options: map<string, Value>, command: Command): (r: Result<Command>)
    ensures Truthy(OptionValue(options, "help")) ==>
      r == if "help" in entries then Ok(entries["help"]) else Err(Error("Help command not found."))
    ensures !Truthy(OptionValue(options, "help")) && (Truthy(OptionValue(options, "version")) || Truthy(OptionValue(options, "V"))) ==>
      r == if "version" in entries then Ok(entries["version"]) else Err(Error("Version command not found."))
    ensures !Truthy(OptionValue(options, "help")) && !Truthy(OptionValue(options, "version")) && !Truthy(OptionValue(options, "V")) ==>
      r == Ok(command)
  {
    if Truthy(OptionValue(options, "help")) then
      if "help" in entries then Ok(entries["help"]) else Err(Error("Help command not found."))
    else if Truthy(OptionValue(options, "version")) || Truthy(OptionValue(options, "V")) then
      if "version" in entries then Ok(entries["version"]) else Err(Error("Version command not found."))
    else Ok(command)
  }

  /** Calling `f(toolbox)`: a value that is not a function throws. */
  function Call(env: Env, f: Value, t: Toolbox): Result<Value>
  {
    if f.Func? then env.execute(f, t) else Err(TypeError(Display(f) + " is not a function"))
  }

  /** `prepareToolboxResult(options, toolbox, command)`. */
  function PrepareToolboxResult(env: Env, entries: map<string, Command>, options: map<string, Value>,
                                t: Toolbox, command: Command): Result<Value>
  {
    match DispatchTarget(entries, options, command)
    case Err(e) => Err(e)
    case Ok(target) => Call(env, target.execute, t)
  }

  /** The error line for a token that is no command, with the "did you mean" list. */
  function InvalidCommandMessage(token: string, alternatives: seq<string>): string
  {
    "\r\n\"" + token + "\" is not an available command."
    + (if |alternatives| > 0 then " Did you mean: \r\n    - " + Join(alternatives, "    \r\n- ") else "")
    + "\r\n"
  }

  /** What `run` returns (a toolbox, or undefined as None, or the error it throws) and the lines it logs. */
  datatype RunResult = RunResult(value: Result<Option<Toolbox>>, log: seq<LogLine>)

  /** The command name `run` resolves: the parsed token if truthy, else the default command. */
  function ResolvedName(parsed: Option<string>, defaultCommand: string): string
  {
    if parsed.Some? && parsed.value != "" then parsed.value else defaultCommand
  }

  /** The toolbox `run` hands to the dispatch, after the extensions ran; a setup that throws gives its error. */
  function PreparedToolbox(env: Env, extensions: seq<Extension>, command: Command, options: map<string, Value>,
                           argv: seq<string>): Result<Toolbox>
  {
    match ApplyExtensions(extensions, env.setup, FreshToolbox())
    case Err(e) => Err(e)
    case Ok(t) =>
      Ok(t.(parameters := Parameters(Some(command.name), options, Some(argv), Some(env.processArgv)),
            command := Some(command), commandName := Some(command.name)))
  }

  /**
   * `run` after the loaders: what it returns and logs, given the registry,
   * the extensions, the default command and argv. `extraOptions` only ever
   * reaches a debug dump, so it does not appear.
   */
  function RunAfterLoaders(env: Env, reg: Registry, extensions: seq<Extension>, defaultCommand: string,
                           argv: seq<string>): RunResult
  {
    match env.parseCommands(reg.keys, ParseRawCommand(RawList(argv), env.processArgv, env.bundledElectron))
    case Thrown(e, token) =>
      if e.kind == "INVALID_COMMAND" && token != "" then
        RunResult(Ok(None), [ErrorLine(InvalidCommandMessage(token, FindAlternatives(token, reg.keys)))])
      else RunResult(Err(e), [])
    case Parsed(token, commandArgv) =>
      var name := ResolvedName(token, defaultCommand);
      if name !in reg.entries then
        RunResult(Err(TypeError("Cannot read properties of undefined (reading 'execute')")), [])
      else
        var command := reg.entries[name];
        if !command.execute.Func? then
          RunResult(Ok(None), [ErrorLine("Command \"" + command.name + "\" has no function to execute.")])
        else
          match env.parseArgs(Merged([command.args, DefaultArguments.DefaultArguments()]), commandArgv)
          case Err(e) => RunResult(Err(e), [])
          case Ok(raw) =>
            match ParseCliArgs(raw)
            case Err(e) => RunResult(Err(e), [])
            case Ok(options) =>
              var warnings := ExtensionWarnings(extensions, env.setup, FreshToolbox());
              match PreparedToolbox(env, extensions, command, options, argv)
              case Err(e) => RunResult(Err(e), warnings)
              case Ok(t) =>
                match PrepareToolboxResult(env, reg.entries, options, t, command)
                case Err(e) => RunResult(Err(e), warnings)
                case Ok(result) => RunResult(Ok(Some(t.(result := Some(result)))), warnings)
  }

  /**
   * A token that is not a registry key logs one error listing the
   * alternatives among all keys and returns undefined; any other parse error
   * is rethrown and nothing is logged.
   */
  lemma RunInvalidCommand(env: Env, reg: Registry, extensions: seq<Extension>, defaultCommand: string, argv: seq<string>)
    ensures var parsed := env.parseCommands(reg.keys, ParseRawCommand(RawList(argv), env.processArgv, env.bundledElectron));
      var r := RunAfterLoaders(env, reg, extensions, defaultCommand, argv);
      && (parsed.Thrown? && parsed.error.kind == "INVALID_COMMAND" && parsed.token != "" ==>
            r == RunResult(Ok(None), [ErrorLine(InvalidCommandMessage(parsed.token, FindAlternatives(parsed.token, reg.keys)))]))
      && (parsed.Thrown? && !(parsed.error.kind == "INVALID_COMMAND" && parsed.token != "") ==>
            r == RunResult(Err(parsed.error), []))
  {
  }

  /**
   * Without a token the default command runs: when it is registered with a
   * function and nothing throws, the returned toolbox names it, holds the
   * parsed options, the raw argv and `process.argv`, and the result of
   * executing it. A setup that throws rejects `run` before the command
   * executes.
   */
  lemma RunDefaultCommand(env: Env, reg: Registry, extensions: seq<Extension>, defaultCommand: string,
                          argv: seq<string>, rest: seq<string>, options: map<string, Value>, raw: Value)
    requires env.parseCommands(reg.keys, ParseRawCommand(RawList(argv), env.processArgv, env.bundledElectron)) == Parsed(None, rest)
    requires defaultCommand in reg.entries && reg.entries[defaultCommand].execute.Func?
    requires env.parseArgs(Merged([reg.entries[defaultCommand].args, DefaultArguments.DefaultArguments()]), rest) == Ok(raw)
    requires ParseCliArgs(raw) == Ok(options)
    requires !Truthy(OptionValue(options, "help")) && !Truthy(OptionValue(options, "version")) && !Truthy(OptionValue(options, "V"))
    ensures var command := reg.entries[defaultCommand];
      var prepared := PreparedToolbox(env, extensions, command, options, argv);
      var r := RunAfterLoaders(env, reg, extensions, defaultCommand, argv);
      && r.log == ExtensionWarnings(extensions, env.setup, FreshToolbox())
      && (prepared.Err? <==> ApplyExtensions(extensions, env.setup, FreshToolbox()).Err?)
      && (prepared.Err? ==> r.value == Err(prepared.error))
      && (prepared.Ok? ==>
            var t := prepared.value;
            && (env.execute(command.execute, t).Ok? ==>
                  r.value == Ok(Some(t.(result := Some(env.execute(command.execute, t).value)))))
            && (env.execute(command.execute, t).Err? ==> r.value == Err(env.execute(command.execute, t).error))
            && t.command == Some(command) && t.commandName == Some(command.name)
            && t.parameters == Parameters(Some(command.name), options, Some(argv), Some(env.processArgv)))
  {
  }

  /**
   * A setup that throws means `run` never returns a toolbox: it either
   * stops before the extensions (undefined or an error) or rejects with a
   * throw.
   */
  lemma SetupThrowNoToolbox(env: Env, reg: Registry, extensions: seq<Extension>, defaultCommand: string, argv: seq<string>)
    requires ApplyExtensions(extensions, env.setup, FreshToolbox()).Err?
    ensures var r := RunAfterLoaders(env, reg, extensions, defaultCommand, argv);
      r.value.Ok? ==> r.value.value.None?
  {
  }

  /** A resolved name that is not registered makes `run` throw, since the lookup is not checked. */
  lemma RunUnregisteredCommand(env: Env, reg: Registry, extensions: seq<Extension>, defaultCommand: string,
                               argv: seq<string>, token: Option<string>, rest: seq<string>)
    requires env.parseCommands(reg.keys, ParseRawCommand(RawList(argv), env.processArgv, env.bundledElectron)) == Parsed(token, rest)
    requires ResolvedName(token, defaultCommand) !in reg.entries
    ensures RunAfterLoaders(env, reg, extensions, defaultCommand, argv).value.Err?
    ensures RunAfterLoaders(env, reg, extensions, defaultCommand, argv).value.error.kind == "TypeError"
  {
  }

  /** A truthy help option runs the registered help command instead of the resolved one, whatever version says. */
  lemma HelpOptionRunsHelp(env: Env, entries: map<string, Command>, options: map<string, Value>, t: Toolbox, command: Command)
    requires Truthy(OptionValue(options, "help"))
    ensures "help" in entries ==> PrepareToolboxResult(env, entries, options, t, command) == Call(env, entries["help"].execute, t)
    ensures "help" !in entries ==> PrepareToolboxResult(env, entries, options, t, command) == Err(Error("Help command not found."))
  {
  }

  /* ---------------------------------------------------------------- */
  /* Loaders at run time                                                */
  /* ---------------------------------------------------------------- */

  /** The runtime state the loaders change, and the first error one of them throws. */
  datatype LoadRun = LoadRun(reg: Registry, extensions: seq<Extension>, log: seq<LogLine>, error: Option<JsError>)

  /** `CommandLoader.run` over the found files: load one, add it, stop at the first error. */
  function LoadCommands(host: Host, folder: string, files: seq<string>, start: LoadRun): (r: LoadRun)
    ensures start.error.Some? ==> r == start
    ensures r.extensions == start.extensions
    decreases |files|
  {
    if |files| == 0 then start
    else
      var before := LoadCommands(host, folder, files[..|files| - 1], start);
      if before.error.Some? then before else LoadCommandStep(host, JoinPath(folder, files[|files| - 1]), before)
  }

  /** One file of `CommandLoader.run`: load the command at path with no options and add it. */
  function LoadCommandStep(host: Host, path: string, before: LoadRun): (r: LoadRun)
    ensures r.extensions == before.extensions
  {
    match CommandFromFile(host, path, NoLoadOptions())
    case Err(e) => before.(error := Some(e))
    case Ok(c) =>
      var added := AddCommandSpec(before.reg, c);
      LoadRun(added.reg, before.extensions, before.log + added.log, added.error)
  }

  /** `ExtensionLoader.run` over the found files: load one, append it, stop at the first error. */
  function LoadExtensions(host: Host, folder: string, files: seq<string>, start: LoadRun): (r: LoadRun)
    ensures start.error.Some? ==> r == start
    ensures r.reg == start.reg && r.log == start.log
    decreases |files|
  {
    if |files| == 0 then start
    else
      var before := LoadExtensions(host, folder, files[..|files| - 1], start);
      if before.error.Some? then before else LoadExtensionStep(host, JoinPath(folder, files[|files| - 1]), before)
  }

  /** While no file has failed, one more file runs one more command step. */
  lemma LoadCommandsNext(host: Host, folder: string, files: seq<string>, index: int, start: LoadRun)
    requires 0 <= index < |files|
    requires LoadCommands(host, folder, files[..index], start).error.None?
    ensures LoadCommands(host, folder, files[..index + 1], start)
      == LoadCommandStep(host, JoinPath(folder, files[index]), LoadCommands(host, folder, files[..index], start))
  {
    assert files[..index + 1][..index] == files[..index];
  }

  /** While no file has failed, one more file runs one more extension step. */
  lemma LoadExtensionsNext(host: Host, folder: string, files: seq<string>, index: int, start: LoadRun)
    requires 0 <= index < |files|
    requires LoadExtensions(host, folder, files[..index], start).error.None?
    ensures LoadExtensions(host, folder, files[..index + 1], start)
      == LoadExtensionStep(host, JoinPath(folder, files[index]), LoadExtensions(host, folder, files[..index], start))
  {
    assert files[..index + 1][..index] == files[..index];
  }

  /** One file of `ExtensionLoader.run`: load the extension at path with no options and append it. */
  function LoadExtensionStep(host: Host, path: string, before: LoadRun): (r: LoadRun)
    ensures r.reg == before.reg && r.log == before.log
  {
    match ExtensionFromFile(host, path, NoLoadOptions())
    case Err(e) => before.(error := Some(e))
    case Ok(x) => before.(extensions := before.extensions + [x])
  }

  /** Once a file fails, the files after it are never loaded. */
  lemma {:induction false} LoadCommandsStops(host: Host, folder: string, files: seq<string>, more: seq<string>, start: LoadRun)
    requires LoadCommands(host, folder, files, start).error.Some?
    ensures LoadCommands(host, folder, files + more, start) == LoadCommands(host, folder, files, start)
    decreases |more|
  {
    if |more| > 0 {
      LoadCommandsStops(host, folder, files, more[..|more| - 1], start);
      assert (files + more)[..|files + more| - 1] == files + more[..|more| - 1];
    } else {
      assert files + more == files;
    }
  }

  /** Once a file fails, the files after it are never loaded. */
  lemma {:induction false} LoadExtensionsStops(host: Host, folder: string, files: seq<string>, more: seq<string>, start: LoadRun)
    requires LoadExtensions(host, folder, files, start).error.Some?
    ensures LoadExtensions(host, folder, files + more, start) == LoadExtensions(host, folder, files, start)
    decreases |more|
  {
    if |more| > 0 {
      LoadExtensionsStops(host, folder, files, more[..|more| - 1], start);
      assert (files + more)[..|files + more| - 1] == files + more[..|more| - 1];
    } else {
      assert files + more == files;
    }
  }

  /** With every file loadable, the extensions are appended in find order. */
  lemma {:induction false} LoadExtensionsInOrder(host: Host, folder: string, files: seq<string>, start: LoadRun)
    requires start.error.None?
    requires forall i :: 0 <= i < |files| ==> ExtensionFromFile(host, JoinPath(folder, files[i]), NoLoadOptions()).Ok?
    ensures var r := LoadExtensions(host, folder, files, start);
      && r.error.None?
      && |r.extensions| == |start.extensions| + |files|
      && r.extensions[..|start.extensions|] == start.extensions
      && forall i :: 0 <= i < |files| ==>
           r.extensions[|start.extensions| + i] == ExtensionFromFile(host, JoinPath(folder, files[i]), NoLoadOptions()).value
    decreases |files|
  {
    if |files| > 0 {
      var last := |files| - 1;
      var before := files[..last];
      assert forall i :: 0 <= i < |before| ==> before[i] == files[i];
      LoadExtensionsInOrder(host, folder, before, start);
      var mid := LoadExtensions(host, folder, before, start);
      var x := ExtensionFromFile(host, JoinPath(folder, files[last]), NoLoadOptions());
      var r := LoadExtensions(host, folder, files, start);
      assert r == mid.(extensions := mid.extensions + [x.value]);
      assert r.extensions[..|start.extensions|] == mid.extensions[..|start.extensions|];
      forall i | 0 <= i < |files|
        ensures r.extensions[|start.extensions| + i] == ExtensionFromFile(host, JoinPath(folder, files[i]), NoLoadOptions()).value
      {
        if i < last {
          assert r.extensions[|start.extensions| + i] == mid.extensions[|start.extensions| + i];
          assert before[i] == files[i];
        }
      }
    }
  }

  /** What one loader's `run` does to the state: find the files, then load them. */
  function RunLoader(host: Host, loader: Loader, start: LoadRun): LoadRun
  {
    var files := host.find(loader.folder, loader.commandFilePattern);
    if loader.kind == CommandLoaderKind then LoadCommands(host, loader.folder, files, start)
    else LoadExtensions(host, loader.folder, files, start)
  }

  /** Two loaders that differ only in their hidden and loadingType options load the same: `run` passes no options. */
  lemma LoaderOptionsNotApplied(host: Host, l1: Loader, l2: Loader, start: LoadRun)
    requires l1.kind == l2.kind && l1.folder == l2.folder && l1.commandFilePattern == l2.commandFilePattern
    ensures RunLoader(host, l1, start) == RunLoader(host, l2, start)
  {
  }

  /** The loaders in order, stopping at the first that throws. */
  function RunLoaders(host: Host, loaders: seq<Loader>, start: LoadRun): (r: LoadRun)
    ensures start.error.Some? ==> r == start
    decreases |loaders|
  {
    if |loaders| == 0 then start
    else
      var before := RunLoaders(host, loaders[..|loaders| - 1], start);
      if before.error.Some? then before else RunLoader(host, loaders[|loaders| - 1], before)
  }

  /** The loaders that are registered, in the Map's insertion order. */
  function LoaderValues(keys: seq<string>, loaders: map<string, Loader>): seq<Loader>
    requires forall k :: k in keys ==> k in loaders
  {
    seq(|keys|, i requires 0 <= i < |keys| => loaders[keys[i]])
  }

  /* ---------------------------------------------------------------- */
  /* The runtime                                                        */
  /* ---------------------------------------------------------------- */

  class Cli {
    var name: string
    var argv: seq<string>
    var cwd: string
    /** CEREBRO_OUTPUT_LEVEL as the constructor leaves it. */
    var outputLevel: int
    var defaultCommand: string
    var commandKeys: seq<string>
    var commands: map<string, Command>
    var extensions: seq<Extension>
    var loaderKeys: seq<string>
    var loaders: map<string, Loader>
    /** The warnings and errors handed to the logger so far. */
    var log: seq<LogLine>

    function Reg(): Registry
      reads this
    {
      Registry(commandKeys, commands)
    }

    ghost predicate Valid()
      reads this
    {
      ValidRegistry(Reg()) && Distinct(loaderKeys) && forall k :: k in loaders <==> k in loaderKeys
    }

    /** The fields only the constructor, `setDefaultCommand` and `addLoader` change. */
    twostate predicate SameConfiguration()
      reads this
    {
      name == old(name) && argv == old(argv) && cwd == old(cwd) && outputLevel == old(outputLevel)
      && defaultCommand == old(defaultCommand) && loaderKeys == old(loaderKeys) && loaders == old(loaders)
    }

    /**
     * `new Cli(name, argv, cwd)`: the output level from argv, "help" as the
     * default command, the five core extensions, then version and help.
     */
    constructor(name: string, argv: seq<string>, cwd: string)
      ensures Valid()
      ensures this.name == name && this.argv == argv && this.cwd == cwd
      ensures outputLevel == OutputLevel(argv)
      ensures defaultCommand == "help"
      ensures extensions == CoreExtensions()
      ensures commandKeys == ["version", "v", "V", "help"]
      ensures commands == map["version" := VersionCommand(), "v" := VersionCommand(), "V" := VersionCommand(),
                              "help" := HelpCommand()]
      ensures loaderKeys == [] && loaders == map[] && log == []
    {
      this.name := name;
      this.argv := argv;
      this.cwd := cwd;
      defaultCommand := "help";
      var level := VerbosityNormal;
      if "--quiet" in argv || "-q" in argv {
        level := VerbosityQuiet;
      }
      if "--verbose" in argv || "-v" in argv {
        level := VerbosityVerbose;
      } else if "--very-verbose" in argv || "-vv" in argv {
        level := VerbosityVeryVerbose;
      } else if "--debug" in argv || "-vvv" in argv {
        level := VerbosityDebug;
      }
      outputLevel := level;
      commandKeys := [];
      commands := map[];
      extensions := [];
      loaderKeys := [];
      loaders := map[];
      log := [];
      new;
      AddCoreExtensions();
      AddBuiltinCommands();
    }

    /** The five `addExtension` calls of the constructor. */
    method AddCoreExtensions()
      modifies this
      ensures extensions == old(extensions) + CoreExtensions()
      ensures Reg() == old(Reg()) && log == old(log) && SameConfiguration()
    {
      var core := CoreExtensions();
      AddExtension(core[0]);
      AddExtension(core[1]);
      AddExtension(core[2]);
      AddExtension(core[3]);
      AddExtension(core[4]);
      assert extensions == old(extensions) + core;
    }

    /** The two `addCommand` calls of the constructor, on the empty registry. */
    method AddBuiltinCommands()
      requires commandKeys == [] && commands == map[]
      modifies this
      ensures commandKeys == ["version", "v", "V", "help"]
      ensures commands == map["version" := VersionCommand(), "v" := VersionCommand(), "V" := VersionCommand(),
                              "help" := HelpCommand()]
      ensures extensions == old(extensions) && log == old(log) && SameConfiguration()
    {
      InitialRegistry();
      var _ := AddCommand(VersionCommand());
      var _ := AddCommand(HelpCommand());
    }

    /** `setDefaultCommand(name)`. */
    method SetDefaultCommand(commandName: string)
      modifies this
      ensures defaultCommand == commandName
      ensures Reg() == old(Reg()) && extensions == old(extensions) && log == old(log)
      ensures loaderKeys == old(loaderKeys) && loaders == old(loaders)
      ensures name == old(name) && argv == old(argv) && cwd == old(cwd) && outputLevel == old(outputLevel)
    {
      defaultCommand := commandName;
    }

    /** `addExtension(extension)`: appended, whatever it is. */
    method AddExtension(extension: Extension)
      modifies this
      ensures extensions == old(extensions) + [extension]
      ensures Reg() == old(Reg()) && log == old(log) && SameConfiguration()
    {
      extensions := extensions + [extension];
    }

    /** `addLoader(loader)`: `loaders.set(loader.name, loader)`, so a loader of the same name replaces the earlier one in place. */
    method AddLoader(loader: Loader)
      requires Valid()
      modifies this
      ensures Valid()
      ensures loaders == old(loaders)[loader.name := loader]
      ensures loaderKeys == if loader.name in old(loaders) then old(loaderKeys) else old(loaderKeys) + [loader.name]
      ensures Reg() == old(Reg()) && extensions == old(extensions) && log == old(log)
      ensures name == old(name) && argv == old(argv) && cwd == old(cwd) && outputLevel == old(outputLevel)
      ensures defaultCommand == old(defaultCommand)
    {
      if loader.name !in loaders {
        loaderKeys := loaderKeys + [loader.name];
      }
      loaders := loaders[loader.name := loader];
    }

    /**
     * `addCommand(command)`: a name that is already a key only logs a
     * warning; otherwise the name, then each alias that is not yet a key,
     * maps to the command.
     */
    method AddCommand(command: Command) returns (error: Option<JsError>)
      modifies this
      ensures var added := AddCommandSpec(old(Reg()), command);
        Reg() == added.reg && error == added.error && log == old(log) + added.log
      ensures extensions == old(extensions) && SameConfiguration()
    {
      if command.name !in commands {
        commandKeys := commandKeys + [command.name];
        commands := commands[command.name := command];
        match AliasesToRegister(command)
        case Err(e) =>
          return Some(e);
        case Ok(aliases) =>
          RegisterAliases(aliases, command);
          return None;
      } else {
        log := log + [Warning(NameWarning(command.name))];
        return None;
      }
    }

    /** The `aliases.forEach` loop of `addCommand`: an alias that is already a key is skipped with a warning. */
    method RegisterAliases(aliases: seq<string>, command: Command)
      modifies this
      ensures Reg() == InsertAll(old(Reg()), aliases, command)
      ensures log == old(log) + AliasWarnings(old(Reg()), aliases, command)
      ensures extensions == old(extensions) && SameConfiguration()
    {
      var i := 0;
      while i < |aliases|
        invariant 0 <= i <= |aliases|
        invariant Reg() == InsertAll(old(Reg()), aliases[..i], command)
        invariant log == old(log) + AliasWarnings(old(Reg()), aliases[..i], command)
        invariant extensions == old(extensions) && SameConfiguration()
      {
        var alias := aliases[i];
        assert aliases[..i + 1][..i] == aliases[..i];
        if alias in commands {
          log := log + [Warning(AliasWarning(alias))];
        } else {
          commandKeys := commandKeys + [alias];
          commands := commands[alias := command];
        }
        i := i + 1;
      }
      assert aliases[..i] == aliases;
    }

    /** `CommandLoader.run(cli)`: each found file is loaded with no options and added, stopping at the first error. */
    method RunCommandLoader(host: Host, loader: Loader) returns (error: Option<JsError>)
      requires loader.kind == CommandLoaderKind
      modifies this
      ensures var r := RunLoader(host, loader, LoadRun(old(Reg()), old(extensions), old(log), None));
        Reg() == r.reg && extensions == r.extensions && log == r.log && error == r.error
      ensures SameConfiguration()
    {
      var files := host.find(loader.folder, loader.commandFilePattern);
      ghost var start := LoadRun(Reg(), extensions, log, None);
      var index := 0;
      while index < |files|
        invariant 0 <= index <= |files|
        invariant LoadCommands(host, loader.folder, files[..index], start) == LoadRun(Reg(), extensions, log, None)
        invariant SameConfiguration()
      {
        LoadCommandsNext(host, loader.folder, files, index, start);
        error := LoadAndAddCommand(host, JoinPath(loader.folder, files[index]));
        if error.Some? {
          LoadCommandsStops(host, loader.folder, files[..index + 1], files[index + 1..], start);
          assert files[..index + 1] + files[index + 1..] == files;
          return;
        }
        index := index + 1;
      }
      assert files[..index] == files;
      error := None;
    }

    /** The body of `CommandLoader.run`'s loop: load one file and add the command. */
    method LoadAndAddCommand(host: Host, path: string) returns (error: Option<JsError>)
      modifies this
      ensures var r := LoadCommandStep(host, path, LoadRun(old(Reg()), old(extensions), old(log), None));
        Reg() == r.reg && extensions == r.extensions && log == r.log && error == r.error
      ensures SameConfiguration()
    {
      var command := LoadCommandFromFile(host, path, NoLoadOptions());
      if command.Err? {
        return Some(command.error);
      }
      error := AddCommand(command.value);
    }

    /** The body of `ExtensionLoader.run`'s loop: load one file and add the extension. */
    method LoadAndAddExtension(host: Host, path: string) returns (error: Option<JsError>)
      modifies this
      ensures var r := LoadExtensionStep(host, path, LoadRun(old(Reg()), old(extensions), old(log), None));
        Reg() == r.reg && extensions == r.extensions && log == r.log && error == r.error
      ensures SameConfiguration()
    {
      var extension := LoadExtensionFromFile(host, path, NoLoadOptions());
      if extension.Err? {
        return Some(extension.error);
      }
      AddExtension(extension.value);
      return None;
    }

    /** `ExtensionLoader.run(cli)`: each found file is loaded with no options and appended, stopping at the first error. */
    method RunExtensionLoader(host: Host, loader: Loader) returns (error: Option<JsError>)
      requires loader.kind == ExtensionLoaderKind
      modifies this
      ensures var r := RunLoader(host, loader, LoadRun(old(Reg()), old(extensions), old(log), None));
        Reg() == r.reg && extensions == r.extensions && log == r.log && error == r.error
      ensures SameConfiguration()
    {
      var files := host.find(loader.folder, loader.commandFilePattern);
      ghost var start := LoadRun(Reg(), extensions, log, None);
      var index := 0;
      while index < |files|
        invariant 0 <= index <= |files|
        invariant LoadExtensions(host, loader.folder, files[..index], start) == LoadRun(Reg(), extensions, log, None)
        invariant SameConfiguration()
      {
        LoadExtensionsNext(host, loader.folder, files, index, start);
        error := LoadAndAddExtension(host, JoinPath(loader.folder, files[index]));
        if error.Some? {
          LoadExtensionsStops(host, loader.folder, files[..index + 1], files[index + 1..], start);
          assert files[..index + 1] + files[index + 1..] == files;
          return;
        }
        index := index + 1;
      }
      assert files[..index] == files;
      error := None;
    }

    /** The loaders loop of `run`: each registered loader runs in insertion order, stopping at the first that throws. */
    method RunAllLoaders(host: Host) returns (error: Option<JsError>)
      requires Valid()
      modifies this
      ensures Valid()
      ensures var r := RunLoaders(host, LoaderValues(old(loaderKeys), old(loaders)),
                                  LoadRun(old(Reg()), old(extensions), old(log), None));
        Reg() == r.reg && extensions == r.extensions && log == r.log && error == r.error
      ensures SameConfiguration()
    {
      var values := LoaderValues(loaderKeys, loaders);
      ghost var start := LoadRun(Reg(), extensions, log, None);
      var index := 0;
      while index < |values|
        invariant 0 <= index <= |values|
        invariant RunLoaders(host, values[..index], start) == LoadRun(Reg(), extensions, log, None)
        invariant Valid() && SameConfiguration()
      {
        assert values[..index + 1][..index] == values[..index];
        var loader := values[index];
        ghost var before := LoadRun(Reg(), extensions, log, None);
        LoadRunKeepsRegistryValid(host, loader, before);
        if loader.kind == CommandLoaderKind {
          error := RunCommandLoader(host, loader);
        } else {
          error := RunExtensionLoader(host, loader);
        }
        if error.Some? {
          RunLoadersStops(host, values[..index + 1], values[index + 1..], start);
          assert values[..index + 1] + values[index + 1..] == values;
          return;
        }
        index := index + 1;
      }
      assert values[..index] == values;
      return None;
    }

    /**
     * The extension loop of `run`: each extension with a function sets up
     * the toolbox, the others are skipped with a warning; a setup that
     * throws ends the loop, and its error rejects.
     */
    method RunExtensions(setup: (Value, Toolbox) -> Result<Toolbox>, toolbox: Toolbox) returns (t: Result<Toolbox>)
      modifies this
      ensures t == ApplyExtensions(extensions, setup, toolbox)
      ensures log == old(log) + ExtensionWarnings(extensions, setup, toolbox)
      ensures Reg() == old(Reg()) && extensions == old(extensions) && SameConfiguration()
    {
      t := Ok(toolbox);
      var all := extensions;
      var warnings := [];
      var index := 0;
      while index < |all|
        invariant 0 <= index <= |all|
        invariant t == ApplyExtensions(all[..index], setup, toolbox) && t.Ok?
        invariant warnings == ExtensionWarnings(all[..index], setup, toolbox)
        invariant extensions == all && log == old(log) && Reg() == old(Reg()) && SameConfiguration()
      {
        var extension := all[index];
        ExtensionsNext(all, index, setup, toolbox);
        if !extension.execute.Func? {
          warnings := warnings + [Warning(SkipWarning(extension.name))];
        } else {
          t := setup(extension.execute, t.value);
          if t.Err? {
            ExtensionsStop(all[..index + 1], all[index + 1..], setup, toolbox);
            assert all[..index + 1] + all[index + 1..] == all;
            log := log + warnings;
            return;
          }
        }
        index := index + 1;
      }
      assert all[..index] == all;
      log := log + warnings;
    }

    /** `run` after the loaders: resolve the command, parse its options, prepare the toolbox and dispatch. */
    method Dispatch(env: Env, extraOptions: map<string, Value>) returns (r: Result<Option<Toolbox>>)
      modifies this
      ensures var after := RunAfterLoaders(env, old(Reg()), old(extensions), defaultCommand, argv);
        r == after.value && log == old(log) + after.log
      ensures Reg() == old(Reg()) && extensions == old(extensions) && SameConfiguration()
    {
      var parsed := env.parseCommands(commandKeys, ParseRawCommand(RawList(argv), env.processArgv, env.bundledElectron));
      if parsed.Thrown? {
        if parsed.error.kind == "INVALID_COMMAND" && parsed.token != "" {
          var alternatives := FindAlternatives(parsed.token, commandKeys);
          log := log + [ErrorLine(InvalidCommandMessage(parsed.token, alternatives))];
          return Ok(None);
        }
        return Err(parsed.error);
      }
      var commandName := ResolvedName(parsed.command, defaultCommand);
      if commandName !in commands {
        return Err(TypeError("Cannot read properties of undefined (reading 'execute')"));
      }
      var command := commands[commandName];
      if !command.execute.Func? {
        log := log + [ErrorLine("Command \"" + command.name + "\" has no function to execute.")];
        return Ok(None);
      }
      var commandDefinitions := MergeArguments([command.args, DefaultArguments.DefaultArguments()]);
      var commandOptionsRaw := env.parseArgs(commandDefinitions, parsed.argv);
      if commandOptionsRaw.Err? {
        return Err(commandOptionsRaw.error);
      }
      var commandOptions := ParseCliArgs(commandOptionsRaw.value);
      if commandOptions.Err? {
        return Err(commandOptions.error);
      }
      var prepared := RunExtensions(env.setup, FreshToolbox());
      if prepared.Err? {
        return Err(prepared.error);
      }
      var toolbox := prepared.value;
      toolbox := toolbox.(parameters := Parameters(None, commandOptions.value + extraOptions, None, None));
      toolbox := toolbox.(parameters := Parameters(Some(command.name), commandOptions.value, Some(argv), Some(env.processArgv)));
      toolbox := toolbox.(command := Some(command), commandName := Some(command.name));
      var result := PrepareToolboxResult(env, commands, commandOptions.value, toolbox, command);
      if result.Err? {
        return Err(result.error);
      }
      return Ok(Some(toolbox.(result := Some(result.value))));
    }

    /**
     * `run(extraOptions)`: the loaders in order, stopping at the first that
     * throws, then the resolution and dispatch of `RunAfterLoaders` on the
     * state they leave.
     */
    method Run(env: Env, extraOptions: map<string, Value>) returns (r: Result<Option<Toolbox>>)
      requires Valid()
      modifies this
      ensures Valid()
      ensures var loaded := RunLoaders(env.host, LoaderValues(old(loaderKeys), old(loaders)),
                                       LoadRun(old(Reg()), old(extensions), old(log), None));
        && Reg() == loaded.reg && extensions == loaded.extensions
        && (loaded.error.Some? ==> r == Err(loaded.error.value) && log == loaded.log)
        && (loaded.error.None? ==>
              var after := RunAfterLoaders(env, loaded.reg, loaded.extensions, defaultCommand, argv);
              r == after.value && log == loaded.log + after.log)
      ensures SameConfiguration()
    {
      var error := RunAllLoaders(env.host);
      if error.Some? {
        return Err(error.value);
      }
      r := Dispatch(env, extraOptions);
    }
  }

  /** A loader's run keeps the registry valid. */
  lemma LoadRunKeepsRegistryValid(host: Host, loader: Loader, start: LoadRun)
    requires ValidRegistry(start.reg)
    ensures ValidRegistry(RunLoader(host, loader, start).reg)
  {
    var files := host.find(loader.folder, loader.commandFilePattern);
    if loader.kind == CommandLoaderKind {
      LoadCommandsValid(host, loader.folder, files, start);
    }
  }

  lemma {:induction false} LoadCommandsValid(host: Host, folder: string, files: seq<string>, start: LoadRun)
    requires ValidRegistry(start.reg)
    ensures ValidRegistry(LoadCommands(host, folder, files, start).reg)
    decreases |files|
  {
    if |files| > 0 {
      var before := LoadCommands(host, folder, files[..|files| - 1], start);
      LoadCommandsValid(host, folder, files[..|files| - 1], start);
      var loaded := CommandFromFile(host, JoinPath(folder, files[|files| - 1]), NoLoadOptions());
      if before.error.None? && loaded.Ok? {
        AddCommandNoOverwrite(before.reg, loaded.value);
      }
    }
  }

  /** Once a loader throws, the loaders after it do not run. */
  lemma {:induction false} RunLoadersStops(host: Host, loaders: seq<Loader>, more: seq<Loader>, start: LoadRun)
    requires RunLoaders(host, loaders, start).error.Some?
    ensures RunLoaders(host, loaders + more, start) == RunLoaders(host, loaders, start)
    decreases |more|
  {
    if |more| > 0 {
      RunLoadersStops(host, loaders, more[..|more| - 1], start);
      assert (loaders + more)[..|loaders + more| - 1] == loaders + more[..|more| - 1];
    } else {
      assert loaders + more == loaders;
    }
  }

  /**
   * Two command loaders added one after the other: both are registered under
   * "command-loader", so the second replaces the first and only it runs.
   * A constructor that throws ends the sequence.
   */
  method AddTwoCommandLoaders(cli: Cli, host: Host, folder1: string, folder2: string, options1: Option<LoaderOptions>,
                              options2: Option<LoaderOptions>) returns (r: Result<Loader>)
    requires cli.Valid()
    modifies cli
    ensures cli.Valid()
    ensures r == if NewLoader(host, CommandLoaderKind, folder1, options1).Err?
                 then NewLoader(host, CommandLoaderKind, folder1, options1)
                 else NewLoader(host, CommandLoaderKind, folder2, options2)
    ensures r.Ok? ==>
      cli.loaders == old(cli.loaders)["command-loader" := r.value]
      && |cli.loaderKeys| == |old(cli.loaderKeys)| + (if "command-loader" in old(cli.loaders) then 0 else 1)
    ensures NewLoader(host, CommandLoaderKind, folder1, options1).Err? ==> cli.loaders == old(cli.loaders)
    ensures r.Err? && NewLoader(host, CommandLoaderKind, folder1, options1).Ok? ==>
      cli.loaders == old(cli.loaders)["command-loader" := NewLoader(host, CommandLoaderKind, folder1, options1).value]
  {
    var first := NewLoader(host, CommandLoaderKind, folder1, options1);
    if first.Err? {
      return first;
    }
    cli.AddLoader(first.value);
    r := NewLoader(host, CommandLoaderKind, folder2, options2);
    if r.Ok? {
      cli.AddLoader(r.value);
    }
  }
}
