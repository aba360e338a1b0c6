/**
 * Help assembly (packages/cerebro-core/src/utils/print-help.ts and the copy
 * in packages/cerebro-core/src/toolbox/print-tools.ts): the general command
 * listing, the alias suffix of a listing entry, and the usage sections of
 * one command. Colours and the rendering by command-line-usage are left to
 * the terminal; the sections handed to it are the model's output.
 */
module Help {
  import opened Js
  import opened Strings
  import opened Levenshtein
  import opened ParameterTools
  import opened DefaultArguments
  import opened Domain
  import opened Runtime

  /** One line of the "Available Commands" section: a name with its alias suffix, and a summary. */
  datatype Entry = Entry(name: string, summary: Option<string>)

  /** A section handed to command-line-usage. */
  datatype Section =
    | TextSection(header: string, text: string)
    | EntrySection(header: string, entries: seq<Entry>)
    | OptionSection(header: string, options: seq<OptionDef>)
    | ListSection(header: string, items: seq<string>)
    | RawSection(text: string)

  /** What a help call hands to the logger. */
  datatype HelpOutput =
    | UnknownCommand(error: string)
    | GeneralHelp(sections: seq<Section>)
    | CommandHelp(name: string, description: Option<string>, sections: seq<Section>)

  /** The keys of a Map all have entries. */
  ghost predicate KeysPresent(keys: seq<string>, commands: map<string, Command>)
  {
    forall i :: 0 <= i < |keys| ==> keys[i] in commands
  }

  /** `[...new Set(commands.values())]`: each command once, in the order of its first key. */
  function DistinctCommands(keys: seq<string>, commands: map<string, Command>): (r: seq<Command>)
    requires KeysPresent(keys, commands)
    ensures forall i, j :: 0 <= i < j < |r| ==> r[i] != r[j]
    ensures forall c :: c in r <==> exists i :: 0 <= i < |keys| && commands[keys[i]] == c
    decreases |keys|
  {
    if |keys| == 0 then []
    else
      var before := DistinctCommands(keys[..|keys| - 1], commands);
      var c := commands[keys[|keys| - 1]];
      assert forall i :: 0 <= i < |keys| - 1 ==> keys[..|keys| - 1][i] == keys[i];
      if c in before then before else before + [c]
  }

  /** The index of the first key whose command is c. */
  function FirstKey(keys: seq<string>, commands: map<string, Command>, c: Command): (r: int)
    requires KeysPresent(keys, commands)
    ensures -1 <= r < |keys|
    ensures r >= 0 ==> commands[keys[r]] == c && forall i :: 0 <= i < r ==> commands[keys[i]] != c
    ensures r == -1 ==> forall i :: 0 <= i < |keys| ==> commands[keys[i]] != c
    decreases |keys|
  {
    if |keys| == 0 then -1
    else
      var before := FirstKey(keys[..|keys| - 1], commands, c);
      if before >= 0 then before
      else if commands[keys[|keys| - 1]] == c then |keys| - 1
      else -1
  }

  /** Every command of cs has a key, and an earlier one in cs has an earlier first key. */
  ghost predicate InFirstKeyOrder(keys: seq<string>, commands: map<string, Command>, cs: seq<Command>)
    requires KeysPresent(keys, commands)
  {
    forall i, j :: 0 <= i < j < |cs| ==> 0 <= FirstKey(keys, commands, cs[i]) < FirstKey(keys, commands, cs[j])
  }

  /** The listing follows first-key order: an earlier command has an earlier first key. */
  lemma {:induction false} DistinctCommandsOrdered(keys: seq<string>, commands: map<string, Command>)
    requires KeysPresent(keys, commands)
    ensures InFirstKeyOrder(keys, commands, DistinctCommands(keys, commands))
    decreases |keys|
  {
    if |keys| > 0 {
      var prefix := keys[..|keys| - 1];
      assert KeysPresent(prefix, commands);
      DistinctCommandsOrdered(prefix, commands);
      var before := DistinctCommands(prefix, commands);
      var c := commands[keys[|keys| - 1]];
      var r := DistinctCommands(keys, commands);
      forall x | x in before
        ensures 0 <= FirstKey(keys, commands, x) == FirstKey(prefix, commands, x) < |keys| - 1
      {
        FirstKeyPrefix(keys, commands, x);
      }
      if c !in before {
        FirstKeyPrefix(keys, commands, c);
        assert FirstKey(keys, commands, c) == |keys| - 1;
        forall i, j | 0 <= i < j < |r|
          ensures 0 <= FirstKey(keys, commands, r[i]) < FirstKey(keys, commands, r[j])
        {
          assert r[i] == before[i] && before[i] in before;
          if j < |before| {
            assert r[j] == before[j] && before[j] in before;
          }
        }
        assert InFirstKeyOrder(keys, commands, r);
      } else {
        forall i, j | 0 <= i < j < |r|
          ensures 0 <= FirstKey(keys, commands, r[i]) < FirstKey(keys, commands, r[j])
        {
          assert r[i] == before[i] && r[j] == before[j] && before[i] in before && before[j] in before;
          assert FirstKey(prefix, commands, before[i]) < FirstKey(prefix, commands, before[j]);
        }
        assert InFirstKeyOrder(keys, commands, r);
      }
    }
  }

  /** Dropping the last key changes the first key only of a command that no earlier key maps to. */
  lemma FirstKeyPrefix(keys: seq<string>, commands: map<string, Command>, c: Command)
    requires |keys| > 0 && KeysPresent(keys, commands)
    ensures KeysPresent(keys[..|keys| - 1], commands)
    ensures c in DistinctCommands(keys[..|keys| - 1], commands) ==>
      0 <= FirstKey(keys, commands, c) == FirstKey(keys[..|keys| - 1], commands, c) < |keys| - 1
    ensures c !in DistinctCommands(keys[..|keys| - 1], commands) && commands[keys[|keys| - 1]] == c ==>
      FirstKey(keys, commands, c) == |keys| - 1
  {
    var prefix := keys[..|keys| - 1];
    assert KeysPresent(prefix, commands);
    if c in DistinctCommands(prefix, commands) {
      var i :| 0 <= i < |prefix| && commands[prefix[i]] == c;
      assert FirstKey(prefix, commands, c) >= 0;
    }
  }

  /** The alias suffix of a listing entry: " [a]" for a string, " [a, b]" for a list, nothing when that text is empty. */
  function AliasSuffix(c: Command): (r: string)
    ensures c.alias.AliasString? && c.alias.s != "" ==> r == " [" + c.alias.s + "]"
    ensures c.alias.AliasList? && Join(c.alias.items, ", ") != "" ==> r == " [" + Join(c.alias.items, ", ") + "]"
    ensures c.alias.NoAlias? || c.alias.NullAlias? ==> r == ""
    ensures r == "" || (|r| >= 3 && r[..2] == " [" && r[|r| - 1] == ']')
  {
    var aliases := match c.alias
      case AliasString(s) => s
      case AliasList(items) => Join(items, ", ")
      case _ => "";
    if aliases != "" then " [" + aliases + "]" else ""
  }

  /** The suffixes of the listing's two shapes of alias. */
  lemma AliasSuffixExamples(c: Command)
    ensures c.alias == AliasString("y") ==> AliasSuffix(c) == " [y]"
    ensures c.alias == AliasList(["yo", "y"]) ==> AliasSuffix(c) == " [yo, y]"
    ensures c.alias == AliasList([]) ==> AliasSuffix(c) == ""
  {
    if c.alias == AliasList(["yo", "y"]) {
      assert Join(["yo", "y"], ", ") == "yo" + ", " + Join(["y"], ", ");
    }
  }

  function ListingEntry(c: Command): Entry
  {
    Entry(c.name + AliasSuffix(c), c.description)
  }

  /** The commands the listing shows: all distinct ones, or only those that are not hidden. */
  function Listed(keys: seq<string>, commands: map<string, Command>, hideHidden: bool): (r: seq<Command>)
    requires KeysPresent(keys, commands)
    ensures forall c :: c in r <==> c in DistinctCommands(keys, commands) && !(hideHidden && c.hidden)
  {
    var all := DistinctCommands(keys, commands);
    Filter(all, hideHidden)
  }

  function Filter(cs: seq<Command>, hideHidden: bool): (r: seq<Command>)
    ensures forall c :: c in r <==> c in cs && !(hideHidden && c.hidden)
    ensures |r| <= |cs|
  {
    if |cs| == 0 then []
    else
      var rest := Filter(cs[1..], hideHidden);
      assert forall c :: c in cs <==> c == cs[0] || c in cs[1..];
      if hideHidden && cs[0].hidden then rest else [cs[0]] + rest
  }

  /** The general help: usage line, the listing, the global options and the closing hint. */
  function GeneralSections(cliName: string, keys: seq<string>, commands: map<string, Command>, hideHidden: bool): seq<Section>
    requires KeysPresent(keys, commands)
  {
    var listed := Listed(keys, commands, hideHidden);
    [ TextSection("Usage", cliName + " <command> [arguments] [options]"),
      EntrySection("Available Commands", seq(|listed|, i requires 0 <= i < |listed| => ListingEntry(listed[i]))),
      OptionSection("Global Options", DefaultArguments.DefaultArguments()),
      RawSection("Run \"" + cliName + " help <command>\" or \"" + cliName + " <command> --help\" for help with a specific command.") ]
  }

  /**
   * print-help.ts lists each distinct command once and no hidden one;
   * print-tools.ts lists hidden ones too.
   */
  lemma ListingHidesHidden(cliName: string, keys: seq<string>, commands: map<string, Command>, c: Command)
    requires KeysPresent(keys, commands)
    requires exists i :: 0 <= i < |keys| && commands[keys[i]] == c
    ensures ListingEntry(c) in GeneralSections(cliName, keys, commands, false)[1].entries
    ensures !c.hidden ==> ListingEntry(c) in GeneralSections(cliName, keys, commands, true)[1].entries
    ensures c in Listed(keys, commands, true) <==> !c.hidden
  {
    var all := Listed(keys, commands, false);
    var shown := Listed(keys, commands, true);
    var k :| 0 <= k < |all| && all[k] == c;
    assert GeneralSections(cliName, keys, commands, false)[1].entries[k] == ListingEntry(c);
    if !c.hidden {
      var j :| 0 <= j < |shown| && shown[j] == c;
      assert GeneralSections(cliName, keys, commands, true)[1].entries[j] == ListingEntry(c);
    }
  }

  /**
   * `printHelp(toolbox, commands, name)`. Without a (truthy) name, the
   * general help; a name with no command, one error line with the
   * alternatives among all keys; otherwise the command's name, description
   * and usage sections, built by push and splice. A null alias throws when
   * its length is read.
   */
  method PrintHelp(cliName: string, keys: seq<string>, commands: map<string, Command>, name: Option<string>,
                   hideHidden: bool) returns (r: Result<HelpOutput>)
    requires KeysPresent(keys, commands)
    ensures name.None? || name.value == "" ==> r == Ok(GeneralHelp(GeneralSections(cliName, keys, commands, hideHidden)))
    ensures name.Some? && name.value != "" && name.value !in commands ==>
      r == Ok(UnknownCommand(InvalidCommandMessage(name.value, FindAlternatives(name.value, keys))))
    ensures name.Some? && name.value != "" && name.value in commands && commands[name.value].alias.NullAlias? ==>
      r == Err(TypeError("Cannot read properties of null (reading 'length')"))
    ensures name.Some? && name.value != "" && name.value in commands && !commands[name.value].alias.NullAlias? ==>
      var c := commands[name.value];
      var commandOptions := OptionSection("Command Options", c.args);
      var global := OptionSection("Global Options", DefaultArguments.DefaultArguments());
      var hasAlias := (c.alias.AliasString? && c.alias.s != "") || (c.alias.AliasList? && |c.alias.items| > 0);
      var alias := ListSection("Alias(es)", AliasesToRegister(c).value);
      && r.Ok? && r.value.CommandHelp? && r.value.name == c.name && r.value.description == c.description
      && r.value.sections == (if |c.args| > 0 && hasAlias then [commandOptions, alias, global]
                              else if |c.args| > 0 then [commandOptions, global]
                              else if hasAlias then [global, alias]
                              else [global])
  {
    if name.None? || name.value == "" {
      return Ok(GeneralHelp(GeneralSections(cliName, keys, commands, hideHidden)));
    }
    if name.value !in commands {
      var alternatives := FindAlternatives(name.value, keys);
      return Ok(UnknownCommand(InvalidCommandMessage(name.value, alternatives)));
    }
    var command := commands[name.value];
    var usageGroups: seq<Section> := [];
    if |command.args| > 0 {
      usageGroups := usageGroups + [OptionSection("Command Options", command.args)];
    }
    usageGroups := usageGroups + [OptionSection("Global Options", DefaultArguments.DefaultArguments())];
    if command.alias.NullAlias? {
      return Err(TypeError("Cannot read properties of null (reading 'length')"));
    }
    var length := match command.alias
      case AliasString(s) => |s|
      case AliasList(items) => |items|
      case _ => 0;
    if !command.alias.NoAlias? && length > 0 {
      var alias := match command.alias
        case AliasString(s) => [s]
        case AliasList(items) => items
        case _ => [];
      usageGroups := usageGroups[..1] + [ListSection("Alias(es)", alias)] + usageGroups[1..];
    }
    return Ok(CommandHelp(command.name, command.description, usageGroups));
  }
}
