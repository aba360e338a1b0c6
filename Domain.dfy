/**
 * The runtime's two registered entities: the `Command` record
 * (packages/cerebro-core/src/domain/command.ts) and the `Extension` record
 * (packages/cerebro-core/src/domain/extension.ts).
 */
module Domain {
  import opened Js
  import opened ParameterTools

  /** The `alias` property of a command: absent, null, one string, or a list of strings. */
  datatype Alias = NoAlias | NullAlias | AliasString(s: string) | AliasList(items: seq<string>)

  /**
   * A command. An unset name, file or description is falsy in the source; the
   * name is "" then, the others None. `execute` is whatever value was given.
   */
  datatype Command = Command(
    name: string,
    description: Option<string>,
    file: Option<string>,
    execute: Value,
    hidden: bool,
    commandPath: Option<seq<string>>,
    alias: Alias,
    args: seq<OptionDef>)

  /** The properties handed to `new Command(properties)`; a None field is not passed. */
  datatype CommandInit = CommandInit(
    name: Option<string>,
    description: Option<string>,
    file: Option<string>,
    execute: Option<Value>,
    hidden: Option<bool>,
    commandPath: Option<seq<string>>,
    alias: Option<Alias>,
    args: Option<seq<OptionDef>>)

  function OrElse<T>(o: Option<T>, d: T): T
  {
    if o.Some? then o.value else d
  }

  /**
   * `new Command(properties)`: hidden false, alias [] and args [], then the
   * passed properties copied over; a property not passed keeps its default,
   * or stays unset.
   */
  function NewCommand(init: Option<CommandInit>): (c: Command)
    ensures init.None? ==>
              c.hidden == false && c.alias == AliasList([]) && c.args == []
              && c.name == "" && c.file.None? && c.description.None? && !Truthy(c.execute) && c.commandPath.None?
    ensures init.Some? ==> c.description == init.value.description && c.file == init.value.file
                           && c.commandPath == init.value.commandPath
    ensures init.Some? && init.value.name.Some? ==> c.name == init.value.name.value
    ensures init.Some? && init.value.name.None? ==> c.name == ""
    ensures init.Some? && init.value.alias.Some? ==> c.alias == init.value.alias.value
    ensures init.Some? && init.value.alias.None? ==> c.alias == AliasList([])
    ensures init.Some? && init.value.hidden.Some? ==> c.hidden == init.value.hidden.value
    ensures init.Some? && init.value.hidden.None? ==> c.hidden == false
    ensures init.Some? && init.value.args.Some? ==> c.args == init.value.args.value
    ensures init.Some? && init.value.args.None? ==> c.args == []
    ensures init.Some? && init.value.execute.Some? ==> c.execute == init.value.execute.value
    ensures init.Some? && init.value.execute.None? ==> !Truthy(c.execute)
  {
    match init
    case None => Command("", None, None, Undefined, false, None, AliasList([]), [])
    case Some(p) =>
      Command(OrElse(p.name, ""), p.description, p.file, OrElse(p.execute, Undefined),
              OrElse(p.hidden, false), p.commandPath, OrElse(p.alias, AliasList([])), OrElse(p.args, []))
  }

  /** The `aliases` getter: [] for a falsy alias, the list itself, or the single string wrapped. */
  function Aliases(c: Command): (r: seq<string>)
    ensures c.alias.AliasList? ==> r == c.alias.items
    ensures c.alias.AliasString? ==> r == if c.alias.s == "" then [] else [c.alias.s]
    ensures c.alias.NoAlias? || c.alias.NullAlias? ==> r == []
  {
    match c.alias
    case NoAlias => []
    case NullAlias => []
    case AliasString(s) => if s == "" then [] else [s]
    case AliasList(items) => items
  }

  /** `hasAlias()`: the aliases list is non-empty. */
  predicate HasAlias(c: Command)
  {
    |Aliases(c)| > 0
  }

  /** A command has an alias exactly when its alias is a non-empty string or a non-empty list. */
  lemma HasAliasMeaning(c: Command)
    ensures HasAlias(c) <==> (c.alias.AliasString? && c.alias.s != "") || (c.alias.AliasList? && |c.alias.items| > 0)
  {
  }

  /** The argument of `matchesAlias`: one name or a list of names. */
  datatype AliasQuery = One(s: string) | Many(items: seq<string>)

  function QueryList(q: AliasQuery): seq<string>
  {
    match q
    case One(s) => [s]
    case Many(items) => items
  }

  /** `aliases.some(a => this.name === a || this.aliases.includes(a))` over a list. */
  function SomeMatches(c: Command, xs: seq<string>): (r: bool)
    ensures r <==> exists i :: 0 <= i < |xs| && (xs[i] == c.name || xs[i] in Aliases(c))
    decreases |xs|
  {
    if |xs| == 0 then false
    else xs[0] == c.name || xs[0] in Aliases(c) || SomeMatches(c, xs[1..])
  }

  /** `matchesAlias(alias)`: some given name is the command's name or one of its aliases. */
  function MatchesAlias(c: Command, q: AliasQuery): (r: bool)
    ensures r <==> exists a :: a in QueryList(q) && (a == c.name || a in Aliases(c))
  {
    SomeMatchesMembers(c, QueryList(q));
    SomeMatches(c, QueryList(q))
  }

  lemma SomeMatchesMembers(c: Command, xs: seq<string>)
    ensures SomeMatches(c, xs) <==> exists a :: a in xs && (a == c.name || a in Aliases(c))
  {
    if SomeMatches(c, xs) {
      var i :| 0 <= i < |xs| && (xs[i] == c.name || xs[i] in Aliases(c));
      assert xs[i] in xs;
    } else {
      forall a | a in xs
        ensures !(a == c.name || a in Aliases(c))
      {
        var i :| 0 <= i < |xs| && xs[i] == a;
      }
    }
  }

  /** An empty list matches nothing, and the command's own name always matches. */
  lemma MatchesAliasEdges(c: Command)
    ensures !MatchesAlias(c, Many([]))
    ensures MatchesAlias(c, One(c.name))
  {
    assert c.name in QueryList(One(c.name));
  }

  /** The documented example: "yogurt" with aliases ["yo", "y"]. */
  lemma MatchesAliasExample()
    ensures var c := Command("yogurt", None, None, Undefined, false, None, AliasList(["yo", "y"]), []);
      MatchesAlias(c, Many(["asdf", "i", "yo"])) && MatchesAlias(c, One("yogurt"))
      && !MatchesAlias(c, Many(["asdf", "i", "womp"]))
  {
    var c := Command("yogurt", None, None, Undefined, false, None, AliasList(["yo", "y"]), []);
    assert "yo" in QueryList(Many(["asdf", "i", "yo"])) && "yo" in Aliases(c);
    assert "yogurt" in QueryList(One("yogurt"));
  }

  /** An extension: its name, the setup function that attaches it to the toolbox, and where it came from. */
  datatype Extension = Extension(name: string, execute: Value, description: Option<string>, file: Option<string>)
}
