/**
 * The global option-definition table every command is parsed with
 * (packages/cerebro-core/src/default-arguments.ts).
 */
module DefaultArguments {
  import opened Js
  import opened ParameterTools

  /** A global Boolean flag with its description and, for some, a one-letter alias. */
  function GlobalFlag(name: string, description: string, alias: Option<string>): OptionDef
  {
    var base := map["description" := Str(description), "type" := Func("Boolean"), "group" := Str("global")];
    OptionDef(name, if alias.Some? then base["alias" := Str(alias.value)] else base)
  }

  /** `defaultArguments`. */
  function DefaultArguments(): seq<OptionDef>
  {
    [ GlobalFlag("verbose", "turn on verbose output", None),
      GlobalFlag("very-verbose", "turn on very-verbose output", None),
      GlobalFlag("debug", "turn on debugging output", None),
      GlobalFlag("help", "print out helpful usage information", Some("h")),
      GlobalFlag("quiet", "silence output", Some("q")),
      GlobalFlag("version", "print version info.", Some("V")) ]
  }

  /** Six definitions, in the order verbose, very-verbose, debug, help, quiet, version. */
  lemma DefaultArgumentsOrder()
    ensures Names(DefaultArguments()) == ["verbose", "very-verbose", "debug", "help", "quiet", "version"]
  {
  }

  /** Every definition is a Boolean flag of the "global" group. */
  lemma DefaultArgumentsAreGlobalBooleans()
    ensures forall d :: d in DefaultArguments() ==>
      "type" in d.props && d.props["type"] == Func("Boolean")
      && "group" in d.props && d.props["group"] == Str("global")
  {
  }

  /** Only help (h), quiet (q) and version (V) carry an alias; no option is aliased "v". */
  lemma DefaultArgumentsAliases()
    ensures forall d :: d in DefaultArguments() ==>
      ("alias" in d.props <==> d.name in {"help", "quiet", "version"})
    ensures forall d :: d in DefaultArguments() && d.name == "help" ==> d.props["alias"] == Str("h")
    ensures forall d :: d in DefaultArguments() && d.name == "quiet" ==> d.props["alias"] == Str("q")
    ensures forall d :: d in DefaultArguments() && d.name == "version" ==> d.props["alias"] == Str("V")
    ensures forall d :: d in DefaultArguments() && "alias" in d.props ==> d.props["alias"] != Str("v")
  {
  }

  /** The names are pairwise distinct, so merging the table after no command options returns it unchanged. */
  lemma DefaultArgumentsMergeUnchanged()
    ensures Distinct(Names(DefaultArguments()))
    ensures Merged([[], DefaultArguments()]) == DefaultArguments()
  {
    DefaultArgumentsOrder();
    MergeDistinct(DefaultArguments());
  }
}
