/**
 * Option-definition merging and raw-command splitting
 * (packages/cerebro-core/src/toolbox/parameter-tools.ts).
 */
module ParameterTools {
  import opened Js
  import opened Strings
  import opened Utils

  /**
   * An option definition of command-line-usage: its `name` and every other
   * property (description, type, alias, group, defaultOption, …) by key.
   */
  datatype OptionDef = OptionDef(name: string, props: map<string, Value>)

  /** The names of a list of definitions, in order. */
  function Names(args: seq<OptionDef>): (r: seq<string>)
    ensures |r| == |args| && forall i :: 0 <= i < |args| ==> r[i] == args[i].name
  {
    seq(|args|, i requires 0 <= i < |args| => args[i].name)
  }

  predicate Distinct(xs: seq<string>)
  {
    forall i, j :: 0 <= i < j < |xs| ==> xs[i] != xs[j]
  }

  /** Each name once, in order of first appearance. */
  function Dedup(xs: seq<string>): (r: seq<string>)
    ensures Distinct(r)
    ensures forall x :: x in r <==> x in xs
    decreases |xs|
  {
    if |xs| == 0 then []
    else
      var d := Dedup(xs[..|xs| - 1]);
      var x := xs[|xs| - 1];
      if x in d then d else d + [x]
  }

  /** The lists one after the other, as the nested `forEach` visits them. */
  function Flatten(lists: seq<seq<OptionDef>>): (r: seq<OptionDef>)
    decreases |lists|
  {
    if |lists| == 0 then [] else Flatten(lists[..|lists| - 1]) + lists[|lists| - 1]
  }

  /** The insertion-ordered `Map` that `mergeArguments` fills: its keys in insertion order and its entries. */
  datatype ByName = ByName(keys: seq<string>, entries: map<string, OptionDef>)

  /** `argumentsByName.set(name, { ...argumentsByName.get(name), ...argument })`. */
  function Set(st: ByName, arg: OptionDef): ByName
  {
    var previous := if arg.name in st.entries then st.entries[arg.name].props else map[];
    ByName(if arg.name in st.entries then st.keys else st.keys + [arg.name],
           st.entries[arg.name := OptionDef(arg.name, previous + arg.props)])
  }

  /** The map after setting each definition of args in turn. */
  function MergeState(args: seq<OptionDef>): ByName
    decreases |args|
  {
    if |args| == 0 then ByName([], map[])
    else Set(MergeState(args[..|args| - 1]), args[|args| - 1])
  }

  /** Every occurrence of name k in args, folded field by field with later fields winning. */
  function FieldUnion(args: seq<OptionDef>, k: string): map<string, Value>
    decreases |args|
  {
    if |args| == 0 then map[]
    else
      var prefix := FieldUnion(args[..|args| - 1], k);
      var a := args[|args| - 1];
      if a.name == k then prefix + a.props else prefix
  }

  /** `[...argumentsByName.values()]`: the entries in key insertion order. */
  function Values(st: ByName): seq<OptionDef>
    requires forall k :: k in st.keys ==> k in st.entries
  {
    seq(|st.keys|, i requires 0 <= i < |st.keys| => st.entries[st.keys[i]])
  }

  /** What the map holds after the definitions args have been set in turn. */
  predicate Shape(st: ByName, args: seq<OptionDef>)
  {
    && st.keys == Dedup(Names(args))
    && st.entries.Keys == (set k | k in st.keys)
    && (forall k :: k in st.entries ==> st.entries[k] == OptionDef(k, FieldUnion(args, k)))
  }

  lemma SetShape(st: ByName, args: seq<OptionDef>, a: OptionDef)
    requires Shape(st, args)
    ensures Shape(Set(st, a), args + [a])
  {
    SetShapeKeys(st, args, a);
    SetShapeFields(st, args, a);
  }

  lemma SetShapeKeys(st: ByName, args: seq<OptionDef>, a: OptionDef)
    requires st.keys == Dedup(Names(args)) && st.entries.Keys == (set k | k in st.keys)
    ensures Set(st, a).keys == Dedup(Names(args + [a]))
    ensures Set(st, a).entries.Keys == (set k | k in Set(st, a).keys)
  {
    var all := args + [a];
    assert Names(all)[..|all| - 1] == Names(args);
    assert Names(all)[|all| - 1] == a.name;
    assert (a.name in st.entries) == (a.name in st.keys);
  }

  lemma SetShapeFields(st: ByName, args: seq<OptionDef>, a: OptionDef)
    requires st.entries.Keys == (set k | k in Dedup(Names(args)))
    requires forall k :: k in st.entries ==> st.entries[k] == OptionDef(k, FieldUnion(args, k))
    ensures forall k :: k in Set(st, a).entries ==> Set(st, a).entries[k] == OptionDef(k, FieldUnion(args + [a], k))
  {
    var all := args + [a];
    assert all[..|all| - 1] == args;
    if a.name !in st.entries {
      assert a.name !in Names(args);
      FieldUnionAbsent(args, a.name);
      assert map[] + a.props == a.props;
    }
    forall k | k in Set(st, a).entries
      ensures Set(st, a).entries[k] == OptionDef(k, FieldUnion(all, k))
    {
      if k != a.name {
        assert FieldUnion(all, k) == FieldUnion(args, k);
      }
    }
  }

  /** The shape of the map after any number of `set` calls. */
  lemma {:induction false} MergeStateShape(args: seq<OptionDef>)
    ensures Shape(MergeState(args), args)
    decreases |args|
  {
    if |args| > 0 {
      var init := args[..|args| - 1];
      MergeStateShape(init);
      assert init + [args[|args| - 1]] == args;
      MergeStateSnoc(init, args[|args| - 1]);
      SetShape(MergeState(init), init, args[|args| - 1]);
    } else {
      assert Names(args) == [];
    }
  }

  /** The merged definitions: one per distinct name. */
  function Merged(lists: seq<seq<OptionDef>>): (r: seq<OptionDef>)
  {
    MergeStateShape(Flatten(lists));
    Values(MergeState(Flatten(lists)))
  }

  lemma FlattenPair(a: seq<OptionDef>, b: seq<OptionDef>)
    ensures Flatten([a, b]) == a + b
  {
    assert [a, b][..1] == [a];
    assert [a][..0] == [];
    assert Flatten([a]) == [] + a;
  }

  lemma FlattenSnoc(lists: seq<seq<OptionDef>>, i: nat)
    requires i < |lists|
    ensures Flatten(lists[..i + 1]) == Flatten(lists[..i]) + lists[i]
  {
    assert lists[..i + 1][..i] == lists[..i];
  }

  lemma MergeStateSnoc(args: seq<OptionDef>, a: OptionDef)
    ensures MergeState(args + [a]) == Set(MergeState(args), a)
  {
    assert (args + [a])[..|args|] == args;
  }

  /**
   * `mergeArguments(argumentLists)`: nested loops over the lists and their
   * definitions, filling an insertion-ordered map keyed by name.
   */
  method MergeArguments(argumentLists: seq<seq<OptionDef>>) returns (r: seq<OptionDef>)
    ensures r == Merged(argumentLists)
  {
    var keys: seq<string> := [];
    var byName: map<string, OptionDef> := map[];
    var i := 0;
    while i < |argumentLists|
      invariant 0 <= i <= |argumentLists|
      invariant ByName(keys, byName) == MergeState(Flatten(argumentLists[..i]))
    {
      var list := argumentLists[i];
      var j := 0;
      assert Flatten(argumentLists[..i]) + list[..0] == Flatten(argumentLists[..i]);
      while j < |list|
        invariant 0 <= j <= |list|
        invariant ByName(keys, byName) == MergeState(Flatten(argumentLists[..i]) + list[..j])
      {
        var argument := list[j];
        MergeStateSnoc(Flatten(argumentLists[..i]) + list[..j], argument);
        assert Flatten(argumentLists[..i]) + list[..j + 1] == Flatten(argumentLists[..i]) + list[..j] + [argument];
        var previous := if argument.name in byName then byName[argument.name].props else map[];
        if argument.name !in byName {
          keys := keys + [argument.name];
        }
        byName := byName[argument.name := OptionDef(argument.name, previous + argument.props)];
        j := j + 1;
      }
      FlattenSnoc(argumentLists, i);
      assert list[..j] == list;
      i := i + 1;
    }
    assert argumentLists[..i] == argumentLists;
    MergeStateShape(Flatten(argumentLists));
    r := Values(ByName(keys, byName));
  }

  /** One definition per distinct name, ordered by the first appearance of that name. */
  lemma MergedNames(lists: seq<seq<OptionDef>>)
    ensures Names(Merged(lists)) == Dedup(Names(Flatten(lists)))
    ensures Distinct(Names(Merged(lists)))
  {
    MergeStateShape(Flatten(lists));
  }

  /** Each merged definition is the field-wise union of every occurrence of its name, later fields winning. */
  lemma MergedFields(lists: seq<seq<OptionDef>>, i: nat)
    requires i < |Merged(lists)|
    ensures Merged(lists)[i] == OptionDef(Merged(lists)[i].name, FieldUnion(Flatten(lists), Merged(lists)[i].name))
  {
    MergeStateShape(Flatten(lists));
  }

  lemma {:induction false} FieldUnionAppend(a: seq<OptionDef>, b: seq<OptionDef>, k: string)
    ensures FieldUnion(a + b, k) == FieldUnion(a, k) + FieldUnion(b, k)
    decreases |b|
  {
    if |b| == 0 {
      assert a + b == a;
      assert FieldUnion(a, k) + map[] == FieldUnion(a, k);
    } else {
      assert (a + b)[..|a + b| - 1] == a + b[..|b| - 1];
      FieldUnionAppend(a, b[..|b| - 1], k);
    }
  }

  lemma {:induction false} FieldUnionOnce(args: seq<OptionDef>, i: nat)
    requires i < |args| && Distinct(Names(args))
    ensures FieldUnion(args, args[i].name) == args[i].props
    decreases |args|
  {
    var k := args[i].name;
    var init := args[..|args| - 1];
    assert Names(init) == Names(args)[..|args| - 1];
    if i == |args| - 1 {
      FieldUnionAbsent(init, k);
      assert map[] + args[i].props == args[i].props;
    } else {
      FieldUnionOnce(init, i);
    }
  }

  lemma {:induction false} FieldUnionAbsent(args: seq<OptionDef>, k: string)
    requires k !in Names(args)
    ensures FieldUnion(args, k) == map[]
    decreases |args|
  {
    if |args| > 0 {
      assert Names(args[..|args| - 1]) == Names(args)[..|args| - 1];
      FieldUnionAbsent(args[..|args| - 1], k);
    }
  }

  /**
   * `mergeArguments([commandArgs, globals])` as the runtime calls it: for a
   * name the global table defines once, the global fields win over the
   * command's fields of the same name, and the command's other fields stay.
   */
  lemma GlobalFieldsWin(commandArgs: seq<OptionDef>, globals: seq<OptionDef>, i: nat)
    requires i < |globals| && Distinct(Names(globals))
    ensures globals[i].name in MergeState(Flatten([commandArgs, globals])).entries
    ensures MergeState(Flatten([commandArgs, globals])).entries[globals[i].name].props
      == FieldUnion(commandArgs, globals[i].name) + globals[i].props
  {
    var flat := Flatten([commandArgs, globals]);
    FlattenPair(commandArgs, globals);
    MergeStateShape(flat);
    assert globals[i].name in Names(flat) by {
      assert Names(flat)[|commandArgs| + i] == globals[i].name;
    }
    FieldUnionAppend(commandArgs, globals, globals[i].name);
    FieldUnionOnce(globals, i);
  }

  /** A list whose names are pairwise distinct, after an empty list, merges to itself in order. */
  lemma MergeDistinct(args: seq<OptionDef>)
    requires Distinct(Names(args))
    ensures Merged([[], args]) == args
  {
    var empty: seq<OptionDef> := [];
    FlattenPair(empty, args);
    assert empty + args == args;
    MergeStateShape(args);
    assert Merged([empty, args]) == Values(MergeState(args));
    var st := MergeState(args);
    DedupDistinct(Names(args));
    assert st.keys == Names(args);
    var r := Values(st);
    assert |r| == |args|;
    forall i | 0 <= i < |args|
      ensures r[i] == args[i]
    {
      assert st.keys[i] == args[i].name;
      assert args[i].name in st.entries;
      FieldUnionOnce(args, i);
    }
  }

  lemma {:induction false} DedupDistinct(xs: seq<string>)
    requires Distinct(xs)
    ensures Dedup(xs) == xs
    decreases |xs|
  {
    if |xs| > 0 {
      DedupDistinct(xs[..|xs| - 1]);
      assert xs[|xs| - 1] !in xs[..|xs| - 1];
    }
  }

  /** The argument of `parseRawCommand`: a command string or a list of command parts. */
  datatype RawCommand = RawString(s: string) | RawList(parts: seq<string>)

  /**
   * `parseRawCommand(commandArray)`: a string is split on single spaces; an
   * array equal to `process.argv` loses its runtime and script entries; any
   * other array is returned as it is.
   */
  function ParseRawCommand(raw: RawCommand, processArgv: seq<string>, bundledElectron: bool): (r: seq<string>)
    ensures raw.RawString? ==> Join(r, " ") == raw.s && forall k :: 0 <= k < |r| ==> ' ' !in r[k]
    ensures raw.RawList? && raw.parts != processArgv ==> r == raw.parts
  {
    match raw
    case RawString(s) =>
      JoinSplit(s, ' ');
      SplitOn(s, ' ')
    case RawList(parts) =>
      if Equals(parts, processArgv) then HideBin(parts, bundledElectron) else parts
  }

  /** Splitting a string gives back the words of a single-space join. */
  lemma ParseRawCommandWords(words: seq<string>, processArgv: seq<string>, bundledElectron: bool)
    requires |words| >= 1 && forall k :: 0 <= k < |words| ==> ' ' !in words[k]
    ensures ParseRawCommand(RawString(Join(words, " ")), processArgv, bundledElectron) == words
  {
    SplitJoin(words, ' ');
  }

  /** Consecutive spaces give an empty token between them, and "" gives [""]. */
  lemma ParseRawCommandEmptyTokens(a: string, b: string, processArgv: seq<string>, bundledElectron: bool)
    requires ' ' !in a && ' ' !in b
    ensures ParseRawCommand(RawString(a + "  " + b), processArgv, bundledElectron) == [a, "", b]
    ensures ParseRawCommand(RawString(""), processArgv, bundledElectron) == [""]
  {
    assert a + "  " + b == a + [' '] + ([' '] + b);
    SplitAround(a, ' ', [' '] + b);
    assert [' '] + b == [] + [' '] + b;
    SplitAround([], ' ', b);
    SplitWithoutSeparator(a, ' ');
    SplitWithoutSeparator(b, ' ');
  }

  /** The array `process.argv` itself is stripped of its runtime and script entries. */
  lemma ParseRawCommandProcessArgv(prefix: seq<string>, args: seq<string>, bundledElectron: bool)
    requires |prefix| == BinCount(bundledElectron)
    ensures ParseRawCommand(RawList(prefix + args), prefix + args, bundledElectron) == args
  {
    HideBinDropsPrefix(prefix, args, bundledElectron);
  }
}
