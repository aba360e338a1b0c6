/**
 * The package-manager extension: the command line that `add` and `remove`
 * hand to the shell, the choice between yarn and npm, and the memoised
 * lookup of yarn. Running the command and finding yarn on the PATH are
 * oracles given to the tools.
 */
module PackageManager {
  import opened Js
  import opened Strings

  /** The `packageName` argument: one name, or an array of names. */
  datatype Packages = Name(name: string) | Names(names: seq<string>)

  /** `PackageManagerOptions`; an unset key is None, and unset flags are false. */
  datatype PackageManagerOptions = PackageManagerOptions(
    dev: bool,
    dryRun: bool,
    dir: Option<string>,
    force: Option<string>)

  /** `PackageManagerResult`; stdout is None where it is left undefined. `error` is never set. */
  datatype PackageManagerResult = PackageManagerResult(success: bool, command: string, stdout: Option<string>)

  /** `concatPackages(packageName)`: an array joined with single spaces, a name as is. */
  function ConcatPackages(p: Packages): string
  {
    match p
    case Name(n) => n
    case Names(ns) => Join(ns, " ")
  }

  /** The words the shell sees for the packages: an empty array still leaves one empty word. */
  function PackageWords(p: Packages): (r: seq<string>)
    ensures |r| >= 1
  {
    match p
    case Name(n) => [n]
    case Names(ns) => if |ns| == 0 then [""] else ns
  }

  /** Names free of spaces. */
  predicate SpaceFree(p: Packages)
  {
    match p
    case Name(n) => ' ' !in n
    case Names(ns) => forall k :: 0 <= k < |ns| ==> ' ' !in ns[k]
  }

  /** Splitting the concatenation on spaces gives the names back. */
  lemma ConcatPackagesSplits(p: Packages)
    requires SpaceFree(p)
    ensures SplitOn(ConcatPackages(p), ' ') == PackageWords(p)
  {
    match p
    case Name(n) =>
      SplitWithoutSeparator(n, ' ');
    case Names(ns) =>
      if |ns| == 0 {
        SplitWithoutSeparator("", ' ');
      } else {
        SplitJoin(ns, ' ');
      }
  }

  /** `options.dir ? options.dir : "."`. */
  function Folder(o: PackageManagerOptions): (r: string)
    ensures r != ""
    ensures o.dir.Some? && o.dir.value != "" ==> r == o.dir.value
  {
    if o.dir.Some? && o.dir.value != "" then o.dir.value else "."
  }

  /** `add` uses yarn when force is unset and yarn was found, or when force is "yarn". */
  function AddUsesYarn(force: Option<string>, yarnFound: bool): (r: bool)
    ensures force == Some("npm") ==> !r
    ensures force == Some("yarn") ==> r
    ensures force.None? ==> (r <==> yarnFound)
  {
    if force.None? then yarnFound else force == Some("yarn")
  }

  /** The program and subcommand of `add`. */
  function AddProgram(yarn: bool): string
  {
    if yarn then "yarn add --cwd" else "npm install --prefix"
  }

  /** The program and subcommand of `remove`. */
  function RemoveProgram(yarn: bool): string
  {
    if yarn then "yarn remove --cwd" else "npm uninstall --prefix"
  }

  /** The dev flag of `add`, with its trailing space. */
  function Development(dev: bool, yarn: bool): string
  {
    if dev then (if yarn then "--dev " else "--save-dev ") else ""
  }

  /** The command line of `add`. */
  function AddCommand(p: Packages, o: PackageManagerOptions, yarn: bool): string
  {
    AddProgram(yarn) + " " + Folder(o) + " " + Development(o.dev, yarn) + ConcatPackages(p)
  }

  /** The command line of `remove`: no dev flag. */
  function RemoveCommand(p: Packages, o: PackageManagerOptions, yarn: bool): string
  {
    RemoveProgram(yarn) + " " + Folder(o) + " " + ConcatPackages(p)
  }

  /** The words of `add`'s program and subcommand. */
  function AddProgramWords(yarn: bool): seq<string>
  {
    if yarn then ["yarn", "add", "--cwd"] else ["npm", "install", "--prefix"]
  }

  /** The words of `remove`'s program and subcommand. */
  function RemoveProgramWords(yarn: bool): seq<string>
  {
    if yarn then ["yarn", "remove", "--cwd"] else ["npm", "uninstall", "--prefix"]
  }

  /** The words of `add` before the packages. */
  function AddLead(o: PackageManagerOptions, yarn: bool): seq<string>
  {
    AddProgramWords(yarn) + [Folder(o)] + (if o.dev then (if yarn then ["--dev"] else ["--save-dev"]) else [])
  }

  /** The words of `remove` before the packages. */
  function RemoveLead(o: PackageManagerOptions, yarn: bool): seq<string>
  {
    RemoveProgramWords(yarn) + [Folder(o)]
  }

  /** Joining three words. */
  lemma JoinThree(a: string, b: string, c: string)
    ensures Join([a, b, c], " ") == a + " " + b + " " + c
  {
    assert [b, c][1..] == [c];
    assert Join([b, c], " ") == b + " " + c;
    assert [a, b, c][1..] == [b, c];
    assert Join([a, b, c], " ") == a + " " + (b + " " + c);
  }

  /** The program words join into the program. */
  lemma ProgramWordsJoin(yarn: bool)
    ensures Join(AddProgramWords(yarn), " ") == AddProgram(yarn)
    ensures Join(RemoveProgramWords(yarn), " ") == RemoveProgram(yarn)
  {
    if yarn {
      JoinThree("yarn", "add", "--cwd");
      assert "yarn" + " " + "add" + " " + "--cwd" == "yarn add --cwd";
      JoinThree("yarn", "remove", "--cwd");
      assert "yarn" + " " + "remove" + " " + "--cwd" == "yarn remove --cwd";
    } else {
      JoinThree("npm", "install", "--prefix");
      assert "npm" + " " + "install" + " " + "--prefix" == "npm install --prefix";
      JoinThree("npm", "uninstall", "--prefix");
      assert "npm" + " " + "uninstall" + " " + "--prefix" == "npm uninstall --prefix";
    }
  }

  /** Lead words and packages joined by one space. */
  lemma SplitLeadAndPackages(lead: seq<string>, p: Packages)
    requires |lead| >= 1 && forall k :: 0 <= k < |lead| ==> ' ' !in lead[k]
    requires SpaceFree(p)
    ensures SplitOn(Join(lead, " ") + " " + ConcatPackages(p), ' ') == lead + PackageWords(p)
  {
    SplitAround(Join(lead, " "), ' ', ConcatPackages(p));
    SplitJoin(lead, ' ');
    ConcatPackagesSplits(p);
  }

  /** The words of the `add` command line, as the shell splits it on spaces. */
  lemma AddCommandWords(p: Packages, o: PackageManagerOptions, yarn: bool)
    requires ' ' !in Folder(o) && SpaceFree(p)
    ensures SplitOn(AddCommand(p, o, yarn), ' ') == AddLead(o, yarn) + PackageWords(p)
  {
    var program := AddProgram(yarn);
    var f := Folder(o);
    var c := ConcatPackages(p);
    ProgramWordsJoin(yarn);
    JoinAppend(AddProgramWords(yarn), [f], " ");
    var lead := AddLead(o, yarn);
    if o.dev {
      var flag := if yarn then "--dev" else "--save-dev";
      JoinAppend(AddProgramWords(yarn) + [f], [flag], " ");
      assert lead == AddProgramWords(yarn) + [f] + [flag];
      assert Development(o.dev, yarn) == flag + " ";
      assert AddCommand(p, o, yarn) == program + " " + f + " " + flag + " " + c;
    } else {
      assert lead == AddProgramWords(yarn) + [f];
      assert AddCommand(p, o, yarn) == program + " " + f + " " + c;
    }
    SplitLeadAndPackages(lead, p);
  }

  /** The words of the `remove` command line, as the shell splits it on spaces. */
  lemma RemoveCommandWords(p: Packages, o: PackageManagerOptions, yarn: bool)
    requires ' ' !in Folder(o) && SpaceFree(p)
    ensures SplitOn(RemoveCommand(p, o, yarn), ' ') == RemoveLead(o, yarn) + PackageWords(p)
  {
    ProgramWordsJoin(yarn);
    JoinAppend(RemoveProgramWords(yarn), [Folder(o)], " ");
    SplitLeadAndPackages(RemoveLead(o, yarn), p);
  }

  /** The memo after a `hasYarn` call: looked up only while still undefined. */
  function Lookup(yarnpath: Option<Option<string>>, which: string -> Option<string>): (r: Option<Option<string>>)
    ensures r.Some?
    ensures yarnpath.Some? ==> r == yarnpath
  {
    if yarnpath.None? then Some(which("yarn")) else yarnpath
  }

  /** `Boolean(yarnpath)`. */
  predicate Found(yarnpath: Option<Option<string>>)
  {
    yarnpath.Some? && yarnpath.value.Some? && yarnpath.value.value != ""
  }

  /** Once looked up, the answer never changes, whatever the PATH says later. */
  lemma LookupOnce(yarnpath: Option<Option<string>>, which: string -> Option<string>, later: string -> Option<string>)
    ensures Lookup(Lookup(yarnpath, which), later) == Lookup(yarnpath, which)
  {
  }

  /** The result of `add`: the oracle's stdout, "" on a dry run; a failing command rejects. */
  function AddOutcome(command: string, dryRun: bool, run: string -> Result<string>): (r: Result<PackageManagerResult>)
    ensures dryRun ==> r == Ok(PackageManagerResult(true, command, Some("")))
    ensures r.Ok? ==> r.value.success && r.value.command == command && r.value.stdout.Some?
  {
    if dryRun then Ok(PackageManagerResult(true, command, Some("")))
    else match run(command)
      case Err(e) => Err(e)
      case Ok(out) => Ok(PackageManagerResult(true, command, Some(out)))
  }

  /** The result of `remove`: stdout is left undefined on a dry run. */
  function RemoveOutcome(command: string, dryRun: bool, run: string -> Result<string>): (r: Result<PackageManagerResult>)
    ensures dryRun ==> r == Ok(PackageManagerResult(true, command, None))
    ensures r.Ok? ==> r.value.success && r.value.command == command
    ensures !dryRun && r.Ok? ==> r.value.stdout.Some?
  {
    if dryRun then Ok(PackageManagerResult(true, command, None))
    else match run(command)
      case Err(e) => Err(e)
      case Ok(out) => Ok(PackageManagerResult(true, command, Some(out)))
  }

  /**
   * The tools with their module-level memo `yarnpath` (None while
   * undefined, Some(None) for a failed lookup) and the commands handed to
   * `system.run`, in order.
   */
  class Tools {
    var yarnpath: Option<Option<string>>
    var ran: seq<string>
    const which: string -> Option<string>
    const run: string -> Result<string>

    constructor(which: string -> Option<string>, run: string -> Result<string>)
      ensures yarnpath.None? && ran == []
      ensures this.which == which && this.run == run
    {
      yarnpath := None;
      ran := [];
      this.which := which;
      this.run := run;
    }

    /** `hasYarn()`. */
    method HasYarn() returns (r: bool)
      modifies this
      ensures yarnpath == Lookup(old(yarnpath), which)
      ensures r <==> Found(yarnpath)
      ensures ran == old(ran)
    {
      if yarnpath.None? {
        yarnpath := Some(which("yarn"));
      }
      r := yarnpath.Some? && yarnpath.value.Some? && yarnpath.value.value != "";
    }

    /** `add(packageName, options)`. */
    method Add(p: Packages, o: PackageManagerOptions) returns (r: Result<PackageManagerResult>)
      modifies this
      ensures yarnpath == if o.force.None? then Lookup(old(yarnpath), which) else old(yarnpath)
      ensures var command := AddCommand(p, o, AddUsesYarn(o.force, Found(yarnpath)));
        && r == AddOutcome(command, o.dryRun, run)
        && ran == if o.dryRun then old(ran) else old(ran) + [command]
    {
      var yarn: bool;
      if o.force.None? {
        yarn := HasYarn();
      } else {
        yarn := o.force == Some("yarn");
      }
      var command := AddCommand(p, o, yarn);
      var stdout := "";
      if !o.dryRun {
        ran := ran + [command];
        var out := run(command);
        if out.Err? {
          return Err(out.error);
        }
        stdout := out.value;
      }
      return Ok(PackageManagerResult(true, command, Some(stdout)));
    }

    /** `remove(packageName, options)`: force is ignored. */
    method Remove(p: Packages, o: PackageManagerOptions) returns (r: Result<PackageManagerResult>)
      modifies this
      ensures yarnpath == Lookup(old(yarnpath), which)
      ensures var command := RemoveCommand(p, o, Found(yarnpath));
        && r == RemoveOutcome(command, o.dryRun, run)
        && ran == if o.dryRun then old(ran) else old(ran) + [command]
    {
      var yarn := HasYarn();
      var command := RemoveCommand(p, o, yarn);
      var stdout: Option<string> := None;
      if !o.dryRun {
        ran := ran + [command];
        var out := run(command);
        if out.Err? {
          return Err(out.error);
        }
        stdout := Some(out.value);
      }
      return Ok(PackageManagerResult(true, command, stdout));
    }
  }

  /** Removing is adding's counterpart: the same folder and packages, with remove/uninstall in place of add/install. */
  lemma RemoveMirrorsAdd(p: Packages, o: PackageManagerOptions, yarn: bool)
    requires ' ' !in Folder(o) && SpaceFree(p) && !o.dev
    ensures var added := SplitOn(AddCommand(p, o, yarn), ' ');
      var removed := SplitOn(RemoveCommand(p, o, yarn), ' ');
      && |added| == |removed| >= 5
      && added[0] == removed[0] && added[2..] == removed[2..]
      && removed[1] == (if yarn then "remove" else "uninstall")
  {
    AddCommandWords(p, o, yarn);
    RemoveCommandWords(p, o, yarn);
    SameTail(AddProgramWords(yarn), RemoveProgramWords(yarn), [Folder(o)] + PackageWords(p));
  }

  /** Two three-word heads that agree outside their middle word, followed by the same words. */
  lemma SameTail(a: seq<string>, b: seq<string>, rest: seq<string>)
    requires |a| == |b| == 3 && a[0] == b[0] && a[2] == b[2] && |rest| >= 2
    ensures |a + rest| == |b + rest| >= 5
    ensures (a + rest)[0] == (b + rest)[0] && (a + rest)[1] == a[1] && (b + rest)[1] == b[1]
    ensures (a + rest)[2..] == (b + rest)[2..]
  {
    assert (a + rest)[2..] == [a[2]] + rest;
    assert (b + rest)[2..] == [b[2]] + rest;
  }
}
