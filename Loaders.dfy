/**
 * The deterministic parts of the command and extension loaders
 * (packages/cerebro-core/src/loaders/command-loader.ts and
 * extension-loader.ts): file guards, the default name and `commandPath`
 * derived from a file path, module validation, alias normalisation, and the
 * loader constructors. The loaders' `run` loops register into the `Cli`
 * and live beside it.
 */
module Loaders {
  import opened Js
  import opened Strings
  import opened Utils
  import opened Domain
  import opened LoadModule

  /** The options a file is loaded with; `CommandLoader.run` passes none. */
  datatype LoadOptions = LoadOptions(loadingType: Option<string>, commandPath: Option<seq<string>>)

  function NoLoadOptions(): LoadOptions
  {
    LoadOptions(None, None)
  }

  /** `jetpack.inspect(file).name`: the last segment of the path. */
  function BaseName(file: string): (r: string)
    ensures '/' !in r
  {
    LastPieceHasNoSeparator(file, "/");
    ContainsChar(LastPiece(file, "/"), '/');
    LastPiece(file, "/")
  }

  /** The default name: the base name up to its first ".". */
  function DefaultName(file: string): (r: string)
    ensures '.' !in r && '/' !in r
    ensures |r| <= |BaseName(file)| && r == BaseName(file)[..|r|]
  {
    SplitFirstIsPrefix(BaseName(file), '.');
    SplitOn(BaseName(file), '.')[0]
  }

  /** The base name of `dir/rest` is rest, when rest has no "/". */
  lemma BaseNameAfterSlash(dir: string, rest: string)
    requires '/' !in rest
    ensures BaseName(dir + "/" + rest) == rest
  {
    assert "/" == ['/'];
    LastPieceAfterChar(dir, '/', rest);
  }

  /** `dir/name.js` has default name `name`. */
  lemma DefaultNameOfScript(dir: string, name: string)
    requires '/' !in name && '.' !in name
    ensures DefaultName(dir + "/" + name + ".js") == name
  {
    var script := name + ".js";
    assert '/' !in script;
    assert dir + "/" + name + ".js" == dir + "/" + script;
    BaseNameAfterSlash(dir, script);
    assert script == name + ['.'] + "js";
    FirstPieceBefore(name, '.', "js");
  }

  /** A path segment naming the command's own script file stands for the command itself. */
  function StripExtension(name: string, segment: string): string
  {
    if segment in [name + ".js", name + ".mjs", name + ".cjs"] then name else segment
  }

  /** A segment without a "." is never a script file name. */
  lemma StripKeepsDotless(name: string, segment: string)
    requires '.' !in segment
    ensures StripExtension(name, segment) == segment
  {
    assert (name + ".js")[|name|] == '.';
    assert (name + ".mjs")[|name|] == '.';
    assert (name + ".cjs")[|name|] == '.';
  }

  function StripExtensions(name: string, segments: seq<string>): (r: seq<string>)
    ensures |r| == |segments|
    ensures forall i :: 0 <= i < |r| ==> r[i] == StripExtension(name, segments[i])
  {
    seq(|segments|, i requires 0 <= i < |segments| => StripExtension(name, segments[i]))
  }

  /** The segments of a path below its last "commands/" directory. */
  function SegmentsBelowCommands(file: string): seq<string>
  {
    SplitOn(LastPiece(file, "commands/"), '/')
  }

  /** If the last two segments are equal, the last one is dropped, once. */
  function CollapseRepeatedLast(path: seq<string>): (r: seq<string>)
    ensures |path| >= 2 && path[|path| - 2] == path[|path| - 1] ==> r == path[..|path| - 1]
    ensures !(|path| >= 2 && path[|path| - 2] == path[|path| - 1]) ==> r == path
  {
    var lastElems := TakeLast(2, path);
    if |lastElems| == 2 && lastElems[0] == lastElems[1] then path[..|path| - 1] else path
  }

  lemma CollapseByTakeLast(path: seq<string>)
    ensures var lastElems := TakeLast(2, path);
      CollapseRepeatedLast(path) == if |lastElems| == 2 && lastElems[0] == lastElems[1] then path[..|path| - 1] else path
  {
  }

  /** The `commandPath` a command loaded from file gets. */
  function CommandPath(file: string, name: string, given: Option<seq<string>>): seq<string>
  {
    CollapseRepeatedLast(StripExtensions(name, OrElse(given, SegmentsBelowCommands(file))))
  }

  /** Below the only "commands/" directory of a path come the segments of the rest. */
  lemma SegmentsBelowOnlyCommands(prefix: string, rest: string)
    requires !Contains(prefix + "commands", "commands/")
    requires !Contains(rest, "commands/")
    ensures SegmentsBelowCommands(prefix + "commands/" + rest) == SplitOn(rest, '/')
  {
    assert "commands/"[..|"commands/"| - 1] == "commands";
    LastPieceAfter(prefix, "commands/", rest);
  }

  /** `dir/script` splits into its two segments. */
  lemma TwoSegments(dir: string, script: string)
    requires '/' !in dir && '/' !in script
    ensures SplitOn(dir + "/" + script, '/') == [dir, script]
  {
    assert dir + "/" + script == dir + ['/'] + script;
    SplitAround(dir, '/', script);
    SplitWithoutSeparator(dir, '/');
    SplitWithoutSeparator(script, '/');
  }

  /** `…/commands/dir/name.js` gives the nested path [dir, name]. */
  lemma NestedCommandPath(prefix: string, dir: string, name: string)
    requires !Contains(prefix + "commands", "commands/")
    requires !Contains(dir + "/" + name + ".js", "commands/")
    requires '/' !in dir && '/' !in name && '.' !in dir && dir != name
    ensures CommandPath(prefix + "commands/" + dir + "/" + name + ".js", name, None) == [dir, name]
  {
    var script := name + ".js";
    var rest := dir + "/" + script;
    assert prefix + "commands/" + dir + "/" + name + ".js" == prefix + "commands/" + rest;
    assert dir + "/" + name + ".js" == rest;
    SegmentsBelowOnlyCommands(prefix, rest);
    assert '/' !in script;
    TwoSegments(dir, script);
    StripKeepsDotless(name, dir);
    assert StripExtension(name, script) == name;
    assert StripExtensions(name, [dir, script]) == [dir, name];
  }

  /** `…/commands/name/name.js` collapses to [name]. */
  lemma SameNameCommandPath(prefix: string, name: string)
    requires !Contains(prefix + "commands", "commands/")
    requires !Contains(name + "/" + name + ".js", "commands/")
    requires '/' !in name && '.' !in name
    ensures CommandPath(prefix + "commands/" + name + "/" + name + ".js", name, None) == [name]
  {
    var script := name + ".js";
    var rest := name + "/" + script;
    assert prefix + "commands/" + name + "/" + name + ".js" == prefix + "commands/" + rest;
    assert name + "/" + name + ".js" == rest;
    SegmentsBelowOnlyCommands(prefix, rest);
    assert '/' !in script;
    TwoSegments(name, script);
    assert StripExtension(name, name) == name;
    assert StripExtension(name, script) == name;
  }

  /** Only the last repetition is dropped: [a, a, a] becomes [a, a]. */
  lemma CollapseOnce(a: string)
    ensures CollapseRepeatedLast([a, a, a]) == [a, a]
  {
  }

  /** The string entries of a list; other values are not modelled as aliases. */
  function StringsOf(items: seq<Value>): (r: seq<string>)
    ensures forall s :: s in r <==> Str(s) in items
    decreases |items|
  {
    if |items| == 0 then []
    else (if items[0].Str? then [items[0].s] else []) + StringsOf(items[1..])
  }

  /**
   * `reject(isNil, is(Array, alias) ? alias : [alias])`. `is(Array, null)`
   * reads `null.constructor` and throws a TypeError; undefined is rejected
   * as nil, and a single string is wrapped in a list.
   */
  function NormaliseAlias(alias: Value): (r: Result<seq<string>>)
    ensures r.Err? <==> alias.Null?
    ensures alias.Undefined? ==> r == Ok([])
    ensures alias.Str? ==> r == Ok([alias.s])
    ensures alias.Arr? ==> r.Ok? && forall s :: s in r.value <==> Str(s) in alias.items
  {
    match alias
    case Null => Err(TypeError("Cannot read properties of null (reading 'constructor')"))
    case Arr(items) => Ok(StringsOf(Reject(IsNil, items)))
    case Undefined => Ok([])
    case Str(s) => Ok([s])
    case _ => Ok([])
  }

  /** The value the chosen module loader produces for file. */
  function LoadWith(host: Host, file: string, loadingType: Option<string>): Result<Value>
  {
    if loadingType == Some("require") then LoadRequire(host, file) else LoadModule.LoadModule(host, file)
  }

  /** The name a valid command module gives: its truthy `name`, else the last `commandPath` segment. */
  function ModuleCommandName(m: Value, path: seq<string>): string
  {
    if Truthy(Get(m, "name")) then Display(Get(m, "name")) else OrElse(Last(path), "")
  }

  /** The outcome of loading file as a command: the error it throws, or the command it builds. */
  function CommandFromFile(host: Host, file: string, options: LoadOptions): (r: Result<Command>)
    ensures BlankPath(file) ==> r == Err(Error("Error: couldn't load command (file is blank): " + file))
    ensures !BlankPath(file) && !IsFile(host, file) ==>
                r == Err(Error("Error: couldn't load command (this isn't a file): " + file))
    ensures !BlankPath(file) && IsFile(host, file) && LoadWith(host, file, options.loadingType).Err? ==>
                r == Err(LoadWith(host, file, options.loadingType).error)
    ensures !BlankPath(file) && IsFile(host, file) && LoadWith(host, file, options.loadingType).Ok?
              && !IsExecutableModule(LoadWith(host, file, options.loadingType).value) ==>
                r == Err(Error("Error: Couldn't load command " + DefaultName(file)
                                 + " -- needs a \"run\" property with a function."))
    ensures r.Ok? ==>
              var m := LoadWith(host, file, options.loadingType).value;
              var path := CommandPath(file, DefaultName(file), options.commandPath);
              && !BlankPath(file) && IsFile(host, file) && IsExecutableModule(m)
              && r.value.file == Some(file)
              && r.value.commandPath == Some(path)
              && r.value.name == ModuleCommandName(m, path)
              && r.value.description == StrOrNone(Get(m, "description"))
              && r.value.hidden == Truthy(Get(m, "hidden"))
              && NormaliseAlias(Get(m, "alias")).Ok?
              && r.value.alias == AliasList(NormaliseAlias(Get(m, "alias")).value)
              && r.value.execute == Get(m, "execute") && r.value.execute.Func?
              && r.value.args == []
  {
    if BlankPath(file) then Err(Error("Error: couldn't load command (file is blank): " + file))
    else if !IsFile(host, file) then Err(Error("Error: couldn't load command (this isn't a file): " + file))
    else
      var path := CommandPath(file, DefaultName(file), options.commandPath);
      match LoadWith(host, file, options.loadingType)
      case Err(e) => Err(e)
      case Ok(m) =>
        if !IsExecutableModule(m) then
          Err(Error("Error: Couldn't load command " + DefaultName(file) + " -- needs a \"run\" property with a function."))
        else
          match NormaliseAlias(Get(m, "alias"))
          case Err(e) => Err(e)
          case Ok(alias) =>
            Ok(Command(ModuleCommandName(m, path), StrOrNone(Get(m, "description")), Some(file), Get(m, "execute"),
                       Truthy(Get(m, "hidden")), Some(path), AliasList(alias), []))
  }

  /**
   * `loadCommandFromFile(file, options)`: checks the path, builds the command
   * field by field, loads the module and accepts it only if it is an object
   * with a function `execute`.
   */
  method LoadCommandFromFile(host: Host, file: string, options: LoadOptions) returns (r: Result<Command>)
    ensures r == CommandFromFile(host, file, options)
  {
    if BlankPath(file) {
      return Err(Error("Error: couldn't load command (file is blank): " + file));
    }
    if !IsFile(host, file) {
      return Err(Error("Error: couldn't load command (this isn't a file): " + file));
    }
    var command := NewCommand(None);
    command := command.(file := Some(file));
    command := command.(name := DefaultName(file));
    var path := StripExtensions(command.name, OrElse(options.commandPath, SegmentsBelowCommands(file)));
    command := command.(commandPath := Some(path));
    var lastElems := TakeLast(2, path);
    if |lastElems| == 2 && lastElems[0] == lastElems[1] {
      command := command.(commandPath := Some(path[..|path| - 1]));
    }
    CollapseByTakeLast(path);
    assert command.name == DefaultName(file) && command.file == Some(file) && command.args == [];
    var loaded := LoadWith(host, file, options.loadingType);
    if loaded.Err? {
      return Err(loaded.error);
    }
    var commandModule := loaded.value;
    if IsExecutableModule(commandModule) {
      command := command.(name := ModuleCommandName(commandModule, command.commandPath.value));
      command := command.(description := StrOrNone(Get(commandModule, "description")));
      command := command.(hidden := Truthy(Get(commandModule, "hidden")));
      var alias := NormaliseAlias(Get(commandModule, "alias"));
      if alias.Err? {
        return Err(alias.error);
      }
      command := command.(alias := AliasList(alias.value));
      command := command.(execute := Get(commandModule, "execute"));
      assert command == CommandFromFile(host, file, options).value;
    } else {
      return Err(Error("Error: Couldn't load command " + command.name + " -- needs a \"run\" property with a function."));
    }
    return Ok(command);
  }

  /** The outcome of loading file as an extension. */
  function ExtensionFromFile(host: Host, file: string, options: LoadOptions): (r: Result<Extension>)
    ensures BlankPath(file) ==> r == Err(Error("Error: couldn't load extension (file is blank): " + file))
    ensures !BlankPath(file) && !IsFile(host, file) ==>
                r == Err(Error("Error: couldn't load command (not a file): " + file))
    ensures !BlankPath(file) && IsFile(host, file) && LoadWith(host, file, options.loadingType).Err? ==>
                r == Err(LoadWith(host, file, options.loadingType).error)
    ensures !BlankPath(file) && IsFile(host, file) && LoadWith(host, file, options.loadingType).Ok?
              && !IsExecutableModule(LoadWith(host, file, options.loadingType).value) ==>
                r == Err(Error("Error: couldn't load " + DefaultName(file)
                                 + ". Expected a object with \"name\" as string and \"execute\" as function, got "
                                 + Display(LoadWith(host, file, options.loadingType).value) + "."))
    ensures r.Ok? ==>
              var m := LoadWith(host, file, options.loadingType).value;
              && !BlankPath(file) && IsFile(host, file) && IsExecutableModule(m)
              && r.value.name == Display(Get(m, "name"))
              && r.value.execute == Get(m, "execute") && r.value.execute.Func?
              && r.value.file == Some(file)
              && r.value.description == (if Truthy(Get(m, "description")) then StrOrNone(Get(m, "description")) else None)
  {
    if BlankPath(file) then Err(Error("Error: couldn't load extension (file is blank): " + file))
    else if !IsFile(host, file) then Err(Error("Error: couldn't load command (not a file): " + file))
    else
      match LoadWith(host, file, options.loadingType)
      case Err(e) => Err(e)
      case Ok(m) =>
        if !IsExecutableModule(m) then
          Err(Error("Error: couldn't load " + DefaultName(file)
                    + ". Expected a object with \"name\" as string and \"execute\" as function, got "
                    + Display(m) + "."))
        else
          var description := Get(m, "description");
          Ok(Extension(Display(Get(m, "name")), Get(m, "execute"),
                       if Truthy(description) then StrOrNone(description) else None, Some(file)))
  }

  /**
   * `loadExtensionFromFile(file, options)`. The module's `name` is not
   * checked, whatever the error text says; the extension's setup calls the
   * module's `execute` with the same toolbox, so it stands for it here.
   */
  method LoadExtensionFromFile(host: Host, file: string, options: LoadOptions) returns (r: Result<Extension>)
    ensures r == ExtensionFromFile(host, file, options)
  {
    if BlankPath(file) {
      return Err(Error("Error: couldn't load extension (file is blank): " + file));
    }
    if !IsFile(host, file) {
      return Err(Error("Error: couldn't load command (not a file): " + file));
    }
    var name := DefaultName(file);
    var loaded := LoadWith(host, file, options.loadingType);
    if loaded.Err? {
      return Err(loaded.error);
    }
    var extensionModule := loaded.value;
    if IsExecutableModule(extensionModule) {
      var extension := Extension(Display(Get(extensionModule, "name")), Get(extensionModule, "execute"), None, None);
      extension := extension.(file := Some(file));
      var description := Get(extensionModule, "description");
      extension := extension.(description := if Truthy(description) then StrOrNone(description) else None);
      return Ok(extension);
    }
    return Err(Error("Error: couldn't load " + name
                     + ". Expected a object with \"name\" as string and \"execute\" as function, got "
                     + Display(extensionModule) + "."));
  }

  /** Which of the two loaders a registered loader is. */
  datatype LoaderKind = CommandLoaderKind | ExtensionLoaderKind

  /** A constructed loader: its registry name, its folder and its merged options. */
  datatype Loader = Loader(
    kind: LoaderKind,
    name: string,
    folder: string,
    commandFilePattern: seq<string>,
    hidden: bool,
    loadingType: Option<string>)

  /** The options a loader is constructed with; a None field is not passed. */
  datatype LoaderOptions = LoaderOptions(commandFilePattern: Option<seq<string>>, hidden: Option<bool>, loadingType: Option<string>)

  function DefaultFilePattern(): seq<string>
  {
    ["*.{js,mjs,cjs}", "!*.test.{js,mjs,cjs}"]
  }

  function LoaderName(kind: LoaderKind): string
  {
    if kind == CommandLoaderKind then "command-loader" else "extension-loader"
  }

  /**
   * `new CommandLoader(folder, options)` and `new ExtensionLoader(folder,
   * options)`: the default pattern and hidden false, overridden by the
   * options, and an error unless the folder is a directory.
   */
  function NewLoader(host: Host, kind: LoaderKind, folder: string, options: Option<LoaderOptions>): (r: Result<Loader>)
    ensures r.Ok? <==> host.pathKind(folder) == Some(DirKind)
    ensures r.Err? && kind == CommandLoaderKind ==>
                r.error == Error("Error: couldn't load command folder (not a directory): " + folder)
    ensures r.Err? && kind == ExtensionLoaderKind ==>
                r.error == Error("Error: couldn't load extension folder (not a directory): " + folder)
    ensures r.Ok? ==> r.value.kind == kind && r.value.folder == folder && r.value.name == LoaderName(kind)
    ensures r.Ok? && options.None? ==>
                r.value.commandFilePattern == DefaultFilePattern() && !r.value.hidden && r.value.loadingType.None?
    ensures r.Ok? && options.Some? && options.value.hidden.Some? ==> r.value.hidden == options.value.hidden.value
    ensures r.Ok? && options.Some? && options.value.hidden.None? ==> !r.value.hidden
    ensures r.Ok? && options.Some? && options.value.commandFilePattern.Some? ==>
                r.value.commandFilePattern == options.value.commandFilePattern.value
    ensures r.Ok? && options.Some? && options.value.commandFilePattern.None? ==>
                r.value.commandFilePattern == DefaultFilePattern()
    ensures r.Ok? && options.Some? ==> r.value.loadingType == options.value.loadingType
  {
    var opts := OrElse(options, LoaderOptions(None, None, None));
    if host.pathKind(folder) != Some(DirKind) then
      if kind == CommandLoaderKind then Err(Error("Error: couldn't load command folder (not a directory): " + folder))
      else Err(Error("Error: couldn't load extension folder (not a directory): " + folder))
    else
      Ok(Loader(kind, LoaderName(kind), folder, OrElse(opts.commandFilePattern, DefaultFilePattern()),
                OrElse(opts.hidden, false), opts.loadingType))
  }

  /** `pathlib.join(folder, file)` for a relative file found under folder. */
  function JoinPath(folder: string, file: string): string
  {
    folder + "/" + file
  }
}
