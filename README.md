# cerebro command runtime, in Dafny

This project models the command runtime of `@anolilab/cerebro-core`, a
framework for writing command-line programs, together with the string and
file logic of three companion pieces: the shell-completion installer, the
patching extension and the package-manager extension.

The runtime is the `Cli` class (module `Runtime`, class `Runtime.Cli`). It
keeps three pieces of state:

- a registry from command names and aliases to command records, whose keys
  are kept in insertion order;
- the ordered list of extensions;
- the loaders, keyed by name in insertion order.

Its `run` does four things in order:

1. runs the loaders, which scan folders for command and extension files;
2. resolves the argv token to a command, falling back to the default
   command;
3. merges the command's option definitions with the global table, then runs
   the extensions in registration order on a fresh toolbox;
4. dispatches to the resolved command, or to `help` or `version` when
   those flags are set.

The pure helpers it relies on each get a module:

| module | source file |
|---|---|
| `Utils` | `toolbox/utils.ts` |
| `Levenshtein` | `domain/levenstein.ts` (the "did you mean" filter over a Levenshtein distance written out here) |
| `Domain` | `domain/command.ts` |
| `ParameterTools` | `toolbox/parameter-tools.ts` |
| `DefaultArguments` | `default-arguments.ts` |
| `LoadModule` | `loaders/utils/load-module.ts` and `load-require.ts` |
| `Loaders` | the command and extension loaders |
| `Help` | `utils/print-help.ts` |
| `PrintTools` | `toolbox/print-tools.ts` |
| `Logger` | `toolbox/logger-tools.ts` |
| `Installer` | `autocompletion/installer.ts` |
| `Completion` | `autocompletion/index.ts` |
| `Patching` | `toolbox/patching-tools.ts` of the patching extension |
| `PackageManager` | `toolbox/package-manager-tools.ts` of the package-manager extension |

Two modules serve the rest:

- `Js` holds the JavaScript values the code inspects: truthiness, property
  reads and thrown errors.
- `Strings` holds the string operations: `indexOf`, first-occurrence
  `replace`, `split`, `join` and `trim`.

Each of these has its own lemmas.

Some things become parameters or oracles rather than being modelled:

- the file system;
- dynamic `import` and `require`;
- the argument parsers `command-line-commands` and `command-line-args`;
- `untildify`'s home directory;
- `which` and `system.run`;
- the environment variables.

Where the source mutates state, the model is a class with `modifies`
clauses:

| class | state it holds |
|---|---|
| `Runtime.Cli` | the runtime's registry, extensions and loaders |
| `PrintTools.TableData` | the caller's table rows, which `table` shifts |
| `Logger.Config` | the logger's config object, which `validateConfig` mutates |
| `Installer.Disk` | a path-to-text map |
| `Patching.FileSystem` | a path-to-text map, with the `JSON.parse` that .json reads use |
| `PackageManager.Tools` | the memoised yarn lookup and the commands run |

Each method is tied by its `ensures` to a specification function, and the
properties are proved about those functions. Loops in the source are
`while` loops here, with their invariants. Examples are `times`,
`asyncForEach`, `mergeArguments`, the loaders' file loops, the extension
loop of `run` and the line-blanking pass of `removeLinesFromFilename`.

A JavaScript value that can be "missing" is an `Option`. An operation that
can throw returns a `Result`, whose error carries the constructor name and
the message the source throws.

## Model

| member | source | states |
|---|---|---|
| Utils.Head | packages/cerebro-core/src/toolbox/utils.ts:1 | `head` is defined exactly on non-empty arrays |
| Utils.Tail | packages/cerebro-core/src/toolbox/utils.ts:2 | `tail` is one shorter than a non-empty array and empty for an empty one |
| Utils.Last | packages/cerebro-core/src/toolbox/utils.ts:10 | `last` is defined exactly on non-empty arrays |
| Utils.HeadTail | packages/cerebro-core/src/toolbox/utils.ts:1-2 | head and tail of a non-empty array reassemble it |
| Utils.LastAppend | packages/cerebro-core/src/toolbox/utils.ts:10 | the last element after appending x is x, and the head is unchanged |
| Utils.TakeLast | packages/cerebro-core/src/toolbox/utils.ts:13 | the result is a suffix; it has min(n, length) elements for n ≥ 1; n = 0 gives the whole array, because slice(-0) is slice(0) |
| Utils.Reject | packages/cerebro-core/src/toolbox/utils.ts:11 | keeps exactly the elements for which f is false, and never grows |
| Utils.RejectAppend | packages/cerebro-core/src/toolbox/utils.ts:11 | rejection distributes over concatenation, so order is kept |
| Utils.EqualsIsEquality | packages/cerebro-core/src/toolbox/utils.ts:14 | `equals` holds iff the arrays are equal (same length, element-wise equal) |
| Utils.Times | packages/cerebro-core/src/toolbox/utils.ts:15-23 | the loop yields [f(0), …, f(n-1)]; a negative n gives the empty array, a length above 2^32-1 throws a RangeError |
| Utils.IsString | packages/cerebro-core/src/toolbox/utils.ts:12 | `is(String, v)` throws exactly for null; otherwise it holds iff v is a string |
| Utils.IsBlank | packages/cerebro-core/src/toolbox/utils.ts:25 | `isBlank` throws exactly for null |
| Utils.IsBlankMeaning | packages/cerebro-core/src/toolbox/utils.ts:25 | a non-null value is blank iff it is not a string or it has no non-whitespace character |
| Utils.HideBin | packages/cerebro-core/src/toolbox/utils.ts:39-58 | the result is the suffix after the binary: 1 entry dropped for a bundled Electron app, 2 otherwise |
| Utils.HideBinDropsPrefix | packages/cerebro-core/src/toolbox/utils.ts:56-58 | whatever the runtime and script entries are, the user's arguments come back |
| Utils.AsyncForEach | packages/cerebro-core/src/toolbox/utils.ts:64-68 | the loop awaits the callback on element, index and array for indices 0, 1, … in order; the first rejection ends the loop and is the outcome |
| Utils.RejectionIsFinal | packages/cerebro-core/src/toolbox/utils.ts:64-68 | once a callback has rejected, later elements do not change the outcome |
| Utils.ForEachPrefix | packages/cerebro-core/src/toolbox/utils.ts:64-68 | the outcome after a prefix does not depend on later elements when the callback does not look at the array |
| Levenshtein.LevSelf | packages/cerebro-core/src/domain/levenstein.ts:3 | the distance of a string to itself is 0 |
| Levenshtein.FindAlternatives | packages/cerebro-core/src/domain/levenstein.ts:5-9 | the result holds exactly the candidates that pass `isSimilar` |
| Levenshtein.FindAlternativesAppend | packages/cerebro-core/src/domain/levenstein.ts:5-9 | the filter distributes over concatenation, so input order and duplicates are kept |
| Levenshtein.FindAlternativesSingle | packages/cerebro-core/src/domain/levenstein.ts:3-9 | a single candidate is kept iff 3·lev(lower c, lower q) ≤ \|c\| or lower q contains lower c |
| Levenshtein.ExactMatchPasses | packages/cerebro-core/src/domain/levenstein.ts:3 | a candidate equal to the query up to case always passes |
| Levenshtein.EmptyCandidatePasses | packages/cerebro-core/src/domain/levenstein.ts:3 | the empty candidate always passes |
| Levenshtein.FindAlternativesCaseInsensitive | packages/cerebro-core/src/domain/levenstein.ts:6-8 | queries that agree up to case give the same alternatives |
| Levenshtein.FindAlternativesIdempotent | packages/cerebro-core/src/domain/levenstein.ts:5-9 | filtering the output again with the same query changes nothing |
| Domain.NewCommand | packages/cerebro-core/src/domain/command.ts:25-33 | `new Command()` has hidden false, alias [], args [] and name "" (undefined in the source), no file, description, command path or execute; with properties, each passed one (name, description, file, execute, hidden, command path, alias, args) is copied over and each one not passed keeps that default |
| Domain.Aliases | packages/cerebro-core/src/domain/command.ts:40-46 | `aliases` is [] for a falsy alias, the list itself, or the single string wrapped |
| Domain.HasAliasMeaning | packages/cerebro-core/src/domain/command.ts:53-55 | `hasAlias` holds iff the alias is a non-empty string or a non-empty list |
| Domain.SomeMatches | packages/cerebro-core/src/domain/command.ts:64-68 | the `some` loop holds iff some element is the name or one of the aliases |
| Domain.MatchesAlias | packages/cerebro-core/src/domain/command.ts:64-68 | `matchesAlias(x)`, for a string or a list, holds iff some given name is the command's name or in `aliases` |
| Domain.MatchesAliasEdges | packages/cerebro-core/src/domain/command.ts:64-68 | an empty list matches nothing, and the command's own name always matches |
| Domain.MatchesAliasExample | packages/cerebro-core/__tests__/domain/command.test.ts:14-22 | "yogurt" with aliases ["yo", "y"] matches its aliases and not unrelated names |
| ParameterTools.Names | packages/cerebro-core/src/toolbox/parameter-tools.ts:16-26 | the names of the definitions, one per definition, in order |
| ParameterTools.Dedup | packages/cerebro-core/src/toolbox/parameter-tools.ts:16-26 | each name once, in order of first appearance |
| ParameterTools.MergeArguments | packages/cerebro-core/src/toolbox/parameter-tools.ts:16-26 | the nested loops leave the insertion-ordered map of the merge specification, and the result is its values |
| ParameterTools.MergedNames | packages/cerebro-core/src/toolbox/parameter-tools.ts:16-26 | one definition per distinct name, ordered by the first appearance of that name across the lists |
| ParameterTools.MergedFields | packages/cerebro-core/src/toolbox/parameter-tools.ts:21 | each merged definition is the field-wise union of all occurrences of its name, later fields winning |
| ParameterTools.GlobalFieldsWin | packages/cerebro-core/src/cli.ts:285 | merging [command args, globals] lets the global fields win over the command's fields of the same name |
| ParameterTools.MergeDistinct | packages/cerebro-core/src/toolbox/parameter-tools.ts:16-26 | a list with pairwise distinct names, after an empty list, merges to itself in order |
| ParameterTools.ParseRawCommand | packages/cerebro-core/src/toolbox/parameter-tools.ts:34-46 | a string is split on single spaces; an array equal to process.argv goes through hideBin; any other array is returned as it is |
| ParameterTools.ParseRawCommandWords | packages/cerebro-core/src/toolbox/parameter-tools.ts:36-38 | splitting a single-space join of space-free words gives the words back |
| ParameterTools.ParseRawCommandEmptyTokens | packages/cerebro-core/src/toolbox/parameter-tools.ts:36-38 | consecutive spaces give an empty token, and "" gives [""] |
| ParameterTools.ParseRawCommandProcessArgv | packages/cerebro-core/src/toolbox/parameter-tools.ts:41-45 | process.argv itself loses its runtime and script entries |
| DefaultArguments.DefaultArgumentsOrder | packages/cerebro-core/src/default-arguments.ts:3-43 | six definitions: verbose, very-verbose, debug, help, quiet, version, in that order |
| DefaultArguments.DefaultArgumentsAreGlobalBooleans | packages/cerebro-core/src/default-arguments.ts:3-43 | every definition is a Boolean flag of group "global" |
| DefaultArguments.DefaultArgumentsAliases | packages/cerebro-core/src/default-arguments.ts:26-40 | only help (h), quiet (q) and version (V) carry an alias, and none is "v" |
| DefaultArguments.DefaultArgumentsMergeUnchanged | packages/cerebro-core/src/default-arguments.ts:3-43 | the names are distinct, so merging the table after no command options returns it unchanged |
| LoadModule.Guard | packages/cerebro-core/src/loaders/utils/load-module.ts:11-17 | a blank path gives "path is required", then a non-file gives "<path> is not a file", in that order; none when both pass |
| LoadModule.Classify | packages/cerebro-core/src/loaders/utils/load-module.ts:23-30 | MODULE_NOT_FOUND and ERR_MODULE_NOT_FOUND read as undefined; every other error is rethrown unchanged |
| LoadModule.LoadModule | packages/cerebro-core/src/loaders/utils/load-module.ts:5-31 | the guards come first; a failed import is classified; an imported value without a truthy `default` is returned as it is, a CommonJS value gives its truthy default, an ES module its default or that default's own truthy `default`, and null or undefined throws a TypeError |
| LoadModule.LoadRequire | packages/cerebro-core/src/loaders/utils/load-require.ts:5-25 | the same guards and classification, with the required value returned as it is |
| LoadModule.GuardsComeFirst | packages/cerebro-core/src/loaders/utils/load-require.ts:6-16 | a blank or non-file path fails with the guard's error before any import or require is attempted |
| LoadModule.LoadModuleUnwraps | packages/cerebro-core/src/loaders/utils/load-module.ts:5-23 | an ES module, or a CommonJS value, whose default export has no truthy `default` of its own gives that default export |
| LoadModule.LoadModuleDoubleUnwrap | packages/cerebro-core/src/loaders/utils/load-module.ts:5-23 | an ES module whose default export has a truthy `default` gives that inner value: `esmResolver` and `module.default \|\| module` each unwrap once |
| LoadModule.LoadersAgreeOnPlainModules | packages/cerebro-core/src/loaders/utils/load-module.ts:20-22 | a plain module is returned unchanged by both loaders |
| LoadModule.UndefinedModuleThrows | packages/cerebro-core/src/loaders/utils/load-module.ts:20-22 | an import yielding undefined makes `loadModule` throw, where `loadRequire` returns undefined |
| Loaders.BaseName | packages/cerebro-core/src/loaders/command-loader.ts:43 | the base name is the last path segment and holds no "/" |
| Loaders.DefaultName | packages/cerebro-core/src/loaders/command-loader.ts:43 | the default name is the base name up to its first "." |
| Loaders.DefaultNameOfScript | packages/cerebro-core/src/loaders/command-loader.ts:43 | dir/name.js has default name name |
| Loaders.StripKeepsDotless | packages/cerebro-core/src/loaders/command-loader.ts:46-48 | a segment without a "." is kept by the extension-stripping map |
| Loaders.CollapseRepeatedLast | packages/cerebro-core/src/loaders/command-loader.ts:51-55 | two equal last segments lose the last one, once |
| Loaders.NestedCommandPath | packages/cerebro-core/src/loaders/command-loader.ts:46-55 | …/commands/dir/name.js gives the commandPath [dir, name] |
| Loaders.SameNameCommandPath | packages/cerebro-core/src/loaders/command-loader.ts:46-55 | …/commands/name/name.js collapses to [name] |
| Loaders.CollapseOnce | packages/cerebro-core/src/loaders/command-loader.ts:51-55 | [a, a, a] becomes [a, a]: only one repetition is dropped |
| Loaders.NormaliseAlias | packages/cerebro-core/src/loaders/command-loader.ts:68 | a list keeps its non-nil entries; a single value is wrapped; undefined gives []; null throws in `is` |
| Loaders.CommandFromFile | packages/cerebro-core/src/loaders/command-loader.ts:26-75 | blank path, non-file, failed load and invalid module each give their error; success means an object with a function execute, with file, commandPath, name (module name or last segment), description, Boolean(hidden) and the normalised alias |
| Loaders.LoadCommandFromFile | packages/cerebro-core/src/loaders/command-loader.ts:26-75 | the field-by-field construction gives the outcome `CommandFromFile` specifies |
| Loaders.ExtensionFromFile | packages/cerebro-core/src/loaders/extension-loader.ts:25-59 | blank path, non-file (with the "couldn't load command" text), failed load and invalid module each give their error; success carries the module's name, its execute, the file and a truthy description or none |
| Loaders.LoadExtensionFromFile | packages/cerebro-core/src/loaders/extension-loader.ts:25-59 | the construction gives the outcome `ExtensionFromFile` specifies |
| Loaders.NewLoader | packages/cerebro-core/src/loaders/command-loader.ts:77-97 | the constructor succeeds iff the folder is a directory, with the folder error otherwise; the loader is named "command-loader" ("extension-loader" at extension-loader.ts:62); each of pattern and hidden is the option when passed and the default pattern or false when not, and the loading type is the option's (the same for extension-loader.ts:68-81) |
| Runtime.AliasesToRegister | packages/cerebro-core/src/cli.ts:159-165 | a string alias is a one-element list, a list is itself, none is []; a null alias throws |
| Runtime.InsertAllEffect | packages/cerebro-core/src/cli.ts:166-176 | the alias loop keeps the registry valid, appends exactly the fresh aliases in order, maps them to the command and overwrites no key |
| Runtime.AddCommandExisting | packages/cerebro-core/src/cli.ts:156-158 | a name already in the registry changes nothing and logs one warning |
| Runtime.AddCommandNew | packages/cerebro-core/src/cli.ts:159-176 | a new name is appended first, then each alias that is not yet a key, all mapped to the command; no existing entry changes |
| Runtime.AddCommandNoOverwrite | packages/cerebro-core/src/cli.ts:156-183 | whatever the alias, `addCommand` never overwrites a key and keeps the registry valid |
| Runtime.AddCommandRepeatedAlias | packages/cerebro-core/src/cli.ts:166-176 | an alias repeated in the list, or equal to the name, is skipped with a warning |
| Runtime.InitialRegistry | packages/cerebro-core/src/cli.ts:131-132 | after construction the keys are version, v, V, help, in that order, with no warning |
| Runtime.OutputLevelCases | packages/cerebro-core/src/cli.ts:84-96 | the level is NORMAL by default and QUIET for --quiet/-q; any verbose flag beats quiet, with --verbose over --very-verbose over --debug |
| Runtime.ExtensionsNext | packages/cerebro-core/src/cli.ts:291-308 | after the extensions before it succeeded, one more extension either runs its setup (which may throw) or adds one skip warning |
| Runtime.ExtensionsStop | packages/cerebro-core/src/cli.ts:297-308 | once a setup throws, the later extensions neither run nor warn, and the throw is the loop's outcome |
| Runtime.ExtensionWarningsWhenAllRun | packages/cerebro-core/src/cli.ts:297-308 | when no setup throws, the loop logs exactly one skip warning per extension without a function |
| Runtime.SkipWarnings | packages/cerebro-core/src/cli.ts:299-305 | one warning per extension whose execute is not a function, and none when all are functions |
| Runtime.ApplyExtensionsAppend | packages/cerebro-core/src/cli.ts:291-308 | extensions run in registration order: running a + b is running b after a, unless a setup in a throws |
| Runtime.ApplyExtensionsSkips | packages/cerebro-core/src/cli.ts:299-305 | an extension without a function execute leaves the toolbox unchanged |
| Runtime.ParseCliArgs | packages/cerebro-core/src/cli.ts:420-435 | throws iff `_all` is nil; otherwise keeps every parsed field and copies extra-dependencies to extraDependencies and fragment to fragments when truthy |
| Runtime.DispatchTarget | packages/cerebro-core/src/cli.ts:340-362 | help wins, then version or V, then the resolved command |
| Runtime.RunInvalidCommand | packages/cerebro-core/src/cli.ts:248-269 | an unknown token logs one error with `findAlternatives(token, all keys)` and returns undefined; any other parse error is rethrown with nothing logged |
| Runtime.RunDefaultCommand | packages/cerebro-core/src/cli.ts:271-334 | without a token the default command runs: a throwing setup rejects `run` before the command executes; otherwise the toolbox names the command, holds the parsed options, the raw argv and process.argv, and the execute outcome decides the result; the log is the skip warnings logged before the loop ended |
| Runtime.SetupThrowNoToolbox | packages/cerebro-core/src/cli.ts:297-334 | when a setup throws, `run` never returns a toolbox |
| Runtime.RunUnregisteredCommand | packages/cerebro-core/src/cli.ts:271-279 | a resolved name that is not registered makes `run` throw a TypeError |
| Runtime.HelpOptionRunsHelp | packages/cerebro-core/src/cli.ts:340-350 | a truthy help option runs the help command, or throws "Help command not found." when there is none |
| Runtime.LoadCommands | packages/cerebro-core/src/loaders/command-loader.ts:99-112 | a failed state is kept, and loading commands never touches the extensions |
| Runtime.LoadExtensions | packages/cerebro-core/src/loaders/extension-loader.ts:83-91 | a failed state is kept, and loading extensions never touches the registry or log |
| Runtime.LoadCommandsStops | packages/cerebro-core/src/loaders/command-loader.ts:105-109 | after the first failing file, later files are never loaded |
| Runtime.LoadExtensionsStops | packages/cerebro-core/src/loaders/extension-loader.ts:86-90 | after the first failing file, later files are never loaded |
| Runtime.LoadExtensionsInOrder | packages/cerebro-core/src/loaders/extension-loader.ts:83-91 | with every file loadable, the extensions are appended in find order |
| Runtime.LoaderOptionsNotApplied | packages/cerebro-core/src/loaders/command-loader.ts:106 | loaders that differ only in hidden and loadingType load the same, since files get no options |
| Runtime.RunLoaders | packages/cerebro-core/src/cli.ts:240-242 | a failed state is kept |
| Runtime.RunLoadersStops | packages/cerebro-core/src/cli.ts:240-242 | after the first loader that throws, later loaders do not run |
| Runtime.LoadRunKeepsRegistryValid | packages/cerebro-core/src/loaders/command-loader.ts:99-112 | a loader's run keeps the registry valid |
| Runtime.Cli.constructor | packages/cerebro-core/src/cli.ts:69-134 | output level from argv, default command "help", extensions [meta, print, prompt, system, logger], registry version, v, V, help, and no loaders |
| Runtime.Cli.SetDefaultCommand | packages/cerebro-core/src/cli.ts:143-147 | only the default command changes |
| Runtime.Cli.AddExtension | packages/cerebro-core/src/cli.ts:208-212 | the extension is appended, whatever it is; nothing else changes |
| Runtime.Cli.AddLoader | packages/cerebro-core/src/cli.ts:192-196 | `loaders.set` by name: a new name is appended, an existing one replaced in place |
| Runtime.AddTwoCommandLoaders | packages/cerebro-core/src/cli.ts:192-196 | two command loaders share the name "command-loader" (command-loader.ts:78), so after adding both only the second is registered, with at most one new key; a constructor that throws ends the sequence |
| Runtime.Cli.AddCommand | packages/cerebro-core/src/cli.ts:156-183 | the registry and log become those of `AddCommandSpec` |
| Runtime.Cli.RegisterAliases | packages/cerebro-core/src/cli.ts:166-176 | the alias loop gives `InsertAll`, plus one warning per skipped alias |
| Runtime.Cli.RunCommandLoader | packages/cerebro-core/src/loaders/command-loader.ts:99-112 | the file loop gives the state `RunLoader` specifies |
| Runtime.Cli.RunExtensionLoader | packages/cerebro-core/src/loaders/extension-loader.ts:83-91 | the file loop gives the state `RunLoader` specifies |
| Runtime.Cli.RunAllLoaders | packages/cerebro-core/src/cli.ts:240-242 | the loaders run in insertion order, stopping at the first that throws |
| Runtime.Cli.RunExtensions | packages/cerebro-core/src/cli.ts:291-308 | the loop gives the in-order fold over the extensions, stopping at the first setup that throws, and logs the skip warnings reached before it |
| Runtime.Cli.Dispatch | packages/cerebro-core/src/cli.ts:248-334 | resolution, parsing, extensions and dispatch give what `RunAfterLoaders` specifies, including the rejection of a throwing setup before dispatch |
| Runtime.Cli.Run | packages/cerebro-core/src/cli.ts:239-334 | the loaders run first, a loader error is returned as is, and otherwise the dispatch runs on the state they leave |
| Help.DistinctCommands | packages/cerebro-core/src/utils/print-help.ts:22-23 | each registered command once, in the order of its first key |
| Help.DistinctCommandsOrdered | packages/cerebro-core/src/utils/print-help.ts:22-23 | an earlier listed command has an earlier first key |
| Help.AliasSuffix | packages/cerebro-core/src/utils/print-help.ts:25-37 | " [a]" for a string alias, " [a, b]" for a list joined with ", ", nothing when empty |
| Help.AliasSuffixExamples | packages/cerebro-core/src/utils/print-help.ts:25-37 | the suffixes of a string alias and of a two-element list |
| Help.Listed | packages/cerebro-core/src/utils/print-help.ts:22-23 | a command is listed iff it is one of the distinct commands and is not hidden while hiding is on |
| Help.ListingHidesHidden | packages/cerebro-core/src/toolbox/print-tools.ts:141-178 | print-help.ts lists each distinct command once and no hidden one; print-tools.ts lists hidden ones too |
| Help.PrintHelp | packages/cerebro-core/src/utils/print-help.ts:49-98 | no name gives the general help; an unknown name gives one error line with the alternatives; otherwise the sections are [Command, Alias, Global] or [Global, Alias], Alias only for a non-empty alias |
| PrintTools.VerbosityOrder | packages/cerebro-core/src/toolbox/print-tools.ts:281-301 | quiet 16 < normal 32 < verbose 64 < very verbose 128 < debug 256, each twice the previous |
| PrintTools.WidthStep | packages/cerebro-core/src/toolbox/print-tools.ts:84-89 | one step gives one width per cell, at least the cell's length plus one |
| PrintTools.FoldWidthsRectangular | packages/cerebro-core/src/toolbox/print-tools.ts:84-89 | on rows of equal length, width i is one more than the longest cell of column i |
| PrintTools.FoldWidthsPositive | packages/cerebro-core/src/toolbox/print-tools.ts:84-89 | every width is at least 1 |
| PrintTools.Dashes | packages/cerebro-core/src/toolbox/print-tools.ts:97-99 | w empty strings joined by "-" give w − 1 dashes |
| PrintTools.ColumnHeaderDivider | packages/cerebro-core/src/toolbox/print-tools.ts:97-99 | one run of dashes per column, one shorter than the column width |
| PrintTools.DividerFitsColumns | packages/cerebro-core/src/toolbox/print-tools.ts:84-99 | each divider is as long as its column's longest cell |
| PrintTools.Table | packages/cerebro-core/src/toolbox/print-tools.ts:84-129 | markdown shifts the header off the caller's rows and puts the divider above the rest, and on empty rows throws the TypeError `findWidths` raises on the undefined header; other formats leave the rows alone |
| PrintTools.PrintSuppressedByLevel | packages/cerebro-core/src/toolbox/print-tools.ts:254-261 | CEREBRO_OUTPUT set to a level's number suppresses output exactly for quiet |
| PrintTools.PrintNotSuppressedByDefault | packages/cerebro-core/src/toolbox/print-tools.ts:254-261 | outside tests and without CEREBRO_OUTPUT, output is written |
| Logger.DebugOnlyAtDebugLevel | packages/cerebro-core/src/toolbox/logger-tools.ts:313-359 | debug output is allowed iff the level is 256 |
| Logger.LevelledFromNormalUp | packages/cerebro-core/src/toolbox/logger-tools.ts:360-373 | danger, error, info, note, notice, status, success and warning are allowed iff the level is 32, 64, 128 or 256 |
| Logger.OtherTypesAlwaysPrintable | packages/cerebro-core/src/toolbox/logger-tools.ts:374-375 | any other type, critical among them, is always allowed; with no level set, the gated types are not |
| Logger.FormatMessage | packages/cerebro-core/src/toolbox/logger-tools.ts:342-354 | a string is returned unchanged |
| Logger.FormatStrings | packages/cerebro-core/src/toolbox/logger-tools.ts:342-354 | an array of strings is joined with single spaces |
| Logger.Emit | packages/cerebro-core/src/toolbox/logger-tools.ts:64-194 | a call the level does not allow returns ""; an allowed one, and `log` always, ends with the formatted message |
| Logger.LogIgnoresLevel | packages/cerebro-core/src/toolbox/logger-tools.ts:184-194 | `log` gives the same text at every level |
| Logger.RenderLabelAndIcon | packages/cerebro-core/src/toolbox/logger-tools.ts:185-189 | a label is padded and followed by a space, and an icon is followed by one space |
| Logger.RenderCriticalIcon | packages/cerebro-core/src/toolbox/logger-tools.ts:69-73 | critical's icon is followed by two spaces, with or without a label |
| Logger.ValidateConfig | packages/cerebro-core/src/toolbox/logger-tools.ts:333-340 | on the object itself: type "" becomes "info", a falsy label becomes "", and nothing else changes |
| Logger.Print | packages/cerebro-core/src/toolbox/logger-tools.ts:52-61 | defaults type "info", msg "" and icon false, validates, then calls the method the type names with msg, label and icon: an output method, `line` (an undefined msg becomes ""), or `center` with the label as fill; a msg or fill these cannot use throws a TypeError, and so does a type naming none of them |
| Logger.Line | packages/cerebro-core/src/toolbox/logger-tools.ts:281-291 | the message repeated width − 2 times, character by character; a width below 2 throws |
| Logger.RepeatPeriodic | packages/cerebro-core/src/toolbox/logger-tools.ts:281-291 | character i of a repetition is character i mod \|s\| of s |
| Logger.Center | packages/cerebro-core/src/toolbox/logger-tools.ts:294-311 | a message at least as wide as the terminal is unchanged; otherwise the fill is repeated ⌊⌊(width − len)/2⌋/\|fill\|⌋ times each side; an empty fill with a positive gap throws |
| Logger.CenterFits | packages/cerebro-core/src/toolbox/logger-tools.ts:294-311 | the centred text is no wider than the terminal and the message sits in its middle |
| Installer.UntildifyIdempotent | packages/cerebro-core/src/autocompletion/installer.ts:149 | expanding "~" twice is expanding it once, unless the home directory starts with "~" |
| Installer.OtherShellsAreBash | packages/cerebro-core/src/autocompletion/installer.ts:28-39 | any shell but fish and zsh gets the bash template and the bash source line |
| Installer.SourceLineNamesScript | packages/cerebro-core/src/autocompletion/installer.ts:74-85 | every source line contains the script it sources |
| Installer.LocationIsShellConfig | packages/cerebro-core/src/autocompletion/installer.ts:49-100 | every location `locationFromShell` gives is accepted by `isInShellConfig`, the unexpanded "~/.bashrc" included |
| Installer.CheckFilenameForLineMeaning | packages/cerebro-core/src/autocompletion/installer.ts:111-131 | a non-empty line is found iff the file was read and contains it; a missing file or read error gives false |
| Installer.ReadFile | packages/cerebro-core/src/autocompletion/installer.ts:117 | an existing path gives its text, and a missing one fails with ENOENT |
| Installer.WriteLineToFilename | packages/cerebro-core/src/autocompletion/installer.ts:143-184 | four appends leave the file with the block of marker, note and source line added |
| Installer.WriteToShellConfig | packages/cerebro-core/src/autocompletion/installer.ts:195-222 | the shell configuration sources the router script, appended only when not already there |
| Installer.WriteToCerebroScript | packages/cerebro-core/src/autocompletion/installer.ts:232-259 | the router script sources the package's script, appended only when not already there |
| Installer.UnixNewlines | packages/cerebro-core/src/autocompletion/installer.ts:290 | normalising newlines never lengthens the text |
| Installer.UnixNewlinesSameLines | packages/cerebro-core/src/autocompletion/installer.ts:290 | splitting the normalised text on "\n" gives the lines of the original under /\r?\n/ |
| Installer.UnixNewlinesKeepsUnixText | packages/cerebro-core/src/autocompletion/installer.ts:290 | text without carriage returns is unchanged |
| Installer.FillTemplateWithoutPlaceholders | packages/cerebro-core/src/autocompletion/installer.ts:285-290 | a template without placeholders is only newline-normalised |
| Installer.WriteToCompletionScript | packages/cerebro-core/src/autocompletion/installer.ts:270-296 | the package's script is rewritten with the filled template |
| Installer.Install | packages/cerebro-core/src/autocompletion/installer.ts:317-366 | an empty name, completer or location throws, in that order, and writes nothing; otherwise the three files are written |
| Installer.AppendOnceIdempotent | packages/cerebro-core/src/autocompletion/installer.ts:204-222 | after one append the file mentions the script, so a second append is skipped |
| Installer.InstallIdempotent | packages/cerebro-core/src/autocompletion/installer.ts:317-366 | on distinct paths, installing twice leaves the files of installing once |
| Installer.BlankMarkers | packages/cerebro-core/src/autocompletion/installer.ts:404-416 | the map with its mutable lineIndex blanks each marker line and the two after it |
| Installer.DropDoubleBlanks | packages/cerebro-core/src/autocompletion/installer.ts:418-427 | no two empty lines stay adjacent, and every non-empty line is kept in order |
| Installer.RemoveLinesFromFilename | packages/cerebro-core/src/autocompletion/installer.ts:377-439 | a missing file or one without the marker is left alone; otherwise the blanked, collapsed, joined and trimmed text is written |
| Installer.RemoveLinesKeepsPaths | packages/cerebro-core/src/autocompletion/installer.ts:377-439 | no file is created or deleted, and other files are untouched |
| Installer.BlankedHasNoMarker | packages/cerebro-core/src/autocompletion/installer.ts:404-416 | no blanked line holds the marker |
| Installer.RemoveLinesRemovesMarker | packages/cerebro-core/src/autocompletion/installer.ts:377-439 | after a removal the file no longer holds the marker |
| Installer.BlockHasMarker | packages/cerebro-core/src/autocompletion/installer.ts:163-174 | the appended block holds its marker, so a removal finds it |
| Installer.BlockLines | packages/cerebro-core/src/autocompletion/installer.ts:163-174 | the block splits into "", the marker, the note, the source line and "" |
| Installer.RemoveBlockAlone | packages/cerebro-core/src/autocompletion/installer.ts:377-439 | removing the block from a file holding only it leaves the file empty |
| Installer.Uninstall | packages/cerebro-core/src/autocompletion/installer.ts:454-492 | the file operations give what `UninstallSpec` specifies |
| Installer.UninstallRemovesPackage | packages/cerebro-core/src/autocompletion/installer.ts:454-492 | a successful uninstall leaves no completion script and no router block for the package |
| Installer.RouterCleanupRemovesMarker | packages/cerebro-core/src/autocompletion/installer.ts:477-488 | the router cleanup keeps the set of paths and removes the package's block |
| Completion.SliceEnd | packages/cerebro-core/src/autocompletion/index.ts:144 | `slice(0, end)` clamps to the text and counts a negative end from the back |
| Completion.ParseEnvironment | packages/cerebro-core/src/autocompletion/index.ts:128-169 | throws iff the environment is missing |
| Completion.ParsedFields | packages/cerebro-core/src/autocompletion/index.ts:137-156 | line is COMP_LINE or ""; partial is a prefix of it; last and lastPartial are space-free suffixes; complete iff all three variables are set |
| Completion.WordsAfterSpace | packages/cerebro-core/src/autocompletion/index.ts:146-150 | the last word follows the last space, and prev is the last word before it |
| Completion.OneWord | packages/cerebro-core/src/autocompletion/index.ts:146-150 | a line without spaces is its own last word, with no previous word |
| Completion.CursorAtEnd | packages/cerebro-core/src/autocompletion/index.ts:144 | with the cursor at the end, the partial line is the whole line |
| Completion.CursorInside | packages/cerebro-core/src/autocompletion/index.ts:144 | within the line, the partial line is as long as the cursor position |
| Completion.ParseWrittenEnvironment | packages/cerebro-core/src/autocompletion/index.ts:137-156 | numbers the shell wrote read back as themselves, and complete iff the line is not empty |
| Completion.NoCursor | packages/cerebro-core/src/autocompletion/index.ts:137-144 | an unset or unparsable cursor reads as 0, so partial is empty |
| Completion.ShellLocation | packages/cerebro-core/src/autocompletion/constants.ts:7-11 | defined exactly for bash, zsh and fish, each a "~" path |
| Completion.InstallRequest | packages/cerebro-core/src/autocompletion/index.ts:19-38 | an empty name or completer throws a TypeError, in that order; an unknown shell throws; completeCmd defaults to "completion" |
| Completion.InstallRequestAccepted | packages/cerebro-core/src/autocompletion/index.ts:40-46 | accepted options never hit the installer's own checks |
| Completion.Install | packages/cerebro-core/src/autocompletion/index.ts:15-50 | a refused request writes nothing; an accepted one writes the installer's three files |
| Completion.ErrorText | packages/cerebro-core/src/autocompletion/index.ts:59 | `toString` starts with the error's name and ends with its message |
| Completion.Uninstall | packages/cerebro-core/src/autocompletion/index.ts:52-61 | only an empty name throws; installer errors are logged and swallowed |
| Completion.UninstallWithoutShell | packages/cerebro-core/src/autocompletion/index.ts:52-61 | without a shell nothing is touched and only an error line is logged |
| Patching.Or | packages/cerebro-patching-extension/src/toolbox/patching-tools.ts:16 | `a \|\| b` is a when a is a non-empty string, else b |
| Patching.InsertNextToPattern | packages/cerebro-patching-extension/src/toolbox/patching-tools.ts:14-48 | a result exists iff the anchor (before, else after) is set and found; it is longer by the insert |
| Patching.InsertBeforeFirst | packages/cerebro-patching-extension/src/toolbox/patching-tools.ts:43-47 | the insert lands right before the anchor's first occurrence |
| Patching.InsertAfterFirst | packages/cerebro-patching-extension/src/toolbox/patching-tools.ts:43-47 | the insert lands right after the anchor's first occurrence |
| Patching.BothAnchorsInsertAfterBefore | packages/cerebro-patching-extension/src/toolbox/patching-tools.ts:16-47 | with both set, the anchor is before but the insert goes after it |
| Patching.PatchString | packages/cerebro-patching-extension/src/toolbox/patching-tools.ts:148-167 | refuses without insert, when insert is present and force unset, or when the target is absent; the length changes by the edit |
| Patching.DeleteFirst | packages/cerebro-patching-extension/src/toolbox/patching-tools.ts:155-164 | delete removes the first occurrence of the target and nothing else |
| Patching.DeleteWithoutInsertRefused | packages/cerebro-patching-extension/src/toolbox/patching-tools.ts:148-152 | as written, `{ delete: t }` without an insert is refused although t occurs in the text |
| Patching.PatchStringIntended | packages/cerebro-patching-extension/src/toolbox/patching-tools.ts:148-167 | with an insert, or without a delete target, it agrees with `patchString`; a delete alone succeeds exactly when the target occurs |
| Patching.DeleteWithoutInsertIntended | packages/cerebro-patching-extension/src/toolbox/patching-tools.ts:154-163 | read as the comments describe it, a delete alone removes the first occurrence of the target and nothing else |
| Patching.ReplaceTargetFirst | packages/cerebro-patching-extension/src/toolbox/patching-tools.ts:155-164 | replace puts the insert in place of the first occurrence |
| Patching.PatchStringContainsInsert | packages/cerebro-patching-extension/src/toolbox/patching-tools.ts:148-167 | a successful patch leaves the insert in the text (a delete's insert is usually "") |
| Patching.PatchStringOnce | packages/cerebro-patching-extension/src/toolbox/patching-tools.ts:150-152 | without force, a second application of the same patch is refused |
| Patching.PatchAllAppend | packages/cerebro-patching-extension/src/toolbox/patching-tools.ts:186-195 | folding two option lists is folding the first, then the second |
| Patching.PatchNeverEmpties | packages/cerebro-patching-extension/src/toolbox/patching-tools.ts:188 | a "" result is dropped by the `\|\|`, so a patch never empties a file |
| Patching.DeleteEverythingIgnored | packages/cerebro-patching-extension/src/toolbox/patching-tools.ts:186-195 | deleting the whole text is dropped, and the patch reports false |
| Patching.PatchAllAlreadyApplied | packages/cerebro-patching-extension/src/toolbox/patching-tools.ts:150-152 | options whose inserts are all present, without force, leave the text alone |
| Patching.ReadFile | packages/cerebro-patching-extension/src/toolbox/patching-tools.ts:78-88 | a missing file throws "file not found"; a .json file gives the value `JSON.parse` gives, or rejects with its error; any other gives its text |
| Patching.FileSystem.Update | packages/cerebro-patching-extension/src/toolbox/patching-tools.ts:96-115 | result and files are those of `UpdateSpec`: read errors propagate, null contents throw in `is(String, …)`, other non-strings give false, and a string (text, or a parsed JSON string) is handed to the callback, whose result is written unless false |
| Patching.FileSystem.Prepend | packages/cerebro-patching-extension/src/toolbox/patching-tools.ts:123-125 | `update` with the data before the text |
| Patching.FileSystem.Append | packages/cerebro-patching-extension/src/toolbox/patching-tools.ts:133-135 | `update` with the data after the text |
| Patching.FileSystem.Replace | packages/cerebro-patching-extension/src/toolbox/patching-tools.ts:144-146 | `update` with the first occurrence replaced |
| Patching.FileSystem.Patch | packages/cerebro-patching-extension/src/toolbox/patching-tools.ts:186-195 | `update` with the folded patch, false when unchanged |
| Patching.UpdateRefusals | packages/cerebro-patching-extension/src/toolbox/patching-tools.ts:78-106 | nothing is written when the file is missing (throws), its JSON does not parse (rejects), parses to null (TypeError) or parses to another non-string (false) |
| Patching.UpdateJsonString | packages/cerebro-patching-extension/src/toolbox/patching-tools.ts:83-114 | a .json file holding a JSON string literal is patched like text: the callback gets the parsed string and its result is written |
| Patching.AppendWrites | packages/cerebro-patching-extension/src/toolbox/patching-tools.ts:133-135 | append writes and returns old text + data, keeping all other files |
| Patching.PrependWrites | packages/cerebro-patching-extension/src/toolbox/patching-tools.ts:123-125 | prepend writes and returns data + old text |
| Patching.ReplaceAbsentRewritesSame | packages/cerebro-patching-extension/src/toolbox/patching-tools.ts:144-146 | replace with an absent old content rewrites the file with the same text |
| Patching.PatchUnchangedWritesNothing | packages/cerebro-patching-extension/src/toolbox/patching-tools.ts:186-195 | a patch that changes nothing returns false and writes nothing |
| Patching.PatchChangedWrites | packages/cerebro-patching-extension/src/toolbox/patching-tools.ts:186-195 | a patch that changes the text writes exactly the folded text |
| Patching.Exists | packages/cerebro-patching-extension/src/toolbox/patching-tools.ts:57-76 | a null filename throws; true iff the filename is a string naming a file, the pattern is a string and the file's text includes it |
| Patching.AppendedTextExists | packages/cerebro-patching-extension/src/toolbox/patching-tools.ts:57-76 | after appending a non-empty text, `exists` finds it |
| Patching.EmptyPatternNeverExists | packages/cerebro-patching-extension/src/toolbox/patching-tools.ts:6-12 | an empty pattern is never found |
| PackageManager.PackageWords | packages/cerebro-package-manager-extension/src/toolbox/package-manager-tools.ts:15 | the packages are at least one word, even for an empty array |
| PackageManager.ConcatPackagesSplits | packages/cerebro-package-manager-extension/src/toolbox/package-manager-tools.ts:15 | splitting the single-space join on spaces gives the names back |
| PackageManager.Folder | packages/cerebro-package-manager-extension/src/toolbox/package-manager-tools.ts:23 | dir when given, "." otherwise; never empty |
| PackageManager.AddUsesYarn | packages/cerebro-package-manager-extension/src/toolbox/package-manager-tools.ts:21 | yarn iff force is "yarn", or force is unset and yarn was found |
| PackageManager.AddCommandWords | packages/cerebro-package-manager-extension/src/toolbox/package-manager-tools.ts:22-27 | the command reads as "yarn add --cwd F [--dev]" or "npm install --prefix F [--save-dev]", then the packages |
| PackageManager.RemoveCommandWords | packages/cerebro-package-manager-extension/src/toolbox/package-manager-tools.ts:42-44 | the command reads as "yarn remove --cwd F" or "npm uninstall --prefix F", then the packages |
| PackageManager.RemoveMirrorsAdd | packages/cerebro-package-manager-extension/src/toolbox/package-manager-tools.ts:17-53 | without dev, remove's words are add's with remove/uninstall in place of add/install |
| PackageManager.Lookup | packages/cerebro-package-manager-extension/src/toolbox/package-manager-tools.ts:5-13 | the memo is set after a call and kept once set |
| PackageManager.LookupOnce | packages/cerebro-package-manager-extension/src/toolbox/package-manager-tools.ts:5-13 | once looked up, the answer never changes, whatever the PATH says later |
| PackageManager.AddOutcome | packages/cerebro-package-manager-extension/src/toolbox/package-manager-tools.ts:29-35 | a dry run gives success with stdout ""; any success carries the command and a stdout |
| PackageManager.RemoveOutcome | packages/cerebro-package-manager-extension/src/toolbox/package-manager-tools.ts:46-52 | a dry run gives success with stdout undefined |
| PackageManager.Tools.HasYarn | packages/cerebro-package-manager-extension/src/toolbox/package-manager-tools.ts:5-13 | the memo becomes `Lookup` of the old one, and the answer is whether yarn was found |
| PackageManager.Tools.Add | packages/cerebro-package-manager-extension/src/toolbox/package-manager-tools.ts:17-36 | consults yarn only when force is unset, returns `AddOutcome` of the built command, and runs it unless dry |
| PackageManager.Tools.Remove | packages/cerebro-package-manager-extension/src/toolbox/package-manager-tools.ts:38-53 | always consults yarn, ignores force, returns `RemoveOutcome` and runs the command unless dry |

## Findings

| source | as written | input that shows it | evidently intended | confidence | as-written member | corrected member |
|---|---|---|---|---|---|---|
| packages/cerebro-patching-extension/src/toolbox/patching-tools.ts:150-163 | an unset `insert` is refused before `delete` is looked at, so `insert \|\| ""` on line 163 never supplies "" | `patchString("abc", { delete: "b" })` gives false | the comment on line 154: a delete is a replace by "", giving "ac" | not executed | Patching.DeleteWithoutInsertRefused | Patching.DeleteWithoutInsertIntended |

`Patching.FileSystem.Patch` keeps the behaviour as written; `Patching.PatchStringIntended` is the corrected reading.

## Left out

- Terminal output is not modelled: colours, boxen, spinners, the table renderer, `strip-ansi`, the terminal width lookup and the object dumper. The dumper is a parameter, and the terminal width is a parameter of `center` and `line`.
- The update notifier, the Node version check and the uncaught-exception handlers in cli.ts are not modelled. They are process-wide and depend on the network.
- The constructor's auto-fill of argv from `which` is not modelled, because it depends on the process (cli.ts:98-110). The argv given to `Cli` is the one `run` uses.
- The argument parsers `command-line-commands` and `command-line-args`, dynamic `import` and `require`, extension setup, command execution, `which` and `system.run` are oracles. Their own behaviour is not modelled.
- The file system is a path-to-text map, with a path-kind query for the loaders. Beyond that:
  - `path.join` is "a/b" concatenation, with no normalisation;
  - `mkdir` and stream errors are not modelled;
  - `jetpack.find`'s glob matching is an oracle that returns the file list.
- Runtime.Cli.Run: `asyncForEach` and `await` are modelled as sequential steps. Extension setups are not awaited in the source, and the model runs each to completion before the next. A setup's error is its synchronous throw; a promise it returns that rejects later is not modelled.
- Domain.NewCommand: an unset name is modelled as "", where the source leaves it undefined. For a nameless command the model's `matchesAlias("")` is true where the source's is false, and the registry key and the "has no function to execute" message use "" where the source uses undefined.
- Installer.Install: the three writes that `Promise.all` starts together are modelled in the order they are listed.
- Installer.Install: the dead `if (!options.location) options.location = "completion"` after the location check is not modelled.
- Completion.ParseEnvironment: the debug lines that `parseEnvironment` and the installer log are not modelled.
- ParameterTools.ParseRawCommand: `process.argv` equality is tested on string arrays only.
- ParameterTools.MergeArguments: the inputs are values, so the source's non-mutation of its inputs holds by construction and is not stated separately.
- Loaders.NormaliseAlias: non-string alias entries are dropped rather than kept.
- Loaders.CommandFromFile: a module's `description` that is not a string becomes no description, where the source copies the value as it is. `Command.description` is an optional string.
- Loaders.ExtensionFromFile: a truthy `description` that is not a string becomes no description, where the source copies the value as it is.
- Help.DistinctCommands: the `Set` in `DistinctCommands` identifies command objects by structural equality rather than by reference.
- `Number(...)` conversions, which the output levels and the completion variables rely on, are modelled for optional-sign decimal integers only. Hexadecimal, exponent and fractional texts are not modelled.
- Completion.ShellLocation: keys inherited from `Object.prototype`, such as "constructor", are not modelled as shells.
- Patching.PatchString: only string patterns are modelled. RegExp patterns, and `$` sequences in replacement texts, are not modelled.
- Patching.ReadFile: `JSON.parse` is a parameter of the file system. Its results are values, and their own behaviour is not modelled.
- Patching.FileSystem.Update: callbacks that return objects are not modelled.
- PackageManager.AddOutcome: the `error` field of the result type is never set by the source, so it is not modelled. A failing command rejects with the oracle's error.
- The thin command files completion.ts, completion-install.ts and completion-uninstall.ts are not modelled. The other extension modules each only fill one toolbox slot and appear as the core extension list.
- Levenshtein: the `leven` package is replaced by the textbook edit distance.
- Levenshtein.FindAlternatives: `toLowerCase` is modelled for A–Z only, and lengths count code points where JavaScript's `.length` counts UTF-16 units. So candidates with other letters, such as `findAlternatives("É", ["é"])`, or with characters outside the Basic Multilingual Plane can be judged differently.
- Levenshtein.FindAlternativesSingle: the same A–Z case folding and code-point lengths as `Levenshtein.FindAlternatives`.
- Levenshtein.FindAlternativesCaseInsensitive: only queries that agree up to A–Z case are covered.
- Logger.Center: the message and fill lengths are code-point counts, not UTF-16 units, so text with characters outside the Basic Multilingual Plane is centred differently. The table widths of PrintTools count the same way.
- Logger.Print: `this[type]` also reaches `clear`, `processing`, `terminalInfo`, `dump`, `dd`, `print` and the `Object.prototype` methods. The model gives a TypeError for these types.
- Utils.Times: the callback is total, so a callback that throws, which makes `times` throw, is not modelled.
- Utils.AsyncForEach: the array is a value, so a callback that changes the array's length, which the loop re-reads on every iteration, is not modelled. A callback that throws is a rejection.
- Patching.FileSystem.Replace: `$&`, `$$`, `` $` `` and `$'` in the new content are inserted literally, where `String.prototype.replace` expands them.
- Installer.FillTemplate: `$` sequences in the package name and completer are inserted literally, where `String.prototype.replace` expands them. An npm package name cannot contain `$`.
- Runtime.Cli: the debug lines `cli.ts` logs (each alias registered, the command found, the parsed options, the `--help` and `--version` dispatch), and the "no command given" debug line of `printGeneralHelp` in `print-tools.ts`, are not kept. `LogLine` holds warnings and errors only.
