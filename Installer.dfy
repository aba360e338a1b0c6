/**
 * The shell-completion installer
 * (packages/cerebro-core/src/autocompletion/installer.ts): which template,
 * configuration file and source line belong to each shell, the block
 * appended to a configuration file, the filled-in completion script, and
 * the pass that removes a block again.
 *
 * The user's files are a `Disk`, a map from path to text; directories are
 * implicit. The home directory, ZDOTDIR, SHELL and the package's install
 * directory come in an `Env`.
 */
module Installer {
  import opened Js
  import opened Strings

  const BashLocation: string := "~/.bashrc"
  const FishLocation: string := "~/.config/fish/config.fish"
  const CompletionDir: string := "~/.config/cerebro"
  const CerebroScriptName: string := "__cerebro"
  const PackagesMarker: string := "# cerebro autocompletion source for packages"
  const UninstallNote: string := "# uninstall by removing these lines"

  /**
   * What the installer reads from the process: `os.homedir()` ("" when
   * unknown), ZDOTDIR, SHELL, and the directory the package is installed
   * in (the parent of the compiled module's directory).
   */
  datatype Env = Env(home: string, zdotdir: Option<string>, shellVar: Option<string>, packageRoot: string)

  /** ZSH_LOCATION: "$ZDOTDIR/.zshrc" when ZDOTDIR is set and non-empty, "~/.zshrc" otherwise. */
  function ZshLocation(env: Env): string
  {
    if env.zdotdir.Some? && env.zdotdir.value != "" then env.zdotdir.value + "/.zshrc" else "~/.zshrc"
  }

  /** `getSystemShell()`: the last "/"-separated piece of SHELL, "" when it is unset. */
  function SystemShell(env: Env): string
  {
    LastPiece(if env.shellVar.Some? then env.shellVar.value else "", "/")
  }

  /** A "~" that is the whole path or is followed by a path separator. */
  predicate LeadingTilde(p: string)
  {
    |p| > 0 && p[0] == '~' && (|p| == 1 || p[1] == '/' || p[1] == '\\')
  }

  /** `untildify(p)`: a leading "~" becomes the home directory, when one is known. */
  function Untildify(home: string, p: string): string
  {
    if home != "" && LeadingTilde(p) then home + p[1..] else p
  }

  /** A path is expanded at most once: expanding it again changes nothing, unless the home directory itself starts with "~". */
  lemma UntildifyIdempotent(home: string, p: string)
    requires !LeadingTilde(home)
    ensures Untildify(home, Untildify(home, p)) == Untildify(home, p)
    ensures !LeadingTilde(p) ==> Untildify(home, p) == p
    ensures home != "" && LeadingTilde(p) ==> Untildify(home, p) == home + p[1..]
  {
    var q := Untildify(home, p);
    if home != "" && LeadingTilde(p) {
      assert q[..|home|] == home;
      if |home| >= 2 {
        assert q[1] == home[1];
      }
      assert !LeadingTilde(q);
    }
  }

  /** `scriptFromShell(shell)`: the fish or zsh template, and the bash one for every other shell. */
  function ScriptFromShell(env: Env, shell: string): string
  {
    if shell == "fish" then env.packageRoot + "/scripts/fish.sh"
    else if shell == "zsh" then env.packageRoot + "/scripts/zsh.sh"
    else env.packageRoot + "/scripts/bash.sh"
  }

  /** `locationFromShell(shell)`: the expanded configuration file of bash, zsh or fish; "~/.bashrc", unexpanded, otherwise. */
  function LocationFromShell(env: Env, shell: string): string
  {
    if shell == "bash" then Untildify(env.home, BashLocation)
    else if shell == "zsh" then Untildify(env.home, ZshLocation(env))
    else if shell == "fish" then Untildify(env.home, FishLocation)
    else BashLocation
  }

  /** `sourceLineForShell(scriptName, shell)`: a line that sources the script if it exists and never fails. */
  function SourceLineForShell(scriptName: string, shell: string): string
  {
    if shell == "fish" then "[ -f " + scriptName + " ]; and . " + scriptName + "; or true"
    else if shell == "zsh" then "[[ -f " + scriptName + " ]] && . " + scriptName + " || true"
    else "[ -f " + scriptName + " ] && . " + scriptName + " || true"
  }

  /** Any shell other than fish and zsh gets the bash template and the bash source line. */
  lemma OtherShellsAreBash(env: Env, scriptName: string, shell: string)
    requires shell != "fish" && shell != "zsh"
    ensures ScriptFromShell(env, shell) == ScriptFromShell(env, "bash")
    ensures SourceLineForShell(scriptName, shell) == SourceLineForShell(scriptName, "bash")
    ensures SourceLineForShell(scriptName, "fish") != SourceLineForShell(scriptName, "bash")
    ensures SourceLineForShell(scriptName, "zsh") != SourceLineForShell(scriptName, "bash")
  {
    var fish := SourceLineForShell(scriptName, "fish");
    var bash := SourceLineForShell(scriptName, "bash");
    var zsh := SourceLineForShell(scriptName, "zsh");
    if fish == bash {
      assert fish[|fish| - 9..] == bash[|bash| - 9..];
    }
    assert zsh[1] == '[' && bash[1] == ' ';
  }

  /** Every source line names the script it sources, so a search for the script finds the line. */
  lemma SourceLineNamesScript(scriptName: string, shell: string)
    ensures Contains(SourceLineForShell(scriptName, shell), scriptName)
  {
    if shell == "fish" {
      ContainsSplice("[ -f ", scriptName, " ]; and . " + scriptName + "; or true");
      assert "[ -f " + scriptName + " ]; and . " + scriptName + "; or true"
          == "[ -f " + scriptName + (" ]; and . " + scriptName + "; or true");
    } else if shell == "zsh" {
      ContainsSplice("[[ -f ", scriptName, " ]] && . " + scriptName + " || true");
      assert "[[ -f " + scriptName + " ]] && . " + scriptName + " || true"
          == "[[ -f " + scriptName + (" ]] && . " + scriptName + " || true");
    } else {
      ContainsSplice("[ -f ", scriptName, " ] && . " + scriptName + " || true");
      assert "[ -f " + scriptName + " ] && . " + scriptName + " || true"
          == "[ -f " + scriptName + (" ] && . " + scriptName + " || true");
    }
  }

  /** The paths `isInShellConfig` accepts: the three configuration files, with and without "~" expanded. */
  function ShellConfigs(env: Env): seq<string>
  {
    [BashLocation, ZshLocation(env), FishLocation,
     Untildify(env.home, BashLocation), Untildify(env.home, ZshLocation(env)), Untildify(env.home, FishLocation)]
  }

  predicate IsInShellConfig(env: Env, filename: string)
  {
    filename in ShellConfigs(env)
  }

  /** Whatever the shell, the location `locationFromShell` gives is a shell configuration file. */
  lemma LocationIsShellConfig(env: Env, shell: string)
    ensures IsInShellConfig(env, LocationFromShell(env, shell))
    ensures shell !in {"bash", "zsh", "fish"} ==> LocationFromShell(env, shell) == BashLocation
  {
  }

  /** What reading a file gives: its text, "no such file", or another failure. */
  datatype ReadOutcome = Text(text: string) | NotFound | ReadFailed(code: string)

  /**
   * `checkFilenameForLine`: whether the file's text contains the line. A
   * missing file reads as ""; any other read failure gives false.
   */
  function CheckFilenameForLine(read: ReadOutcome, line: string): bool
  {
    match read
    case Text(s) => Contains(s, line)
    case NotFound => Contains("", line)
    case ReadFailed(_) => false
  }

  /** A non-empty line is found exactly in a file that was read and contains it; an empty one is found even in a missing file. */
  lemma CheckFilenameForLineMeaning(read: ReadOutcome, line: string)
    ensures line != "" ==> (CheckFilenameForLine(read, line) <==> read.Text? && Contains(read.text, line))
    ensures CheckFilenameForLine(NotFound, "")
  {
    assert StartsWith(""[0..], "");
  }

  /** The text at a path; a stream opened for appending starts a missing file empty. */
  function Contents(files: map<string, string>, path: string): string
  {
    if path in files then files[path] else ""
  }

  function NotFoundError(path: string): JsError
  {
    JsError("Error", "ENOENT", "ENOENT: no such file or directory, open '" + path + "'")
  }

  /** `readFile(path, "utf8")`. */
  function ReadFile(files: map<string, string>, path: string): (r: Result<string>)
    ensures r.Ok? <==> path in files
    ensures r.Ok? ==> r.value == files[path]
    ensures r.Err? ==> r.error.code == "ENOENT"
  {
    if path in files then Ok(files[path]) else Err(NotFoundError(path))
  }

  /** The read `checkFilenameForLine` performs, on the expanded path. */
  function ReadForCheck(files: map<string, string>, env: Env, filename: string): ReadOutcome
  {
    var p := Untildify(env.home, filename);
    if p in files then Text(files[p]) else NotFound
  }

  /** The user's files. */
  class Disk {
    var files: map<string, string>

    constructor(files: map<string, string>)
      ensures this.files == files
    {
      this.files := files;
    }

    /** One `stream.write` to a stream opened with flag "a". */
    method Append(path: string, text: string)
      modifies this
      ensures files == old(files)[path := Contents(old(files), path) + text]
    {
      files := files[path := Contents(files, path) + text];
    }

    /** `writeFile(path, text)`. */
    method Write(path: string, text: string)
      modifies this
      ensures files == old(files)[path := text]
    {
      files := files[path := text];
    }

    /** `unlink(path)` of a file that exists. */
    method Delete(path: string)
      modifies this
      ensures files == old(files) - {path}
    {
      files := files - {path};
    }
  }

  /** The first line of the block: generic in a shell configuration file, naming the package anywhere else. */
  function Marker(inShellConfig: bool, name: string): (r: string)
    ensures |r| > |UninstallNote|
  {
    if inShellConfig then PackagesMarker else "# cerebro autocompletion source for " + name + " package"
  }

  /** The text `writeLineToFilename` appends: the marker, the uninstall note and the source line, each on a line of its own. */
  function Block(marker: string, sourceLine: string): string
  {
    ("\n" + marker) + ("\n" + UninstallNote) + ("\n" + sourceLine) + "\n"
  }

  lemma Assoc3(a: string, b: string, c: string)
    ensures a + b + c == a + (b + c)
  {
  }

  lemma Assoc5(a: string, b: string, c: string, d: string, e: string)
    ensures a + b + c + d + e == a + (b + c + d + e)
  {
  }

  /** The files after the block sourcing scriptName is appended to filename (expanded). */
  function Appended(files: map<string, string>, env: Env, filename: string, scriptName: string, name: string,
                    shell: string): map<string, string>
  {
    var p := Untildify(env.home, filename);
    files[p := Contents(files, p) + Block(Marker(IsInShellConfig(env, filename), name), SourceLineForShell(scriptName, shell))]
  }

  /** `writeLineToFilename`: four writes to an append stream on the expanded path. */
  method WriteLineToFilename(disk: Disk, env: Env, filename: string, scriptName: string, name: string, shell: string)
    modifies disk
    ensures disk.files == Appended(old(disk.files), env, filename, scriptName, name, shell)
  {
    var filepath := Untildify(env.home, filename);
    var marker := Marker(IsInShellConfig(env, filename), name);
    disk.Append(filepath, "\n" + marker);
    disk.Append(filepath, "\n" + UninstallNote);
    disk.Append(filepath, "\n" + SourceLineForShell(scriptName, shell));
    disk.Append(filepath, "\n");
    Assoc5(Contents(old(disk.files), filepath), "\n" + marker, "\n" + UninstallNote,
           "\n" + SourceLineForShell(scriptName, shell), "\n");
  }

  /** `path.join(COMPLETION_DIR, shell, base + "." + shell)`. */
  function ScriptPath(shell: string, base: string): (r: string)
    ensures r != ""
  {
    CompletionDir + "/" + shell + "/" + base + "." + shell
  }

  /** Appends the block sourcing scriptName to filename, unless the file already mentions scriptName. */
  function AppendOnce(files: map<string, string>, env: Env, filename: string, scriptName: string, name: string,
                      shell: string): map<string, string>
  {
    if CheckFilenameForLine(ReadForCheck(files, env, filename), scriptName) then files
    else Appended(files, env, filename, scriptName, name, shell)
  }

  /** `writeToShellConfig`: the shell configuration file sources the router script once. */
  function ShellConfigStep(files: map<string, string>, env: Env, location: string, name: string,
                           shell: string): map<string, string>
  {
    AppendOnce(files, env, location, ScriptPath(shell, CerebroScriptName), name, shell)
  }

  /** `writeToCerebroScript`: the router script sources the package's completion script once. */
  function CerebroScriptStep(files: map<string, string>, env: Env, name: string, shell: string): map<string, string>
  {
    AppendOnce(files, env, ScriptPath(shell, CerebroScriptName), ScriptPath(shell, name), name, shell)
  }

  method WriteOnce(disk: Disk, env: Env, filename: string, scriptName: string, name: string, shell: string)
    modifies disk
    ensures disk.files == AppendOnce(old(disk.files), env, filename, scriptName, name, shell)
  {
    var existing := CheckFilenameForLine(ReadForCheck(disk.files, env, filename), scriptName);
    if !existing {
      WriteLineToFilename(disk, env, filename, scriptName, name, shell);
    }
  }

  method WriteToShellConfig(disk: Disk, env: Env, location: string, name: string, shell: string)
    modifies disk
    ensures disk.files == ShellConfigStep(old(disk.files), env, location, name, shell)
  {
    WriteOnce(disk, env, location, ScriptPath(shell, CerebroScriptName), name, shell);
  }

  method WriteToCerebroScript(disk: Disk, env: Env, name: string, shell: string)
    modifies disk
    ensures disk.files == CerebroScriptStep(old(disk.files), env, name, shell)
  {
    WriteOnce(disk, env, ScriptPath(shell, CerebroScriptName), ScriptPath(shell, name), name, shell);
  }

  /** `.replace(/\r?\n/g, "\n")`: a carriage return directly before a line feed is dropped. */
  function UnixNewlines(s: string): (r: string)
    ensures |r| <= |s|
    decreases |s|
  {
    if |s| == 0 then ""
    else if |s| >= 2 && s[0] == '\r' && s[1] == '\n' then "\n" + UnixNewlines(s[2..])
    else [s[0]] + UnixNewlines(s[1..])
  }

  /** `s.split(/\r?\n/)`: a line ends at a line feed, and a carriage return just before it is not part of the line. */
  function SplitLines(s: string): (r: seq<string>)
    ensures |r| >= 1
    ensures forall k :: 0 <= k < |r| ==> '\n' !in r[k]
    decreases |s|
  {
    if |s| == 0 then [""]
    else if s[0] == '\n' then [""] + SplitLines(s[1..])
    else if |s| >= 2 && s[0] == '\r' && s[1] == '\n' then [""] + SplitLines(s[2..])
    else
      var rest := SplitLines(s[1..]);
      [[s[0]] + rest[0]] + rest[1..]
  }

  /** Splitting the normalised text on "\n" gives the same lines as splitting the original on "\r\n" or "\n". */
  lemma {:induction false} UnixNewlinesSameLines(s: string)
    ensures SplitOn(UnixNewlines(s), '\n') == SplitLines(s)
    decreases |s|
  {
    if |s| == 0 {
    } else if |s| >= 2 && s[0] == '\r' && s[1] == '\n' {
      var u := UnixNewlines(s[2..]);
      UnixNewlinesSameLines(s[2..]);
      assert ("\n" + u)[1..] == u;
    } else {
      var u := UnixNewlines(s[1..]);
      UnixNewlinesSameLines(s[1..]);
      assert ([s[0]] + u)[1..] == u;
    }
  }

  /** Text without carriage returns is left as it is. */
  lemma {:induction false} UnixNewlinesKeepsUnixText(s: string)
    requires '\r' !in s
    ensures UnixNewlines(s) == s
    decreases |s|
  {
    if |s| > 0 {
      UnixNewlinesKeepsUnixText(s[1..]);
      assert [s[0]] + s[1..] == s;
    }
  }

  /** The completion script: every {pkgname}, then every {completer}, then every {completeCmd} replaced, then newlines normalised. */
  function FillTemplate(template: string, name: string, completer: string, completeCmd: string): string
  {
    UnixNewlines(ReplaceAll(ReplaceAll(ReplaceAll(template, "{pkgname}", name), "{completer}", completer),
                            "{completeCmd}", completeCmd))
  }

  /** A template without placeholders only has its newlines normalised. */
  lemma FillTemplateWithoutPlaceholders(template: string, name: string, completer: string, completeCmd: string)
    requires !Contains(template, "{pkgname}") && !Contains(template, "{completer}") && !Contains(template, "{completeCmd}")
    ensures FillTemplate(template, name, completer, completeCmd) == UnixNewlines(template)
  {
    ReplaceAllAbsent(template, "{pkgname}", name);
    ReplaceAllAbsent(template, "{completer}", completer);
    ReplaceAllAbsent(template, "{completeCmd}", completeCmd);
  }

  /**
   * `writeToCompletionScript`: the filled template for the shell is written
   * to the package's script; when the template cannot be read the error is
   * only logged.
   */
  function CompletionScriptStep(files: map<string, string>, env: Env, name: string, completer: string, shell: string,
                                completeCmd: string): map<string, string>
  {
    match ReadFile(files, ScriptFromShell(env, shell))
    case Err(_) => files
    case Ok(template) => files[Untildify(env.home, ScriptPath(shell, name)) := FillTemplate(template, name, completer, completeCmd)]
  }

  method WriteToCompletionScript(disk: Disk, env: Env, name: string, completer: string, shell: string, completeCmd: string)
    modifies disk
    ensures disk.files == CompletionScriptStep(old(disk.files), env, name, completer, shell, completeCmd)
  {
    var filename := Untildify(env.home, ScriptPath(shell, name));
    var script := ScriptFromShell(env, shell);
    var filecontent := ReadFile(disk.files, script);
    if filecontent.Ok? {
      disk.Write(filename, FillTemplate(filecontent.value, name, completer, completeCmd));
    }
  }

  /** The options of the installer's `install`. */
  datatype InstallOptions = InstallOptions(name: string, completer: string, location: string, shell: string,
                                           completeCmd: string)

  /** The files after the three writes of `install`, taken in the order they are listed. */
  function InstalledFiles(files: map<string, string>, env: Env, o: InstallOptions): map<string, string>
  {
    var f1 := ShellConfigStep(files, env, o.location, o.name, o.shell);
    var f2 := CerebroScriptStep(f1, env, o.name, o.shell);
    CompletionScriptStep(f2, env, o.name, o.completer, o.shell, o.completeCmd)
  }

  /** `install(options)`: name, completer and location are required, in that order; then the three files are written. */
  method Install(disk: Disk, env: Env, o: InstallOptions) returns (r: Result<()>)
    modifies disk
    ensures o.name == "" ==> r == Err(Error("options.name is required"))
    ensures o.name != "" && o.completer == "" ==> r == Err(Error("options.completer is required"))
    ensures o.name != "" && o.completer != "" && o.location == "" ==> r == Err(Error("options.location is required"))
    ensures r.Err? ==> disk.files == old(disk.files)
    ensures o.name != "" && o.completer != "" && o.location != "" ==>
              r == Ok(()) && disk.files == InstalledFiles(old(disk.files), env, o)
  {
    if o.name == "" {
      return Err(Error("options.name is required"));
    }
    if o.completer == "" {
      return Err(Error("options.completer is required"));
    }
    if o.location == "" {
      return Err(Error("options.location is required"));
    }
    WriteToShellConfig(disk, env, o.location, o.name, o.shell);
    WriteToCerebroScript(disk, env, o.name, o.shell);
    WriteToCompletionScript(disk, env, o.name, o.completer, o.shell, o.completeCmd);
    return Ok(());
  }

  /** After appending once, the file mentions the script, so a second append is skipped. */
  lemma AppendOnceIdempotent(files: map<string, string>, env: Env, filename: string, scriptName: string, name: string,
                             shell: string)
    requires scriptName != ""
    ensures var once := AppendOnce(files, env, filename, scriptName, name, shell);
      Untildify(env.home, filename) in once && Contains(once[Untildify(env.home, filename)], scriptName)
  {
    var p := Untildify(env.home, filename);
    var once := AppendOnce(files, env, filename, scriptName, name, shell);
    CheckFilenameForLineMeaning(ReadForCheck(files, env, filename), scriptName);
    if !CheckFilenameForLine(ReadForCheck(files, env, filename), scriptName) {
      var marker := Marker(IsInShellConfig(env, filename), name);
      var line := SourceLineForShell(scriptName, shell);
      SourceLineNamesScript(scriptName, shell);
      var x := Contents(files, p) + "\n" + marker + "\n" + UninstallNote + "\n";
      ContainsWiden(x, line, "\n", scriptName);
      BlockSplit(Contents(files, p), marker, line);
    }
  }

  /** The four paths `install` reads or writes, as the installer sees them. */
  predicate DistinctInstallPaths(env: Env, o: InstallOptions)
  {
    var p1 := Untildify(env.home, o.location);
    var p2 := Untildify(env.home, ScriptPath(o.shell, CerebroScriptName));
    var p3 := Untildify(env.home, ScriptPath(o.shell, o.name));
    var t := ScriptFromShell(env, o.shell);
    p1 != p2 && p1 != p3 && p2 != p3 && t != p1 && t != p2 && t != p3
  }

  /**
   * Installing twice is installing once: the guard in front of each append
   * finds the line the first install wrote, and the completion script is
   * rewritten with the same text.
   */
  lemma InstallIdempotent(files: map<string, string>, env: Env, o: InstallOptions)
    requires DistinctInstallPaths(env, o)
    ensures InstalledFiles(InstalledFiles(files, env, o), env, o) == InstalledFiles(files, env, o)
  {
    var s1 := ScriptPath(o.shell, CerebroScriptName);
    var s2 := ScriptPath(o.shell, o.name);
    var p1 := Untildify(env.home, o.location);
    var p2 := Untildify(env.home, s1);
    var p3 := Untildify(env.home, s2);
    var t := ScriptFromShell(env, o.shell);
    var f1 := ShellConfigStep(files, env, o.location, o.name, o.shell);
    var f2 := CerebroScriptStep(f1, env, o.name, o.shell);
    var f3 := CompletionScriptStep(f2, env, o.name, o.completer, o.shell, o.completeCmd);
    AppendOnceIdempotent(files, env, o.location, s1, o.name, o.shell);
    AppendOnceIdempotent(f1, env, s1, s2, o.name, o.shell);
    assert f1.Keys <= f2.Keys && f2.Keys <= f3.Keys;
    assert f3[p1] == f1[p1] && f3[p2] == f2[p2];
    assert ReadFile(f2, t) == ReadFile(files, t);
    CheckFilenameForLineMeaning(ReadForCheck(f3, env, o.location), s1);
    var g1 := ShellConfigStep(f3, env, o.location, o.name, o.shell);
    assert g1 == f3;
    CheckFilenameForLineMeaning(ReadForCheck(f3, env, s1), s2);
    var g2 := CerebroScriptStep(g1, env, o.name, o.shell);
    assert g2 == f3;
    assert ReadFile(f3, t) == ReadFile(f2, t);
  }

  /** The three lines appended after a line break, and the empty line after them, as `split` sees them. */
  lemma {:induction false} SplitLinesAround(a: string, b: string)
    requires '\n' !in a && '\r' !in a
    ensures SplitLines(a + "\n" + b) == [a] + SplitLines(b)
    decreases |a|
  {
    var s := a + "\n" + b;
    if |a| == 0 {
      assert s == "\n" + b;
      assert s[1..] == b;
    } else {
      assert s[1..] == a[1..] + "\n" + b;
      SplitLinesAround(a[1..], b);
      assert [a[0]] + a[1..] == a;
    }
  }

  /** Line j exists and holds the marker. */
  predicate Marked(lines: seq<string>, marker: string, j: int)
  {
    0 <= j < |lines| && Contains(lines[j], marker)
  }

  /** Line i is blanked: it or one of the two lines before it holds the marker. */
  predicate Blanked(lines: seq<string>, marker: string, i: int)
  {
    Marked(lines, marker, i) || Marked(lines, marker, i - 1) || Marked(lines, marker, i - 2)
  }

  /** The latest marker line that still covers line i, or -1. */
  function Active(lines: seq<string>, marker: string, i: int): (r: int)
    ensures r == -1 <==> !Blanked(lines, marker, i)
  {
    if Marked(lines, marker, i) then i
    else if Marked(lines, marker, i - 1) then i - 1
    else if Marked(lines, marker, i - 2) then i - 2
    else -1
  }

  /** The lines with every block blanked. */
  function BlankMarkedLines(lines: seq<string>, marker: string): (r: seq<string>)
    ensures |r| == |lines|
  {
    seq(|lines|, i requires 0 <= i < |lines| => if Blanked(lines, marker, i) then "" else lines[i])
  }

  /**
   * The first `map` of `removeLinesFromFilename`: `lineIndex` remembers the
   * last line that held the marker, and every line up to two after it is
   * replaced by "".
   */
  method BlankMarkers(lines: seq<string>, marker: string) returns (r: seq<string>)
    ensures |r| == |lines|
    ensures forall i :: 0 <= i < |lines| ==> r[i] == if Blanked(lines, marker, i) then "" else lines[i]
  {
    var lineIndex := -1;
    r := [];
    var index := 0;
    while index < |lines|
      invariant 0 <= index <= |lines|
      invariant |r| == index
      invariant lineIndex == if index == 0 then -1 else Active(lines, marker, index - 1)
      invariant forall i :: 0 <= i < index ==> r[i] == if Blanked(lines, marker, i) then "" else lines[i]
    {
      if Contains(lines[index], marker) {
        lineIndex := index;
      } else if lineIndex + 3 <= index {
        lineIndex := -1;
      }
      r := r + [if lineIndex == -1 then lines[index] else ""];
      index := index + 1;
    }
  }

  predicate NoDoubleBlank(lines: seq<string>)
  {
    forall k :: 0 <= k < |lines| - 1 ==> !(lines[k] == "" && lines[k + 1] == "")
  }

  /** The non-empty lines, in order. */
  function NonBlankLines(lines: seq<string>): seq<string>
    decreases |lines|
  {
    if |lines| == 0 then []
    else (if lines[0] == "" then [] else [lines[0]]) + NonBlankLines(lines[1..])
  }

  /**
   * The second `map` and the `filter`: an empty line followed by another
   * empty line is dropped. No two empty lines stay adjacent, every non-empty
   * line is kept in order, and so is the last line.
   */
  function DropDoubleBlanks(lines: seq<string>): (r: seq<string>)
    ensures NoDoubleBlank(r)
    ensures NonBlankLines(r) == NonBlankLines(lines)
    ensures |lines| > 0 ==> |r| > 0 && r[|r| - 1] == lines[|lines| - 1]
    ensures |lines| > 0 && lines[0] != "" ==> r[0] == lines[0]
    decreases |lines|
  {
    if |lines| == 0 then []
    else if lines[0] == "" && |lines| > 1 && lines[1] == "" then DropDoubleBlanks(lines[1..])
    else
      var rest := DropDoubleBlanks(lines[1..]);
      assert NonBlankLines([lines[0]] + rest) == (if lines[0] == "" then [] else [lines[0]]) + NonBlankLines(rest) by {
        assert ([lines[0]] + rest)[1..] == rest;
      }
      [lines[0]] + rest
  }

  /** The text `removeLinesFromFilename` writes back. */
  function RemovedLinesText(content: string, marker: string): string
  {
    Trim(Join(DropDoubleBlanks(BlankMarkedLines(SplitLines(content), marker)), "\n"))
  }

  /** A possibly failed operation together with the files it leaves behind. */
  datatype Outcome = Outcome(result: Result<()>, files: map<string, string>)

  /**
   * `removeLinesFromFilename(filename, name)`: nothing happens when the
   * expanded path does not exist or the text lacks the marker; the text
   * itself is read and written at the path as given.
   */
  function RemoveLinesSpec(files: map<string, string>, env: Env, filename: string, name: string): Outcome
  {
    if Untildify(env.home, filename) !in files then Outcome(Ok(()), files)
    else if filename !in files then Outcome(Err(NotFoundError(filename)), files)
    else
      var marker := Marker(IsInShellConfig(env, filename), name);
      if !Contains(files[filename], marker) then Outcome(Ok(()), files)
      else Outcome(Ok(()), files[filename := RemovedLinesText(files[filename], marker)])
  }

  method RemoveLinesFromFilename(disk: Disk, env: Env, filename: string, name: string) returns (r: Result<()>)
    modifies disk
    ensures Outcome(r, disk.files) == RemoveLinesSpec(old(disk.files), env, filename, name)
  {
    if Untildify(env.home, filename) !in disk.files {
      return Ok(());
    }
    var fileContent := ReadFile(disk.files, filename);
    if fileContent.Err? {
      return Err(fileContent.error);
    }
    var lines := SplitLines(fileContent.value);
    var sourceLine := Marker(IsInShellConfig(env, filename), name);
    if !Contains(fileContent.value, sourceLine) {
      return Ok(());
    }
    var blanked := BlankMarkers(lines, sourceLine);
    assert blanked == BlankMarkedLines(lines, sourceLine);
    disk.Write(filename, Trim(Join(DropDoubleBlanks(blanked), "\n")));
    return Ok(());
  }

  /** Removing lines never creates or deletes a file. */
  lemma RemoveLinesKeepsPaths(files: map<string, string>, env: Env, filename: string, name: string)
    ensures RemoveLinesSpec(files, env, filename, name).files.Keys == files.Keys
    ensures forall p :: p in files && p != filename ==> RemoveLinesSpec(files, env, filename, name).files[p] == files[p]
  {
  }


  /** No line of the blanked text holds a marker that has no line break. */
  lemma BlankedHasNoMarker(lines: seq<string>, marker: string)
    requires marker != ""
    ensures forall k :: 0 <= k < |lines| ==> !Contains(BlankMarkedLines(lines, marker)[k], marker)
  {
    forall k | 0 <= k < |lines|
      ensures !Contains(BlankMarkedLines(lines, marker)[k], marker)
    {
    }
  }

  /** The non-empty lines of a sequence that no line of which holds p hold p in none of their lines either. */
  lemma {:induction false} DropDoubleBlanksKeepsAbsence(lines: seq<string>, p: string)
    requires forall k :: 0 <= k < |lines| ==> !Contains(lines[k], p)
    ensures forall k :: 0 <= k < |DropDoubleBlanks(lines)| ==> !Contains(DropDoubleBlanks(lines)[k], p)
    decreases |lines|
  {
    if |lines| > 0 {
      DropDoubleBlanksKeepsAbsence(lines[1..], p);
    }
  }

  /** A text made of lines joined by "\n" holds a pattern without line breaks only if one of its lines does. */
  lemma {:induction false} JoinLinesAvoids(xs: seq<string>, p: string)
    requires p != "" && '\n' !in p
    requires forall k :: 0 <= k < |xs| ==> !Contains(xs[k], p)
    ensures !Contains(Join(xs, "\n"), p)
    decreases |xs|
  {
    if |xs| == 0 {
      forall i | 0 <= i <= 0
        ensures !StartsWith(""[i..], p)
      {
      }
    } else if |xs| == 1 {
    } else {
      var a := xs[0];
      var rest := Join(xs[1..], "\n");
      JoinLinesAvoids(xs[1..], p);
      var s := Join(xs, "\n");
      assert s == a + "\n" + rest;
      forall i | 0 <= i <= |s|
        ensures !StartsWith(s[i..], p)
      {
        if i + |p| <= |a| {
          assert s[i..][..|p|] == a[i..][..|p|];
          assert !StartsWith(a[i..], p);
        } else if i <= |a| {
          if |p| <= |s| - i {
            assert s[i..][..|p|][|a| - i] == '\n';
          }
        } else {
          assert s[i..] == rest[i - |a| - 1..];
          assert !StartsWith(rest[i - |a| - 1..], p);
        }
      }
    }
  }

  /** Trimming a text does not bring in a pattern it lacks. */
  lemma TrimAvoids(s: string, p: string)
    requires !Contains(s, p)
    ensures !Contains(Trim(s), p)
  {
    var t := TrimStart(s);
    var u := TrimEnd(t);
    SliceAvoids(s, p, |s| - |t|, |s|);
    SliceAvoids(t, p, 0, |u|);
  }

  /** A slice of a text holds only patterns the text holds. */
  lemma SliceAvoids(s: string, p: string, lo: int, hi: int)
    requires 0 <= lo <= hi <= |s| && !Contains(s, p)
    ensures !Contains(s[lo..hi], p)
  {
    forall k | 0 <= k <= hi - lo
      ensures !StartsWith(s[lo..hi][k..], p)
    {
      assert !StartsWith(s[lo + k..], p);
      if |p| <= hi - lo - k {
        assert s[lo..hi][k..][..|p|] == s[lo + k..][..|p|];
      }
    }
  }

  /** After `removeLinesFromFilename` succeeds on an existing file, the file no longer holds the marker. */
  lemma RemoveLinesRemovesMarker(files: map<string, string>, env: Env, filename: string, name: string)
    requires '\n' !in name
    requires Untildify(env.home, filename) in files
    requires RemoveLinesSpec(files, env, filename, name).result.Ok?
    ensures var out := RemoveLinesSpec(files, env, filename, name).files;
      filename in out && !Contains(out[filename], Marker(IsInShellConfig(env, filename), name))
  {
    var marker := Marker(IsInShellConfig(env, filename), name);
    assert '\n' !in marker;
    if Contains(files[filename], marker) {
      var lines := SplitLines(files[filename]);
      var blanked := BlankMarkedLines(lines, marker);
      BlankedHasNoMarker(lines, marker);
      DropDoubleBlanksKeepsAbsence(blanked, marker);
      JoinLinesAvoids(DropDoubleBlanks(blanked), marker);
      TrimAvoids(Join(DropDoubleBlanks(blanked), "\n"), marker);
    }
  }

  /** The appended block holds its marker, so a removal finds it. */
  lemma BlockHasMarker(prefix: string, marker: string, sourceLine: string)
    ensures Contains(prefix + Block(marker, sourceLine), marker)
  {
    var s := prefix + Block(marker, sourceLine);
    assert s[|prefix| + 1..][..|marker|] == marker;
    ContainsAt(s, marker, |prefix| + 1);
  }

  /** The block read as the text before the source line, the source line, and the final line break. */
  lemma BlockSplit(c: string, marker: string, sourceLine: string)
    ensures c + Block(marker, sourceLine) == (c + "\n" + marker + "\n" + UninstallNote + "\n") + sourceLine + "\n"
  {
  }

  /** The block, split into lines: an empty one, the marker, the note, the source line and an empty one. */
  lemma BlockLines(marker: string, sourceLine: string)
    requires '\n' !in marker && '\r' !in marker && '\n' !in sourceLine && '\r' !in sourceLine
    ensures SplitLines(Block(marker, sourceLine)) == ["", marker, UninstallNote, sourceLine, ""]
  {
    var b := Block(marker, sourceLine);
    assert '\n' !in UninstallNote && '\r' !in UninstallNote;
    assert b == "" + "\n" + (marker + "\n" + (UninstallNote + "\n" + (sourceLine + "\n" + "")));
    SplitLinesAround("", marker + "\n" + (UninstallNote + "\n" + (sourceLine + "\n" + "")));
    SplitLinesAround(marker, UninstallNote + "\n" + (sourceLine + "\n" + ""));
    SplitLinesAround(UninstallNote, sourceLine + "\n" + "");
    SplitLinesAround(sourceLine, "");
  }

  /** Five empty lines collapse to one. */
  lemma DropFiveBlanks()
    ensures DropDoubleBlanks(["", "", "", "", ""]) == [""]
  {
    assert DropDoubleBlanks([""]) == [""] by {
      assert [""][1..] == [];
    }
    assert DropDoubleBlanks(["", ""]) == [""] by {
      assert ["", ""][1..] == [""];
    }
    assert DropDoubleBlanks(["", "", ""]) == [""] by {
      assert ["", "", ""][1..] == ["", ""];
    }
    assert DropDoubleBlanks(["", "", "", ""]) == [""] by {
      assert ["", "", "", ""][1..] == ["", "", ""];
    }
    assert ["", "", "", "", ""][1..] == ["", "", "", ""];
  }

  /** Removing the block from a file that holds nothing else leaves the file empty. */
  lemma RemoveBlockAlone(marker: string, sourceLine: string)
    requires '\n' !in marker && '\r' !in marker && '\n' !in sourceLine && '\r' !in sourceLine
    requires |marker| > |UninstallNote|
    ensures RemovedLinesText(Block(marker, sourceLine), marker) == ""
  {
    BlockLines(marker, sourceLine);
    var lines := SplitLines(Block(marker, sourceLine));
    assert marker[0..][..|marker|] == marker;
    assert Marked(lines, marker, 1);
    var blanked := BlankMarkedLines(lines, marker);
    assert blanked == ["", "", "", "", ""];
    DropFiveBlanks();
    assert Join([""], "\n") == "";
  }

  /** The options of the installer's `uninstall`. */
  datatype UninstallOptions = UninstallOptions(name: string, shell: string)

  /**
   * `uninstall(options)`: name and shell are required. The package's
   * completion script is deleted, its block removed from the router
   * script, and when the router script is left blank the generic block is
   * removed from the configuration file of the system shell (SHELL, not
   * the shell given).
   */
  function UninstallSpec(files: map<string, string>, env: Env, o: UninstallOptions): Outcome
  {
    if o.name == "" then Outcome(Err(Error("Unable to uninstall if options.name is missing")), files)
    else if o.shell == "" then Outcome(Err(Error("Unable to uninstall if options.shell is missing")), files)
    else
      var completionScript := Untildify(env.home, ScriptPath(o.shell, o.name));
      if Untildify(env.home, completionScript) in files && completionScript !in files then
        Outcome(Err(NotFoundError(completionScript)), files)
      else
        var f1 := if Untildify(env.home, completionScript) in files then files - {completionScript} else files;
        RouterCleanupSpec(f1, env, Untildify(env.home, ScriptPath(o.shell, CerebroScriptName)), o.name)
  }

  /**
   * The second half of `uninstall`: the package's block is removed from the
   * router script, which must then exist; when it is left blank the generic
   * block is removed from the system shell's configuration file.
   */
  function RouterCleanupSpec(files: map<string, string>, env: Env, cerebroScript: string, name: string): Outcome
  {
    var second := RemoveLinesSpec(files, env, cerebroScript, name);
    if second.result.Err? then second
    else if cerebroScript !in second.files then Outcome(Err(NotFoundError(cerebroScript)), second.files)
    else if Trim(second.files[cerebroScript]) == "" then
      RemoveLinesSpec(second.files, env, LocationFromShell(env, SystemShell(env)), name)
    else Outcome(Ok(()), second.files)
  }

  method Uninstall(disk: Disk, env: Env, o: UninstallOptions) returns (r: Result<()>)
    modifies disk
    ensures Outcome(r, disk.files) == UninstallSpec(old(disk.files), env, o)
  {
    if o.name == "" {
      return Err(Error("Unable to uninstall if options.name is missing"));
    }
    if o.shell == "" {
      return Err(Error("Unable to uninstall if options.shell is missing"));
    }
    var completionScript := Untildify(env.home, ScriptPath(o.shell, o.name));
    if Untildify(env.home, completionScript) in disk.files {
      if completionScript !in disk.files {
        return Err(NotFoundError(completionScript));
      }
      disk.Delete(completionScript);
    }
    var cerebroScript := Untildify(env.home, ScriptPath(o.shell, CerebroScriptName));
    r := RemoveLinesFromFilename(disk, env, cerebroScript, o.name);
    if r.Err? {
      return;
    }
    var content := ReadFile(disk.files, cerebroScript);
    if content.Err? {
      return Err(content.error);
    }
    if Trim(content.value) == "" {
      r := RemoveLinesFromFilename(disk, env, LocationFromShell(env, SystemShell(env)), o.name);
      return;
    }
    return Ok(());
  }

  /**
   * A successful uninstall leaves no completion script for the package and
   * no block for it in the router script, provided the home directory does
   * not start with "~" and the router script is neither a shell
   * configuration file nor the system shell's.
   */
  lemma UninstallRemovesPackage(files: map<string, string>, env: Env, o: UninstallOptions)
    requires !LeadingTilde(env.home) && '\n' !in o.name
    requires var cerebroScript := Untildify(env.home, ScriptPath(o.shell, CerebroScriptName));
      !IsInShellConfig(env, cerebroScript) && cerebroScript != LocationFromShell(env, SystemShell(env))
    requires UninstallSpec(files, env, o).result.Ok?
    ensures var out := UninstallSpec(files, env, o).files;
      var cerebroScript := Untildify(env.home, ScriptPath(o.shell, CerebroScriptName));
      Untildify(env.home, ScriptPath(o.shell, o.name)) !in out
      && cerebroScript in out && !Contains(out[cerebroScript], Marker(false, o.name))
  {
    var completionScript := Untildify(env.home, ScriptPath(o.shell, o.name));
    var cerebroScript := Untildify(env.home, ScriptPath(o.shell, CerebroScriptName));
    UntildifyIdempotent(env.home, ScriptPath(o.shell, o.name));
    UntildifyIdempotent(env.home, ScriptPath(o.shell, CerebroScriptName));
    assert o.name != "" && o.shell != "";
    assert Untildify(env.home, completionScript) == completionScript;
    var f1 := if completionScript in files then files - {completionScript} else files;
    assert UninstallSpec(files, env, o) == RouterCleanupSpec(f1, env, cerebroScript, o.name);
    RouterCleanupRemovesMarker(f1, env, cerebroScript, o.name);
    assert completionScript !in f1;
  }

  /** A successful router cleanup keeps the set of paths and leaves no block for the package in the router script. */
  lemma RouterCleanupRemovesMarker(files: map<string, string>, env: Env, cerebroScript: string, name: string)
    requires '\n' !in name && Untildify(env.home, cerebroScript) == cerebroScript
    requires !IsInShellConfig(env, cerebroScript) && cerebroScript != LocationFromShell(env, SystemShell(env))
    requires RouterCleanupSpec(files, env, cerebroScript, name).result.Ok?
    ensures var out := RouterCleanupSpec(files, env, cerebroScript, name).files;
      out.Keys == files.Keys && cerebroScript in out && !Contains(out[cerebroScript], Marker(false, name))
  {
    var second := RemoveLinesSpec(files, env, cerebroScript, name);
    RemoveLinesKeepsPaths(files, env, cerebroScript, name);
    assert second.result.Ok? && cerebroScript in files;
    RemoveLinesRemovesMarker(files, env, cerebroScript, name);
    if Trim(second.files[cerebroScript]) == "" {
      RemoveLinesKeepsPaths(second.files, env, LocationFromShell(env, SystemShell(env)), name);
    }
  }
}
