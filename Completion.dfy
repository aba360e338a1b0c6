/**
 * The entry points of shell completion: reading the COMP_* variables a shell
 * sets when it asks for completions, and the checks `install` and
 * `uninstall` make before handing over to the installer.
 */
module Completion {
  import opened Js
  import opened Strings
  import Installer

  /** The three variables a completing shell sets; None when a variable is unset. */
  datatype CompEnv = CompEnv(compCword: Option<string>, compPoint: Option<string>, compLine: Option<string>)

  /** What `parseEnvironment` reports; prev is None where the source leaves it undefined. */
  datatype ParsedEnvironment = ParsedEnvironment(
    complete: bool,
    words: int,
    point: int,
    line: string,
    partial: string,
    last: string,
    lastPartial: string,
    prev: Option<string>)

  const MissingEnvironment := "parseEnv: You must pass in an environment object."

  /** `Number(v)`, with NaN (an unset variable or an unparsable text) read as 0. */
  function NumberOrZero(v: Option<string>): int
  {
    if v.None? then 0
    else match ToNumber(v.value)
      case None => 0
      case Some(n) => n
  }

  /** A variable that is set and not empty. */
  predicate Present(v: Option<string>)
  {
    v.Some? && v.value != ""
  }

  /** The end index `s.slice(0, end)` uses: a negative end counts from the back, and both ends are clamped. */
  function SliceEnd(end: int, length: nat): (r: nat)
    ensures r <= length
    ensures 0 <= end <= length ==> r == end
    ensures end > length ==> r == length
    ensures end < 0 ==> r == if length + end < 0 then 0 else length + end
  {
    if end < 0 then (if length + end < 0 then 0 else length + end)
    else if end > length then length
    else end
  }

  /** `s.split(" ").slice(-1).join("")`: the last space-separated word. */
  function LastWord(s: string): string
  {
    var parts := SplitOn(s, ' ');
    parts[|parts| - 1]
  }

  /** `s.split(" ").slice(0, -1).slice(-1)[0]`: the word before the last one, None when there is only one. */
  function PreviousWord(s: string): Option<string>
  {
    var parts := SplitOn(s, ' ');
    if |parts| >= 2 then Some(parts[|parts| - 2]) else None
  }

  /**
   * `parseEnvironment(logger, environment)`. The debug line it logs is not
   * modelled.
   */
  function ParseEnvironment(environment: Option<CompEnv>): (r: Result<ParsedEnvironment>)
    ensures r.Err? <==> environment.None?
    ensures r.Err? ==> r.error == Error(MissingEnvironment)
  {
    match environment
    case None => Err(Error(MissingEnvironment))
    case Some(e) => Ok(Parse(e))
  }

  /** The record `parseEnvironment` builds from an environment object. */
  function Parse(e: CompEnv): ParsedEnvironment
  {
    var line := if Present(e.compLine) then e.compLine.value else "";
    var partial := line[..SliceEnd(NumberOrZero(e.compPoint), |line|)];
    var complete := Present(e.compCword) && Present(e.compPoint) && Present(e.compLine);
    ParsedEnvironment(complete, NumberOrZero(e.compCword), NumberOrZero(e.compPoint), line, partial,
                      LastWord(line), LastWord(partial), PreviousWord(line))
  }

  /**
   * The fields fit together: the partial line is a prefix of the line, the
   * two last words are space-free suffixes of the line and of the partial
   * line, and the request is a completion exactly when all three variables
   * are set and not empty.
   */
  lemma ParsedFields(e: CompEnv)
    ensures var p := Parse(e);
      && p.line == (if Present(e.compLine) then e.compLine.value else "")
      && StartsWith(p.line, p.partial)
      && EndsWith(p.line, p.last) && ' ' !in p.last
      && EndsWith(p.partial, p.lastPartial) && ' ' !in p.lastPartial
      && (p.complete <==> Present(e.compCword) && Present(e.compPoint) && Present(e.compLine))
  {
    var p := Parse(e);
    LastWordIsSuffix(p.line);
    LastWordIsSuffix(p.partial);
  }

  /** The last word is a space-free suffix of the text. */
  lemma LastWordIsSuffix(s: string)
    ensures EndsWith(s, LastWord(s)) && ' ' !in LastWord(s)
  {
    JoinSplit(s, ' ');
    LastPieceOfJoin(SplitOn(s, ' '), ' ');
  }

  /** The last piece of a join is a suffix of it. */
  lemma {:induction false} LastPieceOfJoin(xs: seq<string>, c: char)
    requires |xs| >= 1
    ensures EndsWith(Join(xs, [c]), xs[|xs| - 1])
    decreases |xs|
  {
    if |xs| > 1 {
      LastPieceOfJoin(xs[1..], c);
      var j := Join(xs[1..], [c]);
      assert Join(xs, [c]) == (xs[0] + [c]) + j;
      var w := xs[|xs| - 1];
      assert xs[1..][|xs[1..]| - 1] == w;
      assert j[|j| - |w|..] == w;
      assert Join(xs, [c])[|Join(xs, [c])| - |w|..] == j[|j| - |w|..];
    }
  }

  /** A text without spaces is one word with nothing before it. */
  lemma OneWord(b: string)
    requires ' ' !in b
    ensures LastWord(b) == b && PreviousWord(b) == None
  {
    SplitWithoutSeparator(b, ' ');
  }

  /**
   * After the last space comes the last word, and the word before it is the
   * last word of what precedes that space; with OneWord this fixes both
   * functions on every text.
   */
  lemma WordsAfterSpace(x: string, b: string)
    requires ' ' !in b
    ensures LastWord(x + " " + b) == b
    ensures PreviousWord(x + " " + b) == Some(LastWord(x))
  {
    SplitAround(x, ' ', b);
    SplitWithoutSeparator(b, ' ');
    assert x + " " + b == x + [' '] + b;
  }

  /** With the cursor at the end of the line, the partial line is the whole line. */
  lemma CursorAtEnd(cword: Option<string>, line: string)
    ensures var r := ParseEnvironment(Some(CompEnv(cword, Some(IntToString(|line|)), Some(line))));
      r.Ok? && r.value.partial == r.value.line && r.value.lastPartial == r.value.last
  {
    NumberOfIntToString(|line|);
  }

  /** Within the line, the cursor position is the length of the partial line. */
  lemma CursorInside(cword: Option<string>, line: string, point: int)
    requires 0 <= point <= |line|
    ensures var r := ParseEnvironment(Some(CompEnv(cword, Some(IntToString(point)), Some(line))));
      r.Ok? && |r.value.partial| == point && r.value.partial == line[..point]
  {
    NumberOfIntToString(point);
  }

  /**
   * The variables a shell sets read back as the numbers it wrote, and the
   * request is a completion exactly when the line is not empty.
   */
  lemma ParseWrittenEnvironment(words: int, point: int, line: string)
    ensures var r := ParseEnvironment(Some(CompEnv(Some(IntToString(words)), Some(IntToString(point)), Some(line))));
      r.Ok? && r.value.words == words && r.value.point == point && r.value.line == line
      && (r.value.complete <==> line != "")
  {
    var e := CompEnv(Some(IntToString(words)), Some(IntToString(point)), Some(line));
    NumberOfIntToString(words);
    NumberOfIntToString(point);
    assert NumberOrZero(e.compCword) == words && NumberOrZero(e.compPoint) == point;
    assert Present(e.compCword) && Present(e.compPoint);
    assert ParseEnvironment(Some(e)) == Ok(Parse(e));
  }

  /** An unset or unparsable cursor position reads as 0, so the partial line is empty. */
  lemma NoCursor(cword: Option<string>, point: Option<string>, line: Option<string>)
    requires point.None? || ToNumber(point.value).None?
    ensures var r := ParseEnvironment(Some(CompEnv(cword, point, line)));
      r.Ok? && r.value.point == 0 && r.value.partial == "" && r.value.lastPartial == ""
  {
    SplitWithoutSeparator("", ' ');
  }

  /** `SHELL_LOCATIONS[shell]`: the configuration file of a supported shell. */
  function ShellLocation(shell: string): (r: Option<string>)
    ensures r.Some? <==> shell in {"bash", "zsh", "fish"}
    ensures r.Some? ==> r.value != "" && r.value[0] == '~'
  {
    if shell == "bash" then Some("~/.bashrc")
    else if shell == "zsh" then Some("~/.zshrc")
    else if shell == "fish" then Some("~/.config/fish/config.fish")
    else None
  }

  /**
   * The checks of `install(logger, options)`: name, completer and a known
   * shell, in that order; completeCmd defaults to "completion" when unset
   * or empty.
   */
  function InstallRequest(name: string, completer: string, shell: string, completeCmd: Option<string>)
    : (r: Result<Installer.InstallOptions>)
    ensures name == "" ==> r == Err(TypeError("options.name is required"))
    ensures name != "" && completer == "" ==> r == Err(TypeError("options.completer is required"))
    ensures name != "" && completer != "" ==> (r.Ok? <==> ShellLocation(shell).Some?)
    ensures name != "" && completer != "" && ShellLocation(shell).None? ==>
              r == Err(Error("Couldn't find shell location for " + shell))
    ensures r.Ok? ==> r.value.name == name && r.value.completer == completer && r.value.shell == shell
    ensures r.Ok? ==> r.value.completeCmd == if Present(completeCmd) then completeCmd.value else "completion"
  {
    if name == "" then Err(TypeError("options.name is required"))
    else if completer == "" then Err(TypeError("options.completer is required"))
    else match ShellLocation(shell)
      case None => Err(Error("Couldn't find shell location for " + shell))
      case Some(location) =>
        var cmd := if Present(completeCmd) then completeCmd.value else "completion";
        Ok(Installer.InstallOptions(name, completer, location, shell, cmd))
  }

  /** Options that pass these checks pass the installer's own: its errors cannot be reached from here. */
  lemma InstallRequestAccepted(name: string, completer: string, shell: string, completeCmd: Option<string>)
    requires InstallRequest(name, completer, shell, completeCmd).Ok?
    ensures var o := InstallRequest(name, completer, shell, completeCmd).value;
      o.name != "" && o.completer != "" && o.location != "" && o.completeCmd != ""
  {
  }

  /** `install(logger, options)`: validate, then let the installer write its three files. */
  method Install(disk: Installer.Disk, env: Installer.Env, name: string, completer: string, shell: string,
                 completeCmd: Option<string>) returns (r: Result<()>)
    modifies disk
    ensures var request := InstallRequest(name, completer, shell, completeCmd);
      && (request.Err? ==> r == Err(request.error) && disk.files == old(disk.files))
      && (request.Ok? ==> r == Ok(()) && disk.files == Installer.InstalledFiles(old(disk.files), env, request.value))
  {
    var request := InstallRequest(name, completer, shell, completeCmd);
    if request.Err? {
      return Err(request.error);
    }
    r := Installer.Install(disk, env, request.value);
  }

  /** `error.toString()`: the constructor name, then ": " and the message when there is one. */
  function ErrorText(e: JsError): (r: string)
    ensures StartsWith(r, e.kind) && (e.message != "" ==> EndsWith(r, e.message))
  {
    if e.message == "" then e.kind else e.kind + ": " + e.message
  }

  /** The line `uninstall` logs when the installer throws. */
  function UninstallErrorLine(e: JsError): string
  {
    "ERROR while uninstalling; " + ErrorText(e)
  }

  /**
   * `uninstall(logger, options)`: only a missing name throws; whatever the
   * installer throws is logged as an error line and swallowed.
   */
  method Uninstall(disk: Installer.Disk, env: Installer.Env, name: string, shell: string)
    returns (r: Result<()>, errors: seq<string>)
    modifies disk
    ensures name == "" ==> r == Err(TypeError("options.name is required")) && errors == []
                           && disk.files == old(disk.files)
    ensures name != "" ==> r == Ok(())
    ensures name != "" ==>
      var out := Installer.UninstallSpec(old(disk.files), env, Installer.UninstallOptions(name, shell));
      disk.files == out.files && errors == if out.result.Err? then [UninstallErrorLine(out.result.error)] else []
  {
    errors := [];
    if name == "" {
      return Err(TypeError("options.name is required")), errors;
    }
    var inner := Installer.Uninstall(disk, env, Installer.UninstallOptions(name, shell));
    if inner.Err? {
      errors := [UninstallErrorLine(inner.error)];
    }
    r := Ok(());
  }

  /** Without a shell the installer refuses before touching any file, so `uninstall` only logs. */
  lemma UninstallWithoutShell(files: map<string, string>, env: Installer.Env, name: string)
    requires name != ""
    ensures var out := Installer.UninstallSpec(files, env, Installer.UninstallOptions(name, ""));
      out == Installer.Outcome(Err(Error("Unable to uninstall if options.shell is missing")), files)
  {
  }
}
