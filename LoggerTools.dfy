/**
 * The logger (packages/cerebro-core/src/toolbox/logger-tools.ts): which
 * output types the verbosity level lets through, the text each output
 * method returns (colours aside), the defaults and validation of
 * `print(config)`, and the arithmetic of `line` and `center`.
 *
 * The level is the text of CEREBRO_OUTPUT_LEVEL, None when it is unset;
 * the terminal width is a parameter.
 */
module Logger {
  import opened Js
  import opened Strings
  import opened PrintTools

  /** `Number(process.env.CEREBRO_OUTPUT_LEVEL)`; None stands for NaN. */
  function Level(levelText: Option<string>): Option<int>
  {
    if levelText.None? then None else ToNumber(levelText.value)
  }

  predicate IsDebug(levelText: Option<string>)
  {
    Level(levelText) == Some(VerbosityDebug)
  }

  predicate IsVerbose(levelText: Option<string>)
  {
    Level(levelText) == Some(VerbosityVerbose)
  }

  predicate IsVeryVerbose(levelText: Option<string>)
  {
    Level(levelText) == Some(VerbosityVeryVerbose)
  }

  predicate IsQuiet(levelText: Option<string>)
  {
    Level(levelText) == Some(VerbosityQuiet)
  }

  /** The output types gated on a normal or higher level. */
  predicate IsLevelled(kind: string)
  {
    kind in ["danger", "error", "info", "note", "notice", "status", "success", "warning"]
  }

  /** `isPrintable(name)`. */
  predicate IsPrintable(levelText: Option<string>, kind: string)
  {
    if kind == "debug" then !IsQuiet(levelText) && IsDebug(levelText)
    else if IsLevelled(kind) then
      !IsQuiet(levelText)
      && Level(levelText).Some?
      && Level(levelText).value in [VerbosityNormal, VerbosityVerbose, VerbosityVeryVerbose, VerbosityDebug]
    else true
  }

  /** With the level set to the text of a number n, debug output is allowed exactly for n = 256. */
  lemma DebugOnlyAtDebugLevel(n: int)
    ensures IsPrintable(Some(IntToString(n)), "debug") <==> n == VerbosityDebug
  {
    NumberOfIntToString(n);
  }

  /** With the level set to the text of a number n, the levelled types are allowed exactly for 32, 64, 128 and 256. */
  lemma LevelledFromNormalUp(n: int, kind: string)
    requires IsLevelled(kind)
    ensures IsPrintable(Some(IntToString(n)), kind) <==> n in {VerbosityNormal, VerbosityVerbose, VerbosityVeryVerbose, VerbosityDebug}
  {
    LevelOfText(n);
    PrintableAtLevel(Some(IntToString(n)), kind, n);
  }

  /** A levelled type is allowed exactly at the normal, verbose, very verbose and debug levels. */
  lemma PrintableAtLevel(levelText: Option<string>, kind: string, n: int)
    requires IsLevelled(kind) && Level(levelText) == Some(n)
    ensures IsPrintable(levelText, kind) <==> n in {VerbosityNormal, VerbosityVerbose, VerbosityVeryVerbose, VerbosityDebug}
  {
    DebugNotLevelled();
    assert kind != "debug";
    assert IsPrintable(levelText, kind) == (n != VerbosityQuiet && n in [VerbosityNormal, VerbosityVerbose, VerbosityVeryVerbose, VerbosityDebug]);
    LevelListIsSet(n);
  }

  lemma LevelListIsSet(n: int)
    ensures n != VerbosityQuiet && n in [VerbosityNormal, VerbosityVerbose, VerbosityVeryVerbose, VerbosityDebug]
            <==> n in {VerbosityNormal, VerbosityVerbose, VerbosityVeryVerbose, VerbosityDebug}
  {
  }

  lemma DebugNotLevelled()
    ensures !IsLevelled("debug")
  {
    assert "debug"[0] != "error"[0];
  }

  lemma LevelOfText(n: int)
    ensures Level(Some(IntToString(n))) == Some(n)
  {
    NumberOfIntToString(n);
  }

  /** Any other type, critical among them, is always allowed; with the level unset nothing gated is. */
  lemma OtherTypesAlwaysPrintable(levelText: Option<string>, kind: string)
    requires kind != "debug" && !IsLevelled(kind)
    ensures IsPrintable(levelText, kind)
    ensures IsPrintable(None, "critical")
    ensures !IsPrintable(None, "info") && !IsPrintable(None, "debug")
  {
  }

  /** `icons[type]`. */
  function Icon(kind: string): string
  {
    match kind
    case "critical" => "\U{1F6AB}"
    case "danger" => "\U{1F6AB}"
    case "debug" => "\U{25FC}"
    case "error" => "\U{2716}"
    case "info" => "\U{233D}"
    case "log" => "\U{21E2}"
    case "note" => "\U{25C9}"
    case "notice" => "\U{25C9}"
    case "status" => "\U{25EF}"
    case "success" => "\U{2714}"
    case "warning" => "\U{26A0}\U{FE0F}"
    case _ => "undefined"
  }

  /** An item of `Array.prototype.join`: null and undefined become "". */
  function ItemText(v: Value): string
  {
    if IsNil(v) then "" else Display(v)
  }

  /**
   * `formatMessage(message)`: an array is joined with single spaces, an
   * object (or null) becomes the dumper's text between line breaks, and
   * anything else is used as it is. The dumper is a parameter.
   */
  function FormatMessage(message: Value, dump: Value -> string): (r: string)
    ensures message.Str? ==> r == message.s
    ensures message.Arr? ==> r == Join(seq(|message.items|, i requires 0 <= i < |message.items| => ItemText(message.items[i])), " ")
    ensures message.Obj? || message.Null? ==> r == "\r\n" + dump(message) + "\r\n"
  {
    match message
    case Arr(items) => Join(seq(|items|, i requires 0 <= i < |items| => ItemText(items[i])), " ")
    case Obj(_) => "\r\n" + dump(message) + "\r\n"
    case Null => "\r\n" + dump(message) + "\r\n"
    case _ => Display(message)
  }

  /** An array of strings is joined with single spaces. */
  lemma FormatStrings(words: seq<string>, dump: Value -> string)
    ensures FormatMessage(Arr(seq(|words|, i requires 0 <= i < |words| => Str(words[i]))), dump) == Join(words, " ")
  {
    var items := seq(|words|, i requires 0 <= i < |words| => Str(words[i]));
    assert seq(|items|, i requires 0 <= i < |items| => ItemText(items[i])) == words;
  }

  /** What follows the icon: two spaces after critical's, one after any other. */
  function IconGap(kind: string): string
  {
    if kind == "critical" then "  " else " "
  }

  /** The text every output method builds (colours aside): the padded label and a space, the icon, then the message. */
  function Render(kind: string, message: Value, labelText: Value, showIcon: Value, dump: Value -> string): string
  {
    var l := if Truthy(labelText) then " " + Display(labelText) + " " else "";
    var icon := if Truthy(showIcon) then Icon(kind) + IconGap(kind) else "";
    l + (if l != "" then " " else "") + icon + FormatMessage(message, dump)
  }

  /**
   * `critical`, `error`, `danger`, `success`, `warning`, `info`, `debug`,
   * `status`, `notice`, `note` and `log`: "" when the type is not printable,
   * otherwise the rendered text. `log` does not consult the level.
   */
  function Emit(levelText: Option<string>, kind: string, message: Value, labelText: Value, showIcon: Value,
                dump: Value -> string): (r: string)
    ensures kind != "log" && !IsPrintable(levelText, kind) ==> r == ""
    ensures (kind == "log" || IsPrintable(levelText, kind)) ==> EndsWith(r, FormatMessage(message, dump))
    ensures !Truthy(labelText) && !Truthy(showIcon) && (kind == "log" || IsPrintable(levelText, kind)) ==>
      r == FormatMessage(message, dump)
  {
    if kind != "log" && !IsPrintable(levelText, kind) then ""
    else
      var l := if Truthy(labelText) then " " + Display(labelText) + " " else "";
      var icon := if Truthy(showIcon) then Icon(kind) + IconGap(kind) else "";
      var prefix := l + (if l != "" then " " else "") + icon;
      var r := Render(kind, message, labelText, showIcon, dump);
      assert r == prefix + FormatMessage(message, dump);
      assert r[|r| - |FormatMessage(message, dump)|..] == FormatMessage(message, dump);
      r
  }

  /** The output types `print` can dispatch to. */
  predicate IsOutputType(kind: string)
  {
    kind == "critical" || kind == "debug" || kind == "log" || IsLevelled(kind)
  }

  /** `log` gives the same text whatever the level. */
  lemma LogIgnoresLevel(l1: Option<string>, l2: Option<string>, message: Value, labelText: Value, showIcon: Value,
                        dump: Value -> string)
    ensures Emit(l1, "log", message, labelText, showIcon, dump) == Emit(l2, "log", message, labelText, showIcon, dump)
    ensures Emit(Some(IntToString(VerbosityQuiet)), "log", message, labelText, showIcon, dump) == Render("log", message, labelText, showIcon, dump)
  {
  }

  /** A label is shown padded and followed by a space; an icon by one space. */
  lemma RenderLabelAndIcon(message: string, labelText: string, dump: Value -> string)
    requires labelText != ""
    ensures Render("error", Str(message), Str(labelText), Bool(true), dump) == " " + labelText + "  " + Icon("error") + " " + message
  {
  }

  /** Critical's icon is followed by two spaces, with or without a label. */
  lemma RenderCriticalIcon(message: string, labelText: string, dump: Value -> string)
    ensures Render("critical", Str(message), Str(""), Bool(true), dump) == Icon("critical") + "  " + message
    ensures labelText != "" ==>
      Render("critical", Str(message), Str(labelText), Bool(true), dump) == " " + labelText + "  " + Icon("critical") + "  " + message
  {
  }

  /** The configuration object `print` builds and `validateConfig` changes in place. */
  class Config {
    var kind: Value
    var msg: Value
    var labelText: Value
    var icon: Value

    constructor(kind: Value, msg: Value, labelText: Value, icon: Value)
      ensures this.kind == kind && this.msg == msg && this.labelText == labelText && this.icon == icon
    {
      this.kind := kind;
      this.msg := msg;
      this.labelText := labelText;
      this.icon := icon;
    }
  }

  /** `validateConfig(config)`: an empty type becomes "info" and a falsy label "", on the object itself. */
  method ValidateConfig(config: Config) returns (r: Config)
    modifies config
    ensures r == config
    ensures config.kind == (if old(config.kind) == Str("") then Str("info") else old(config.kind))
    ensures config.labelText == (if Truthy(old(config.labelText)) then old(config.labelText) else Str(""))
    ensures config.msg == old(config.msg) && config.icon == old(config.icon)
  {
    config.kind := if config.kind == Str("") then Str("info") else config.kind;
    config.labelText := if Truthy(config.labelText) then config.labelText else Str("");
    return config;
  }

  /** The properties a caller passes to `print`; None when not given. */
  datatype PrintInit = PrintInit(kind: Option<Value>, msg: Option<Value>, labelText: Option<Value>, icon: Option<Value>)

  function Given(o: Option<Value>, d: Value): Value
  {
    if o.Some? then o.value else d
  }

  /**
   * `print(config)`: type "info", msg "" and icon false unless given, then
   * validated, then `this[type](msg, label, icon)`: an output method, `line`
   * or `center` (whose fill is the label). A type that names no method
   * throws; so does a message `line` cannot repeat or `center` cannot
   * measure, and a non-string fill that `center` has to repeat.
   */
  method Print(levelText: Option<string>, init: PrintInit, width: int, dump: Value -> string) returns (r: Result<string>)
    ensures var kind := Given(init.kind, Str("info"));
      var kindName := if kind == Str("") then "info" else Display(kind);
      var msg := Given(init.msg, Str(""));
      var labelText := Given(init.labelText, Undefined);
      var fill := if Truthy(labelText) then labelText else Str("");
      && ((kind.Str? && IsOutputType(kindName)) ==>
            r == Ok(Emit(levelText, kindName, msg, fill, Given(init.icon, Bool(false)), dump)))
      && ((kind.Str? && kindName == "line") ==>
            (msg.Str? ==> r == Line(msg.s, width))
            && (msg.Undefined? ==> r == Line("", width))
            && (!msg.Str? && !msg.Undefined? ==> r.Err? && r.error.kind == "TypeError"))
      && ((kind.Str? && kindName == "center") ==>
            (msg.Str? && fill.Str? ==> r == Center(msg.s, fill.s, width))
            && (msg.Str? && !fill.Str? ==> r == if |msg.s| >= width then Ok(msg.s) else Err(TypeError("fillText.repeat is not a function")))
            && (!msg.Str? ==> r.Err? && r.error.kind == "TypeError"))
      && (!(kind.Str? && (IsOutputType(kindName) || kindName == "line" || kindName == "center")) ==>
            r.Err? && r.error.kind == "TypeError")
    ensures init == PrintInit(None, None, None, None) ==> r == Ok("")
  {
    var config := new Config(Given(init.kind, Str("info")), Given(init.msg, Str("")), Given(init.labelText, Undefined),
                             Given(init.icon, Bool(false)));
    var alertConfig := ValidateConfig(config);
    var kind := alertConfig.kind;
    var msg := alertConfig.msg;
    if kind.Str? && IsOutputType(kind.s) {
      return Ok(Emit(levelText, kind.s, msg, alertConfig.labelText, alertConfig.icon, dump));
    }
    if kind == Str("line") {
      if msg.Str? {
        return Line(msg.s, width);
      } else if msg.Undefined? {
        return Line("", width);
      }
      return Err(TypeError("message.repeat is not a function"));
    }
    if kind == Str("center") {
      if !msg.Str? {
        return Err(TypeError("Expected a `string`"));
      }
      var fill := alertConfig.labelText;
      if fill.Str? {
        return Center(msg.s, fill.s, width);
      } else if |msg.s| >= width {
        return Ok(msg.s);
      }
      return Err(TypeError("fillText.repeat is not a function"));
    }
    return Err(TypeError("this[alertConfig.type] is not a function"));
  }

  /** `line(message)`: the message repeated width - 2 times; a width below 2 makes `repeat` throw. */
  function Line(message: string, width: int): (r: Result<string>)
    ensures width < 2 <==> r.Err?
    ensures r.Ok? ==> |r.value| == |message| * (width - 2)
    ensures r.Ok? && |message| > 0 ==> forall i :: 0 <= i < |r.value| ==> r.value[i] == message[i % |message|]
  {
    if width < 2 then Err(RangeError("Invalid count value: " + IntToString(width - 2)))
    else
      if |message| > 0 then
        RepeatPeriodic(message, width - 2);
        Ok(Repeat(message, width - 2))
      else
        Ok(Repeat(message, width - 2))
  }

  /** Each character of a repetition is the corresponding character of the repeated text. */
  lemma {:induction false} RepeatPeriodic(s: string, n: nat)
    requires |s| > 0
    ensures forall i :: 0 <= i < |Repeat(s, n)| ==> Repeat(s, n)[i] == s[i % |s|]
    decreases n
  {
    if n > 0 {
      RepeatPeriodic(s, n - 1);
      var rest := Repeat(s, n - 1);
      assert Repeat(s, n) == s + rest;
      forall i | 0 <= i < |Repeat(s, n)|
        ensures Repeat(s, n)[i] == s[i % |s|]
      {
        if i >= |s| {
          assert Repeat(s, n)[i] == rest[i - |s|];
          ModShift(i, |s|);
        }
      }
    }
  }

  lemma ModShift(i: int, m: int)
    requires 0 < m <= i
    ensures (i - m) % m == i % m
  {
    var q := (i - m) / m;
    var r := (i - m) % m;
    assert i - m == m * q + r;
    assert i == m * (q + 1) + r;
    DivModUnique(i, m, q + 1, r);
  }

  /** Euclidean division has one quotient and one remainder. */
  lemma DivModUnique(x: int, m: int, q: int, r: int)
    requires 0 < m && 0 <= r < m && x == m * q + r
    ensures x % m == r
  {
    var q' := x / m;
    var r' := x % m;
    assert x == m * q' + r';
    var d := q - q';
    assert m * q - m * q' == m * d by { MulSub(m, q, q'); }
    assert m * d == r' - r;
    if d > 0 { MulMono(m, d); }
    if d < 0 { MulMono(m, -d); }
    assert d == 0;
  }

  lemma MulSub(m: int, a: int, b: int)
    ensures m * a - m * b == m * (a - b)
  {
  }

  lemma MulMono(m: int, d: int)
    requires m > 0 && d >= 1
    ensures m * d >= m
  {
  }

  /**
   * `center(message, fillText)`: a message at least as wide as the
   * terminal is returned as it is; otherwise the fill is repeated
   * ⌊⌊(width − len) / 2⌋ / |fill|⌋ times on each side. An empty fill with a
   * positive half-gap repeats infinitely often, which `repeat` rejects.
   */
  function Center(message: string, fillText: string, width: int): (r: Result<string>)
    ensures |message| >= width ==> r == Ok(message)
    ensures |message| < width && |fillText| > 0 ==>
      var count := (width - |message|) / 2 / |fillText|;
      r == Ok(Repeat(fillText, count) + message + Repeat(fillText, count))
    ensures |message| < width && |fillText| == 0 ==> (r.Err? <==> (width - |message|) / 2 > 0)
  {
    if |message| >= width then Ok(message)
    else
      var left := (width - |message|) / 2;
      if |fillText| == 0 then
        if left > 0 then Err(RangeError("Invalid count value: Infinity")) else Ok(message)
      else
        var pad := Repeat(fillText, left / |fillText|);
        Ok(pad + message + pad)
  }

  /** The centred text is never wider than the terminal, and the message sits in the middle. */
  lemma CenterFits(message: string, fillText: string, width: int)
    requires |fillText| > 0 && Center(message, fillText, width).Ok?
    ensures var r := Center(message, fillText, width).value;
      |message| <= |r| && (|message| < width ==> |r| <= width)
      && (|r| - |message|) % 2 == 0
      && r[(|r| - |message|) / 2..(|r| - |message|) / 2 + |message|] == message
  {
    var r := Center(message, fillText, width).value;
    if |message| < width {
      var left := (width - |message|) / 2;
      var count := left / |fillText|;
      var pad := Repeat(fillText, count);
      assert count * |fillText| <= left;
      assert r == pad + message + pad;
      assert r[|pad|..|pad| + |message|] == message;
    }
  }
}
