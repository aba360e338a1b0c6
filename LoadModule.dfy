/**
 * The two module loaders (packages/cerebro-core/src/loaders/utils/load-module.ts
 * and load-require.ts): guard clauses around one dynamic import or
 * `require`, default-export unwrapping, and error classification.
 */
module LoadModule {
  import opened Js
  import opened Utils

  /** What `jetpack.exists(path)` reports for a path that exists. */
  datatype PathKind = FileKind | DirKind

  /**
   * The host the loaders run on, known only through these functions: the
   * filesystem's `exists` and `find`, and the outcome of importing or
   * requiring a module (its value, or the error it throws).
   */
  datatype Host = Host(
    pathKind: string -> Option<PathKind>,
    find: (string, seq<string>) -> seq<string>,
    importModule: string -> Result<Value>,
    requireModule: string -> Result<Value>)

  /** `isBlank(path)` for a string path. */
  predicate BlankPath(path: string)
  {
    IsBlank(Str(path)) == Ok(true)
  }

  predicate IsFile(host: Host, path: string)
  {
    host.pathKind(path) == Some(FileKind)
  }

  /** The guard clauses both loaders share, in order; None when both pass. */
  function Guard(host: Host, path: string): (r: Option<JsError>)
    ensures r.None? <==> !BlankPath(path) && IsFile(host, path)
    ensures BlankPath(path) ==> r == Some(Error("path is required"))
    ensures !BlankPath(path) && !IsFile(host, path) ==> r == Some(Error(path + " is not a file"))
  {
    if BlankPath(path) then Some(Error("path is required"))
    else if !IsFile(host, path) then Some(Error(path + " is not a file"))
    else None
  }

  /** The error codes that make a loader return undefined instead of throwing. */
  predicate IsModuleNotFound(e: JsError)
  {
    e.code == "MODULE_NOT_FOUND" || e.code == "ERR_MODULE_NOT_FOUND"
  }

  /** The catch block: a missing module reads as undefined, anything else is rethrown. */
  function Classify(r: Result<Value>): (out: Result<Value>)
    ensures r.Err? && IsModuleNotFound(r.error) ==> out == Ok(Undefined)
    ensures r.Err? && !IsModuleNotFound(r.error) ==> out == r
    ensures r.Ok? ==> out == r
  {
    match r
    case Ok(v) => Ok(v)
    case Err(e) => if IsModuleNotFound(e) then Ok(Undefined) else Err(e)
  }

  /** `esmResolver(output)`: a transpiled ES module's truthy `default`, else the value itself. */
  function EsmResolve(output: Value): Value
  {
    if Truthy(output) && Truthy(Get(output, "__esModule")) && Truthy(Get(output, "default"))
    then Get(output, "default")
    else output
  }

  /**
   * `module.default || module`. Reading `.default` of null or undefined
   * throws a TypeError inside the `try`, which the catch block rethrows.
   */
  function DefaultOrSelf(m: Value): Result<Value>
  {
    if IsNil(m) then Err(TypeError("Cannot read properties of " + (if m.Null? then "null" else "undefined") + " (reading 'default')"))
    else if Truthy(Get(m, "default")) then Ok(Get(m, "default"))
    else Ok(m)
  }

  /**
   * `loadModule(path)`. An imported value without a truthy `default` is the
   * result as it is; a CommonJS value with one gives that default; a
   * transpiled ES module gives its default, or the default's own truthy
   * `default`. An imported null or undefined throws a TypeError.
   */
  function LoadModule(host: Host, path: string): (r: Result<Value>)
    ensures Guard(host, path).Some? ==> r == Err(Guard(host, path).value)
    ensures Guard(host, path).None? && host.importModule(path).Err? ==> r == Classify(host.importModule(path))
    ensures Guard(host, path).None? && host.importModule(path).Ok? ==>
      var output := host.importModule(path).value;
      var d := Get(output, "default");
      && (IsNil(output) ==> r.Err? && r.error.kind == "TypeError")
      && (!IsNil(output) && !Truthy(d) ==> r == Ok(output))
      && (Truthy(d) && !Truthy(Get(output, "__esModule")) ==> r == Ok(d))
      && (Truthy(d) && Truthy(Get(output, "__esModule")) ==>
            r == if Truthy(Get(d, "default")) then Ok(Get(d, "default")) else Ok(d))
  {
    match Guard(host, path)
    case Some(e) => Err(e)
    case None =>
      match host.importModule(path)
      case Err(e) => Classify(Err(e))
      case Ok(output) => Classify(DefaultOrSelf(EsmResolve(output)))
  }

  /** `loadRequire(path)`: the same guards, and the required value as it is. */
  function LoadRequire(host: Host, path: string): (r: Result<Value>)
    ensures Guard(host, path).Some? ==> r == Err(Guard(host, path).value)
    ensures Guard(host, path).None? ==> r == Classify(host.requireModule(path))
  {
    match Guard(host, path)
    case Some(e) => Err(e)
    case None => Classify(host.requireModule(path))
  }

  /** A blank path or a path that is not a file fails before the module is imported or required. */
  lemma GuardsComeFirst(host1: Host, host2: Host, path: string)
    requires host1.pathKind == host2.pathKind
    requires Guard(host1, path).Some?
    ensures LoadModule(host1, path) == LoadModule(host2, path)
    ensures LoadRequire(host1, path) == LoadRequire(host2, path)
  {
  }

  /**
   * Unwrapping of an imported value: a transpiled ES module gives its
   * default export, and a CommonJS value with a truthy `default` gives that.
   */
  lemma LoadModuleUnwraps(host: Host, path: string, exported: Value)
    requires Guard(host, path).None?
    requires exported.Obj? && !Truthy(Get(exported, "default"))
    ensures host.importModule(path) == Ok(Obj(map["__esModule" := Bool(true), "default" := exported]))
      ==> LoadModule(host, path) == Ok(exported)
    ensures host.importModule(path) == Ok(Obj(map["default" := exported]))
      ==> LoadModule(host, path) == Ok(exported)
  {
    Unwrap(exported);
  }

  /**
   * Both unwraps apply in turn: an ES module whose default export has a
   * truthy `default` of its own gives that inner value.
   */
  lemma LoadModuleDoubleUnwrap(host: Host, path: string, inner: Value)
    requires Guard(host, path).None?
    requires Truthy(inner)
    requires host.importModule(path) == Ok(Obj(map["__esModule" := Bool(true), "default" := Obj(map["default" := inner])]))
    ensures LoadModule(host, path) == Ok(inner)
  {
    var output := host.importModule(path).value;
    NestedDefaults(inner);
    assert Truthy(Get(output, "default")) && Truthy(Get(output, "__esModule"));
  }

  /** The properties an ES module with a nested default export has. */
  lemma NestedDefaults(inner: Value)
    ensures var wrapped := Obj(map["default" := inner]);
      var esModule := Obj(map["__esModule" := Bool(true), "default" := wrapped]);
      Get(esModule, "__esModule") == Bool(true) && Get(esModule, "default") == wrapped && Get(wrapped, "default") == inner
  {
    assert "__esModule" != "default" by { assert "__esModule"[0] != "default"[0]; }
  }

  lemma Unwrap(exported: Value)
    requires exported.Obj? && !Truthy(Get(exported, "default"))
    ensures DefaultOrSelf(EsmResolve(Obj(map["__esModule" := Bool(true), "default" := exported]))) == Ok(exported)
    ensures DefaultOrSelf(EsmResolve(Obj(map["default" := exported]))) == Ok(exported)
  {
    assert "__esModule" != "default" by { assert "__esModule"[0] != "default"[0]; }
    var esModule := Obj(map["__esModule" := Bool(true), "default" := exported]);
    assert Get(esModule, "__esModule") == Bool(true) && Get(esModule, "default") == exported;
    var commonJs := Obj(map["default" := exported]);
    assert Get(commonJs, "__esModule") == Undefined && Get(commonJs, "default") == exported;
  }

  /** A module that is neither an ES module nor has a default export is returned as it is, by both loaders. */
  lemma LoadersAgreeOnPlainModules(host: Host, path: string, v: Value)
    requires Guard(host, path).None?
    requires v.Obj? && !Truthy(Get(v, "__esModule")) && !Truthy(Get(v, "default"))
    requires host.importModule(path) == Ok(v) && host.requireModule(path) == Ok(v)
    ensures LoadModule(host, path) == LoadRequire(host, path) == Ok(v)
  {
  }

  /** A module whose import yields undefined makes `loadModule` throw, where `loadRequire` returns it. */
  lemma UndefinedModuleThrows(host: Host, path: string)
    requires Guard(host, path).None?
    requires host.importModule(path) == Ok(Undefined) && host.requireModule(path) == Ok(Undefined)
    ensures LoadModule(host, path).Err? && LoadModule(host, path).error.kind == "TypeError"
    ensures LoadRequire(host, path) == Ok(Undefined)
  {
  }
}
