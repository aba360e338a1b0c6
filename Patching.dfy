/**
 * The patching extension: inserting text next to an anchor, replacing or
 * deleting the first occurrence of a string, folding several patches over a
 * text, and the read-modify-write of a file that `update`, `append`,
 * `prepend`, `replace` and `patch` share. Patterns are strings; regular
 * expressions are not modelled.
 */
module Patching {
  import opened Js
  import opened Strings
  import opened Utils

  /** `PatchingPatchOptions`; an unset key is None, and an unset force is false. */
  datatype PatchOptions = PatchOptions(
    insert: Option<string>,
    before: Option<string>,
    after: Option<string>,
    replace: Option<string>,
    delete: Option<string>,
    force: bool)

  /** A string option that is set and not empty, i.e. truthy. */
  predicate Set(v: Option<string>)
  {
    v.Some? && v.value != ""
  }

  /** `a || b` on optional strings. */
  function Or(a: Option<string>, b: Option<string>): (r: Option<string>)
    ensures Set(a) ==> r == a
    ensures !Set(a) ==> r == b
  {
    if Set(a) then a else b
  }

  /** `isPatternIncluded(data, findPattern)` for a string pattern: an unset or empty pattern is never included. */
  predicate IsPatternIncluded(data: string, findPattern: Option<string>)
  {
    Set(findPattern) && Contains(data, findPattern.value)
  }

  /** `options.insert || ""`. */
  function InsertText(o: PatchOptions): string
  {
    if o.insert.Some? then o.insert.value else ""
  }

  /**
   * `insertNextToPattern(data, options)`: the anchor is before, else after;
   * None stands for false. The insert goes after the anchor whenever after
   * is set, even when the anchor came from before.
   */
  function InsertNextToPattern(data: string, o: PatchOptions): (r: Option<string>)
    ensures r.Some? <==> IsPatternIncluded(data, Or(o.before, o.after))
    ensures r.Some? ==> |r.value| == |data| + |InsertText(o)|
  {
    var findPattern := Or(o.before, o.after);
    if findPattern.None? || !IsPatternIncluded(data, findPattern) then None
    else
      var anchor := findPattern.value;
      var newContents := if Set(o.after) then anchor + InsertText(o) else InsertText(o) + anchor;
      ReplaceFirstLength(data, anchor, newContents);
      Some(ReplaceFirst(data, anchor, newContents))
  }

  /** Replacing the first occurrence of p changes the length by the difference of the two texts. */
  lemma ReplaceFirstLength(s: string, p: string, r: string)
    requires Contains(s, p)
    ensures |ReplaceFirst(s, p, r)| == |s| - |p| + |r|
  {
  }

  /**
   * `patchString(data, options)`; None stands for false. It refuses when
   * insert is unset or already present without force; delete, else
   * replace, names a target whose first occurrence becomes the insert;
   * otherwise the insert goes next to an anchor.
   */
  function PatchString(data: string, o: PatchOptions): (r: Option<string>)
    ensures o.insert.None? ==> r.None?
    ensures IsPatternIncluded(data, o.insert) && !o.force ==> r.None?
    ensures Set(Or(o.delete, o.replace)) && !IsPatternIncluded(data, Or(o.delete, o.replace)) ==> r.None?
    ensures r.Some? && Set(Or(o.delete, o.replace)) ==>
              |r.value| == |data| - |Or(o.delete, o.replace).value| + |o.insert.value|
    ensures r.Some? && !Set(Or(o.delete, o.replace)) ==> |r.value| == |data| + |o.insert.value|
  {
    if o.insert.None? || (IsPatternIncluded(data, o.insert) && !o.force) then None
    else
      var replaceString := Or(o.delete, o.replace);
      if Set(replaceString) then
        if !IsPatternIncluded(data, replaceString) then None
        else
          ReplaceFirstLength(data, replaceString.value, o.insert.value);
          Some(ReplaceFirst(data, replaceString.value, o.insert.value))
      else InsertNextToPattern(data, o)
  }

  /** Options that insert ins before the anchor. */
  function Before(ins: string, anchor: string): PatchOptions
  {
    PatchOptions(Some(ins), Some(anchor), None, None, None, false)
  }

  /** Options that insert ins after the anchor. */
  function After(ins: string, anchor: string): PatchOptions
  {
    PatchOptions(Some(ins), None, Some(anchor), None, None, false)
  }

  /** Options that delete the target. */
  function Delete(target: string): PatchOptions
  {
    PatchOptions(Some(""), None, None, None, Some(target), false)
  }

  /** Options that replace the target by ins. */
  function Replace(ins: string, target: string): PatchOptions
  {
    PatchOptions(Some(ins), None, None, Some(target), None, false)
  }

  /** Text in which p occurs first right after x. */
  predicate FirstAfter(x: string, p: string)
  {
    |p| > 0 && !Contains(x + p[..|p| - 1], p)
  }

  /** Inserting before an anchor puts the text right before its first occurrence. */
  lemma InsertBeforeFirst(x: string, anchor: string, y: string, ins: string)
    requires FirstAfter(x, anchor) && !Contains(x + anchor + y, ins)
    ensures PatchString(x + anchor + y, Before(ins, anchor)) == Some(x + ins + anchor + y)
  {
    ContainsSplice(x, anchor, y);
    ReplaceFirstSplice(x, anchor, y, ins + anchor);
    assert x + (ins + anchor) + y == x + ins + anchor + y;
  }

  /** Inserting after an anchor puts the text right after its first occurrence. */
  lemma InsertAfterFirst(x: string, anchor: string, y: string, ins: string)
    requires FirstAfter(x, anchor) && !Contains(x + anchor + y, ins)
    ensures PatchString(x + anchor + y, After(ins, anchor)) == Some(x + anchor + ins + y)
  {
    ContainsSplice(x, anchor, y);
    ReplaceFirstSplice(x, anchor, y, anchor + ins);
    assert x + (anchor + ins) + y == x + anchor + ins + y;
  }

  /** Deleting removes the first occurrence of the target and nothing else. */
  lemma DeleteFirst(x: string, target: string, y: string)
    requires FirstAfter(x, target)
    ensures PatchString(x + target + y, Delete(target)) == Some(x + y)
  {
    ContainsSplice(x, target, y);
    ReplaceFirstSplice(x, target, y, "");
    assert x + "" + y == x + y;
  }

  /** Options that name a target to delete and no insert. */
  function DeleteOnly(target: string): PatchOptions
  {
    PatchOptions(None, None, None, None, Some(target), false)
  }

  /**
   * As written, a delete without an insert is refused by the first check,
   * although the target is there: the file is left as it is.
   */
  lemma DeleteWithoutInsertRefused(x: string, target: string, y: string)
    requires FirstAfter(x, target)
    ensures Contains(x + target + y, target)
    ensures PatchString(x + target + y, DeleteOnly(target)) == None
  {
    ContainsSplice(x, target, y);
  }

  /**
   * `patchString` as its comments describe it (patching-tools.ts:154 and
   * :162): a delete without an insert replaces the target by "".
   */
  function PatchStringIntended(data: string, o: PatchOptions): (r: Option<string>)
    ensures o.insert.Some? || !Set(o.delete) ==> r == PatchString(data, o)
    ensures o.insert.None? && Set(o.delete) ==> (r.Some? <==> Contains(data, o.delete.value))
  {
    if o.insert.None? && Set(o.delete) then PatchString(data, o.(insert := Some(""))) else PatchString(data, o)
  }

  /** With the intended reading, a delete alone removes the first occurrence of the target and nothing else. */
  lemma DeleteWithoutInsertIntended(x: string, target: string, y: string)
    requires FirstAfter(x, target)
    ensures PatchStringIntended(x + target + y, DeleteOnly(target)) == Some(x + y)
  {
    assert DeleteOnly(target).(insert := Some("")) == Delete(target);
    DeleteFirst(x, target, y);
  }

  /** Replacing puts the insert in place of the first occurrence of the target. */
  lemma ReplaceTargetFirst(x: string, target: string, y: string, ins: string)
    requires FirstAfter(x, target) && !Contains(x + target + y, ins)
    ensures PatchString(x + target + y, Replace(ins, target)) == Some(x + ins + y)
  {
    ContainsSplice(x, target, y);
    ReplaceFirstSplice(x, target, y, ins);
  }

  /**
   * With both before and after set, the anchor is before but the insert
   * lands after it.
   */
  lemma BothAnchorsInsertAfterBefore(x: string, anchor: string, y: string, ins: string, other: string)
    requires FirstAfter(x, anchor) && !Contains(x + anchor + y, ins) && other != ""
    ensures PatchString(x + anchor + y, PatchOptions(Some(ins), Some(anchor), Some(other), None, None, false))
            == Some(x + anchor + ins + y)
  {
    ContainsSplice(x, anchor, y);
    ReplaceFirstSplice(x, anchor, y, anchor + ins);
    assert x + (anchor + ins) + y == x + anchor + ins + y;
  }

  /** A successful patch leaves the insert in the text. */
  lemma PatchStringContainsInsert(data: string, o: PatchOptions)
    requires PatchString(data, o).Some?
    ensures Contains(PatchString(data, o).value, o.insert.value)
  {
    var replaceString := Or(o.delete, o.replace);
    if Set(replaceString) {
      ReplaceFirstContains(data, replaceString.value, o.insert.value);
    } else {
      InsertNextContains(data, o);
    }
  }

  /** Inserting next to an anchor leaves the insert in the text. */
  lemma InsertNextContains(data: string, o: PatchOptions)
    requires InsertNextToPattern(data, o).Some?
    ensures Contains(InsertNextToPattern(data, o).value, InsertText(o))
  {
    var anchor := Or(o.before, o.after).value;
    var ins := InsertText(o);
    var out := InsertNextToPattern(data, o).value;
    if Set(o.after) {
      ReplaceFirstContains(data, anchor, anchor + ins);
      assert anchor + ins == anchor + ins + "";
      ContainsWithin(out, anchor, ins, "");
    } else {
      ReplaceFirstContains(data, anchor, ins + anchor);
      assert ins + anchor == "" + ins + anchor;
      ContainsWithin(out, "", ins, anchor);
    }
  }

  /** A text that contains a + p + b contains p. */
  lemma ContainsWithin(s: string, a: string, p: string, b: string)
    requires Contains(s, a + p + b)
    ensures Contains(s, p)
  {
    var i :| 0 <= i <= |s| && StartsWith(s[i..], a + p + b);
    assert s[i + |a|..][..|p|] == (a + p + b)[|a|..|a| + |p|];
    ContainsAt(s, p, i + |a|);
  }

  /** Without force, a patch with a non-empty insert applies once: the second time it is refused. */
  lemma PatchStringOnce(data: string, o: PatchOptions)
    requires !o.force && PatchString(data, o).Some? && o.insert.value != ""
    ensures PatchString(PatchString(data, o).value, o).None?
  {
    PatchStringContainsInsert(data, o);
  }

  /** One step of `patch`'s reduce: a refused option keeps the text, and so does one that yields "". */
  function PatchStep(data: string, o: PatchOptions): string
  {
    match PatchString(data, o)
    case None => data
    case Some(s) => if s == "" then data else s
  }

  /** The reduce of `patch`: the options applied left to right. */
  function PatchAll(data: string, options: seq<PatchOptions>): string
    decreases |options|
  {
    if |options| == 0 then data
    else PatchAll(PatchStep(data, options[0]), options[1..])
  }

  /** The callback of `patch`: the folded text, or false (None) when it equals the original. */
  function PatchCallback(options: seq<PatchOptions>): string -> Option<string>
  {
    (data: string) => var result := PatchAll(data, options); if result == data then None else Some(result)
  }

  /** Applying two lists of options is applying the first, then the second. */
  lemma {:induction false} PatchAllAppend(data: string, first: seq<PatchOptions>, second: seq<PatchOptions>)
    ensures PatchAll(data, first + second) == PatchAll(PatchAll(data, first), second)
    decreases |first|
  {
    if |first| == 0 {
      assert first + second == second;
    } else {
      assert (first + second)[0] == first[0];
      assert (first + second)[1..] == first[1..] + second;
      PatchAllAppend(PatchStep(data, first[0]), first[1..], second);
    }
  }

  /** A patch can never empty a file: a result of "" is dropped by the `||` of the reduce. */
  lemma PatchNeverEmpties(data: string, options: seq<PatchOptions>)
    requires data != ""
    ensures PatchAll(data, options) != ""
    decreases |options|
  {
    if |options| > 0 {
      PatchNeverEmpties(PatchStep(data, options[0]), options[1..]);
    }
  }

  /** Deleting the whole text is dropped, so the patch reports false. */
  lemma DeleteEverythingIgnored(data: string)
    requires data != ""
    ensures PatchCallback([Delete(data)])(data).None?
  {
    DeleteFirst("", data, "");
    assert "" + data + "" == data;
    assert PatchStep(data, Delete(data)) == data;
    assert [Delete(data)][1..] == [];
    assert PatchAll(data, [Delete(data)]) == data;
  }

  /** Options whose non-empty inserts are all present already, without force, leave the text alone. */
  lemma {:induction false} PatchAllAlreadyApplied(data: string, options: seq<PatchOptions>)
    requires forall k :: 0 <= k < |options| ==>
               !options[k].force && Set(options[k].insert) && Contains(data, options[k].insert.value)
    ensures PatchAll(data, options) == data
    ensures PatchCallback(options)(data).None?
    decreases |options|
  {
    if |options| > 0 {
      assert PatchStep(data, options[0]) == data;
      var rest := options[1..];
      assert forall k :: 0 <= k < |rest| ==> rest[k] == options[k + 1];
      PatchAllAlreadyApplied(data, rest);
    }
  }

  /** What `readFile` yields for a file that exists: its text, or the value `JSON.parse` gives for a ".json" file. */
  datatype Contents = Text(text: string) | Json(value: Value)

  /**
   * `readFile(filename)`: a missing file throws; a ".json" file is parsed
   * by `parseJson`, whose error rejects; any other is read as text.
   */
  function ReadFile(files: map<string, string>, parseJson: string -> Result<Value>, filename: string): (r: Result<Contents>)
    ensures filename !in files ==> r == Err(Error("file not found " + filename))
    ensures filename in files && !EndsWith(filename, ".json") ==> r == Ok(Text(files[filename]))
    ensures filename in files && EndsWith(filename, ".json") ==>
              (r.Ok? <==> parseJson(files[filename]).Ok?)
              && (r.Ok? ==> r.value == Json(parseJson(files[filename]).value))
              && (r.Err? ==> r.error == parseJson(files[filename]).error)
  {
    if filename !in files then Err(Error("file not found " + filename))
    else if EndsWith(filename, ".json") then
      match parseJson(files[filename])
      case Err(e) => Err(e)
      case Ok(v) => Ok(Json(v))
    else Ok(Text(files[filename]))
  }

  /** The outcome of `update`: what it returns (None for false) and the files afterwards. */
  datatype Updated = Updated(result: Result<Option<string>>, files: map<string, string>)

  /**
   * `update(filename, callback)`: read the file; contents that are not a
   * string give false, and null makes `is(String, …)` throw; otherwise the
   * callback's result is written unless it is false, and returned.
   */
  function UpdateSpec(files: map<string, string>, parseJson: string -> Result<Value>, filename: string,
                      callback: string -> Option<string>): Updated
  {
    match ReadFile(files, parseJson, filename)
    case Err(e) => Updated(Err(e), files)
    case Ok(contents) =>
      var value := if contents.Text? then Str(contents.text) else contents.value;
      match IsString(value)
      case Err(e) => Updated(Err(e), files)
      case Ok(isString) =>
        if !isString then Updated(Ok(None), files)
        else
          var mutated := callback(value.s);
          if mutated.None? then Updated(Ok(None), files)
          else Updated(Ok(mutated), files[filename := mutated.value])
  }

  function PrependCallback(prependedData: string): string -> Option<string>
  {
    (data: string) => Some(prependedData + data)
  }

  function AppendCallback(appendedData: string): string -> Option<string>
  {
    (data: string) => Some(data + appendedData)
  }

  function ReplaceCallback(oldContent: string, newContent: string): string -> Option<string>
  {
    (data: string) => Some(ReplaceFirst(data, oldContent, newContent))
  }

  /** The files `filesystem` reads and writes, by path, and the `JSON.parse` its ".json" reads go through. */
  class FileSystem {
    var files: map<string, string>
    const parseJson: string -> Result<Value>

    constructor(files: map<string, string>, parseJson: string -> Result<Value>)
      ensures this.files == files && this.parseJson == parseJson
    {
      this.files := files;
      this.parseJson := parseJson;
    }

    /** `update(filename, callback)`. */
    method Update(filename: string, callback: string -> Option<string>) returns (r: Result<Option<string>>)
      modifies this
      ensures Updated(r, files) == UpdateSpec(old(files), parseJson, filename, callback)
    {
      var contents := ReadFile(files, parseJson, filename);
      if contents.Err? {
        return Err(contents.error);
      }
      var value := if contents.value.Text? then Str(contents.value.text) else contents.value.value;
      var isString := IsString(value);
      if isString.Err? {
        return Err(isString.error);
      }
      if !isString.value {
        return Ok(None);
      }
      var mutated := callback(value.s);
      if mutated.Some? {
        files := files[filename := mutated.value];
      }
      return Ok(mutated);
    }

    /** `prepend(filename, prependedData)`. */
    method Prepend(filename: string, prependedData: string) returns (r: Result<Option<string>>)
      modifies this
      ensures Updated(r, files) == UpdateSpec(old(files), parseJson, filename, PrependCallback(prependedData))
    {
      r := Update(filename, PrependCallback(prependedData));
    }

    /** `append(filename, appendedData)`. */
    method Append(filename: string, appendedData: string) returns (r: Result<Option<string>>)
      modifies this
      ensures Updated(r, files) == UpdateSpec(old(files), parseJson, filename, AppendCallback(appendedData))
    {
      r := Update(filename, AppendCallback(appendedData));
    }

    /** `replace(filename, oldContent, newContent)`. */
    method Replace(filename: string, oldContent: string, newContent: string) returns (r: Result<Option<string>>)
      modifies this
      ensures Updated(r, files) == UpdateSpec(old(files), parseJson, filename, ReplaceCallback(oldContent, newContent))
    {
      r := Update(filename, ReplaceCallback(oldContent, newContent));
    }

    /** `patch(filename, ...options)`. */
    method Patch(filename: string, options: seq<PatchOptions>) returns (r: Result<Option<string>>)
      modifies this
      ensures Updated(r, files) == UpdateSpec(old(files), parseJson, filename, PatchCallback(options))
    {
      r := Update(filename, PatchCallback(options));
    }
  }

  /** A text file: present and not read as JSON. */
  predicate IsTextFile(files: map<string, string>, filename: string)
  {
    filename in files && !EndsWith(filename, ".json")
  }

  /**
   * `update` refuses without writing: a missing file throws; a ".json" file
   * whose text does not parse rejects with the parse error; one that parses
   * to null throws a TypeError; one that parses to another non-string
   * returns false.
   */
  lemma UpdateRefusals(files: map<string, string>, parseJson: string -> Result<Value>, filename: string,
                       callback: string -> Option<string>)
    requires filename in files && EndsWith(filename, ".json") ==> !(parseJson(files[filename]).Ok? && parseJson(files[filename]).value.Str?)
    requires !IsTextFile(files, filename)
    ensures UpdateSpec(files, parseJson, filename, callback).files == files
    ensures filename !in files ==> UpdateSpec(files, parseJson, filename, callback).result == Err(Error("file not found " + filename))
    ensures filename in files && parseJson(files[filename]).Err? ==>
              UpdateSpec(files, parseJson, filename, callback).result == Err(parseJson(files[filename]).error)
    ensures filename in files && parseJson(files[filename]) == Ok(Null) ==>
              UpdateSpec(files, parseJson, filename, callback).result.Err?
              && UpdateSpec(files, parseJson, filename, callback).result.error.kind == "TypeError"
    ensures filename in files && parseJson(files[filename]).Ok? && !parseJson(files[filename]).value.Null? ==>
              UpdateSpec(files, parseJson, filename, callback).result == Ok(None)
  {
  }

  /** A ".json" file holding a JSON string literal is updated like text: the callback gets the parsed string. */
  lemma UpdateJsonString(files: map<string, string>, parseJson: string -> Result<Value>, filename: string,
                         callback: string -> Option<string>, s: string)
    requires filename in files && EndsWith(filename, ".json") && parseJson(files[filename]) == Ok(Str(s))
    ensures var u := UpdateSpec(files, parseJson, filename, callback);
      && u.result == Ok(callback(s))
      && u.files == if callback(s).Some? then files[filename := callback(s).value] else files
  {
  }

  /** `append` on a text file writes and returns the old text followed by the data; every other file is kept. */
  lemma AppendWrites(files: map<string, string>, parseJson: string -> Result<Value>, filename: string, appendedData: string)
    requires IsTextFile(files, filename)
    ensures var u := UpdateSpec(files, parseJson, filename, AppendCallback(appendedData));
      && u.result == Ok(Some(files[filename] + appendedData))
      && u.files.Keys == files.Keys
      && u.files[filename] == files[filename] + appendedData
      && forall p :: p in files && p != filename ==> u.files[p] == files[p]
  {
  }

  /** `prepend` on a text file writes the data followed by the old text. */
  lemma PrependWrites(files: map<string, string>, parseJson: string -> Result<Value>, filename: string, prependedData: string)
    requires IsTextFile(files, filename)
    ensures var u := UpdateSpec(files, parseJson, filename, PrependCallback(prependedData));
      && u.result == Ok(Some(prependedData + files[filename]))
      && u.files == files[filename := prependedData + files[filename]]
      && EndsWith(u.files[filename], files[filename]) && StartsWith(u.files[filename], prependedData)
  {
    var t := prependedData + files[filename];
    assert t[..|prependedData|] == prependedData;
    assert t[|t| - |files[filename]|..] == files[filename];
  }

  /** `replace` rewrites the file even when the old content is absent, with the text unchanged. */
  lemma ReplaceAbsentRewritesSame(files: map<string, string>, parseJson: string -> Result<Value>, filename: string, oldContent: string, newContent: string)
    requires IsTextFile(files, filename) && !Contains(files[filename], oldContent)
    ensures UpdateSpec(files, parseJson, filename, ReplaceCallback(oldContent, newContent))
            == Updated(Ok(Some(files[filename])), files)
  {
  }

  /** A `patch` that changes nothing returns false and leaves the file as it was. */
  lemma PatchUnchangedWritesNothing(files: map<string, string>, parseJson: string -> Result<Value>, filename: string, options: seq<PatchOptions>)
    requires IsTextFile(files, filename) && PatchAll(files[filename], options) == files[filename]
    ensures UpdateSpec(files, parseJson, filename, PatchCallback(options)) == Updated(Ok(None), files)
  {
  }

  /** A `patch` that changes the text writes exactly the folded text. */
  lemma PatchChangedWrites(files: map<string, string>, parseJson: string -> Result<Value>, filename: string, options: seq<PatchOptions>)
    requires IsTextFile(files, filename) && PatchAll(files[filename], options) != files[filename]
    ensures var result := PatchAll(files[filename], options);
      UpdateSpec(files, parseJson, filename, PatchCallback(options)) == Updated(Ok(Some(result)), files[filename := result])
  {
  }

  /**
   * `exists(filename, findPattern)`: a null filename throws in `is`; a
   * filename that is not a string or not a file, or a pattern that is not
   * a string, gives false; otherwise the file is read as text (JSON files
   * too) and searched.
   */
  function Exists(files: map<string, string>, filename: Value, findPattern: Value): (r: Result<bool>)
    ensures r.Err? <==> filename.Null?
    ensures r == Ok(true) <==>
              filename.Str? && filename.s in files && findPattern.Str?
              && IsPatternIncluded(files[filename.s], Some(findPattern.s))
  {
    match IsString(filename)
    case Err(e) => Err(e)
    case Ok(isString) =>
      if !isString || filename.s !in files then Ok(false)
      else if !findPattern.Str? then Ok(false)
      else Ok(IsPatternIncluded(files[filename.s], Some(findPattern.s)))
  }

  /** After appending a non-empty text to a text file, `exists` finds it there. */
  lemma AppendedTextExists(files: map<string, string>, parseJson: string -> Result<Value>, filename: string, appendedData: string)
    requires IsTextFile(files, filename) && appendedData != ""
    ensures Exists(UpdateSpec(files, parseJson, filename, AppendCallback(appendedData)).files, Str(filename), Str(appendedData)) == Ok(true)
  {
    ContainsSplice(files[filename], appendedData, "");
    assert files[filename] + appendedData + "" == files[filename] + appendedData;
  }

  /** An empty pattern is never found, whatever the file holds. */
  lemma EmptyPatternNeverExists(files: map<string, string>, filename: Value)
    ensures Exists(files, filename, Str("")) != Ok(true)
  {
  }
}
