/**
 * The small list and value utilities of the runtime's toolbox
 * (packages/cerebro-core/src/toolbox/utils.ts).
 */
module Utils {
  import opened Js
  import opened Strings

  /** `head(a)`: `a[0]`, which reads as undefined on an empty array. */
  function Head<T>(a: seq<T>): (r: Option<T>)
    ensures r.Some? <==> |a| > 0
  {
    if |a| == 0 then None else Some(a[0])
  }

  /** `tail(a)`: `a.slice(1)`, empty for an empty array. */
  function Tail<T>(a: seq<T>): (r: seq<T>)
    ensures |r| == if |a| == 0 then 0 else |a| - 1
  {
    if |a| == 0 then [] else a[1..]
  }

  /** `last(a)`: `a[a.length - 1]`, undefined on an empty array. */
  function Last<T>(a: seq<T>): (r: Option<T>)
    ensures r.Some? <==> |a| > 0
  {
    if |a| == 0 then None else Some(a[|a| - 1])
  }

  /** The head and the tail of a non-empty array put back together give the array. */
  lemma HeadTail<T>(a: seq<T>)
    requires |a| > 0
    ensures [Head(a).value] + Tail(a) == a
  {
  }

  /** The last element of an array with x appended is x, and its head is unaffected. */
  lemma LastAppend<T>(a: seq<T>, x: T)
    ensures Last(a + [x]) == Some(x)
    ensures |a| > 0 ==> Head(a + [x]) == Head(a)
  {
  }

  /** `takeLast(n, a)`: `a.slice(-1 * n)` with JavaScript's clamping of negative starts. */
  function TakeLast<T>(n: int, a: seq<T>): (r: seq<T>)
    ensures |r| <= |a| && r == a[|a| - |r|..]
    ensures n >= 1 ==> |r| == if n < |a| then n else |a|
    ensures n == 0 ==> r == a
  {
    var start := if n > 0 then (if n >= |a| then 0 else |a| - n)
                 else (if -n >= |a| then |a| else -n);
    a[start..]
  }

  /** `reject(f, a)`: the elements for which f is false, in order. */
  function Reject<T(!new)>(f: T -> bool, a: seq<T>): (r: seq<T>)
    ensures |r| <= |a|
    ensures forall x :: x in r <==> x in a && !f(x)
    decreases |a|
  {
    if |a| == 0 then []
    else (if f(a[0]) then [] else [a[0]]) + Reject(f, a[1..])
  }

  /** Rejection works element by element: it distributes over concatenation. */
  lemma {:induction false} RejectAppend<T(!new)>(f: T -> bool, a: seq<T>, b: seq<T>)
    ensures Reject(f, a + b) == Reject(f, a) + Reject(f, b)
    decreases |a|
  {
    if |a| == 0 {
      assert a + b == b;
    } else {
      assert (a + b)[0] == a[0];
      assert (a + b)[1..] == a[1..] + b;
      RejectAppend(f, a[1..], b);
    }
  }

  /** `equals(a, b)`: same length and the same string at every index. */
  predicate Equals(a: seq<string>, b: seq<string>)
  {
    |a| == |b| && forall i :: 0 <= i < |a| ==> a[i] == b[i]
  }

  lemma EqualsIsEquality(a: seq<string>, b: seq<string>)
    ensures Equals(a, b) <==> a == b
  {
  }

  /** The largest length a JavaScript array can have. */
  const MaxArrayLength: int := 0xFFFF_FFFF

  /**
   * `times(f, n)`: an array whose entry i is f(i) for i < n, filled by a
   * loop. `Array.from({ length: n })` clamps a negative length to 0 and
   * throws a RangeError for a length no array can have.
   */
  method Times<T>(f: int -> T, n: int) returns (r: Result<seq<T>>)
    ensures r.Err? <==> n > MaxArrayLength
    ensures r.Ok? ==> |r.value| == (if n < 0 then 0 else n)
    ensures r.Ok? ==> forall i :: 0 <= i < |r.value| ==> r.value[i] == f(i)
  {
    if n > MaxArrayLength {
      return Err(RangeError("Invalid array length"));
    }
    var list: seq<T> := [];
    var index := 0;
    while index < n
      invariant 0 <= index
      invariant n >= 0 ==> index <= n
      invariant n < 0 ==> index == 0
      invariant |list| == index
      invariant forall i :: 0 <= i < index ==> list[i] == f(i)
    {
      list := list + [f(index)];
      index := index + 1;
    }
    return Ok(list);
  }

  /**
   * `is(String, value)`: true for strings, false for undefined and other
   * values; reading `null.constructor` throws a TypeError.
   */
  function IsString(v: Value): (r: Result<bool>)
    ensures r.Err? <==> v.Null?
    ensures r.Ok? ==> (r.value <==> v.Str?)
  {
    match v
    case Null => Err(TypeError("Cannot read properties of null (reading 'constructor')"))
    case Str(_) => Ok(true)
    case _ => Ok(false)
  }

  /** `isBlank(value)`: not a string, or a string that trims to "". */
  function IsBlank(v: Value): (r: Result<bool>)
    ensures r.Err? <==> v.Null?
  {
    match IsString(v)
    case Err(e) => Err(e)
    case Ok(isStr) => Ok(!isStr || Trim(v.s) == "")
  }

  /** Exactly the strings with a non-whitespace character are not blank; other non-null values are blank. */
  lemma IsBlankMeaning(v: Value)
    requires !v.Null?
    ensures IsBlank(v) == Ok(!(v.Str? && exists i :: 0 <= i < |v.s| && !IsSpace(v.s[i])))
  {
    if v.Str? {
      TrimEmptyIffAllSpace(v.s);
    }
  }

  /**
   * `hideBin(argv)`: `argv.slice(binIndex + 1)`, where the binary sits at
   * index 0 in a bundled Electron app and at index 1 otherwise.
   */
  function HideBin(argv: seq<string>, bundledElectron: bool): (r: seq<string>)
    ensures |r| <= |argv| && r == argv[|argv| - |r|..]
    ensures |r| == if |argv| <= BinCount(bundledElectron) then 0 else |argv| - BinCount(bundledElectron)
  {
    var start := BinCount(bundledElectron);
    if start >= |argv| then [] else argv[start..]
  }

  /** How many leading argv entries are runtime and script rather than user arguments. */
  function BinCount(bundledElectron: bool): nat
  {
    if bundledElectron then 1 else 2
  }

  /** Whatever the leading entries are, hideBin returns the user's arguments. */
  lemma HideBinDropsPrefix(prefix: seq<string>, args: seq<string>, bundledElectron: bool)
    requires |prefix| == BinCount(bundledElectron)
    ensures HideBin(prefix + args, bundledElectron) == args
  {
    assert (prefix + args)[|prefix|..] == args;
  }

  /**
   * The outcome of `asyncForEach` after awaiting the callback on the first
   * n elements: the callback sees the state so far, the element, its index
   * and the whole array; the first rejection ends the loop and is the
   * outcome.
   */
  function ForEachState<T, S>(a: seq<T>, n: nat, s0: S, callback: (S, T, nat, seq<T>) -> Result<S>): Result<S>
    requires n <= |a|
  {
    if n == 0 then Ok(s0)
    else match ForEachState(a, n - 1, s0, callback)
      case Err(e) => Err(e)
      case Ok(s) => callback(s, a[n - 1], n - 1, a)
  }

  /** `asyncForEach(array, callback)`: callback on index 0, 1, … one at a time, each awaited. */
  method AsyncForEach<T, S>(a: seq<T>, s0: S, callback: (S, T, nat, seq<T>) -> Result<S>) returns (r: Result<S>)
    ensures r == ForEachState(a, |a|, s0, callback)
  {
    var s := s0;
    var index := 0;
    while index < |a|
      invariant 0 <= index <= |a|
      invariant ForEachState(a, index, s0, callback) == Ok(s)
    {
      var next := callback(s, a[index], index, a);
      if next.Err? {
        RejectionIsFinal(a, index + 1, |a|, s0, callback);
        return next;
      }
      s := next.value;
      index := index + 1;
    }
    return Ok(s);
  }

  /** Once the callback has rejected, no later element changes the outcome. */
  lemma {:induction false} RejectionIsFinal<T, S>(a: seq<T>, n: nat, m: nat, s0: S, callback: (S, T, nat, seq<T>) -> Result<S>)
    requires n <= m <= |a|
    requires ForEachState(a, n, s0, callback).Err?
    ensures ForEachState(a, m, s0, callback) == ForEachState(a, n, s0, callback)
    decreases m - n
  {
    if m > n {
      RejectionIsFinal(a, n, m - 1, s0, callback);
    }
  }

  /**
   * Sequential order: the outcome after a prefix does not depend on the
   * elements that follow it, beyond the array the callback is handed.
   */
  lemma {:induction false} ForEachPrefix<T, S>(a: seq<T>, b: seq<T>, n: nat, s0: S, callback: (S, T, nat, seq<T>) -> Result<S>)
    requires n <= |a|
    requires forall s, x, i :: callback(s, x, i, a + b) == callback(s, x, i, a)
    ensures ForEachState(a + b, n, s0, callback) == ForEachState(a, n, s0, callback)
  {
    if n > 0 {
      ForEachPrefix(a, b, n - 1, s0, callback);
      assert (a + b)[n - 1] == a[n - 1];
    }
  }
}
