/**
 * The JavaScript string operations the runtime relies on: `includes`,
 * `indexOf`, `replace` with a string pattern, global replacement, `split`,
 * `join`, `trim`, `repeat` and `toLowerCase`.
 */
module Strings {
  import opened Js

  predicate StartsWith(s: string, p: string)
  {
    |p| <= |s| && s[..|p|] == p
  }

  predicate EndsWith(s: string, p: string)
  {
    |p| <= |s| && s[|s| - |p|..] == p
  }

  /** `s.includes(p)`: p occurs at some position of s. */
  predicate Contains(s: string, p: string)
  {
    exists i :: 0 <= i <= |s| && StartsWith(s[i..], p)
  }

  /** `s.indexOf(p)`: the first position where p occurs, or None. */
  function IndexOf(s: string, p: string): (r: Option<nat>)
    ensures r.Some? ==> r.value <= |s| && StartsWith(s[r.value..], p)
    ensures r.Some? ==> forall j :: 0 <= j < r.value ==> !StartsWith(s[j..], p)
    ensures r.None? <==> !Contains(s, p)
    decreases |s|
  {
    if StartsWith(s, p) then Some(0)
    else if |s| == 0 then None
    else
      var rest := IndexOf(s[1..], p);
      assert forall j :: 1 <= j <= |s| ==> s[j..] == s[1..][j - 1..];
      match rest
      case None => None
      case Some(i) => Some(i + 1)
  }

  lemma ContainsAt(s: string, p: string, i: nat)
    requires i <= |s| && StartsWith(s[i..], p)
    ensures Contains(s, p)
  {
  }

  /** A string contains every string that is spliced into it. */
  lemma ContainsSplice(a: string, p: string, b: string)
    ensures Contains(a + p + b, p)
  {
    var s := a + p + b;
    assert s[|a|..][..|p|] == p;
    ContainsAt(s, p, |a|);
  }

  /** Containment survives adding text on either side. */
  lemma ContainsWiden(x: string, s: string, y: string, p: string)
    requires Contains(s, p)
    ensures Contains(x + s + y, p)
  {
    var i :| 0 <= i <= |s| && StartsWith(s[i..], p);
    var t := x + s + y;
    assert t[|x| + i..][..|p|] == s[i..][..|p|];
    ContainsAt(t, p, |x| + i);
  }

  /** `s.replace(p, r)` for a string pattern p: the first occurrence of p becomes r. */
  function ReplaceFirst(s: string, p: string, r: string): string
  {
    match IndexOf(s, p)
    case None => s
    case Some(i) => s[..i] + r + s[i + |p|..]
  }

  /** After replacing an occurrence of p, the replacement text is present. */
  lemma ReplaceFirstContains(s: string, p: string, r: string)
    requires Contains(s, p)
    ensures Contains(ReplaceFirst(s, p, r), r)
  {
    var i := IndexOf(s, p).value;
    ContainsSplice(s[..i], r, s[i + |p|..]);
  }

  /** `s.replace(/p/g, r)` for a pattern of literal characters: left-to-right, non-overlapping. */
  function ReplaceAll(s: string, p: string, r: string): string
    requires |p| > 0
    decreases |s|
  {
    if StartsWith(s, p) then r + ReplaceAll(s[|p|..], p, r)
    else if |s| == 0 then ""
    else [s[0]] + ReplaceAll(s[1..], p, r)
  }

  /** Replacing a pattern that does not occur changes nothing. */
  lemma {:induction false} ReplaceAllAbsent(s: string, p: string, r: string)
    requires |p| > 0 && !Contains(s, p)
    ensures ReplaceAll(s, p, r) == s
    decreases |s|
  {
    assert s[0..] == s;
    if |s| > 0 {
      assert forall i :: 0 <= i <= |s| - 1 ==> s[1..][i..] == s[i + 1..];
      ReplaceAllAbsent(s[1..], p, r);
    }
  }

  /** `s.split(c)` for a one-character separator. */
  function SplitOn(s: string, c: char): (r: seq<string>)
    ensures |r| >= 1
    ensures forall k :: 0 <= k < |r| ==> c !in r[k]
    decreases |s|
  {
    if |s| == 0 then [""]
    else
      var rest := SplitOn(s[1..], c);
      if s[0] == c then [""] + rest else [[s[0]] + rest[0]] + rest[1..]
  }

  /** The first piece of a split is a prefix of the string. */
  lemma {:induction false} SplitFirstIsPrefix(s: string, c: char)
    ensures |SplitOn(s, c)[0]| <= |s| && SplitOn(s, c)[0] == s[..|SplitOn(s, c)[0]|]
    decreases |s|
  {
    if |s| > 0 && s[0] != c {
      SplitFirstIsPrefix(s[1..], c);
      var first := SplitOn(s[1..], c)[0];
      assert SplitOn(s, c)[0] == [s[0]] + first;
      assert s[..1 + |first|] == [s[0]] + s[1..][..|first|];
    }
  }

  /** `xs.join(sep)`. */
  function Join(xs: seq<string>, sep: string): string
    decreases |xs|
  {
    if |xs| == 0 then ""
    else if |xs| == 1 then xs[0]
    else xs[0] + sep + Join(xs[1..], sep)
  }

  /** Joining two non-empty lists is joining each and putting the separator between. */
  lemma {:induction false} JoinAppend(xs: seq<string>, ys: seq<string>, sep: string)
    requires |xs| >= 1 && |ys| >= 1
    ensures Join(xs + ys, sep) == Join(xs, sep) + sep + Join(ys, sep)
    decreases |xs|
  {
    var all := xs + ys;
    assert all[0] == xs[0];
    if |xs| == 1 {
      assert all[1..] == ys;
    } else {
      assert all[1..] == xs[1..] + ys;
      JoinAppend(xs[1..], ys, sep);
    }
  }

  /** Joining the pieces of a split with the separator gives the string back. */
  lemma {:induction false} JoinSplit(s: string, c: char)
    ensures Join(SplitOn(s, c), [c]) == s
    decreases |s|
  {
    if |s| > 0 {
      var rest := SplitOn(s[1..], c);
      JoinSplit(s[1..], c);
      if s[0] == c {
        assert SplitOn(s, c) == [""] + rest;
        assert ([""] + rest)[1..] == rest;
      } else {
        var head := [s[0]] + rest[0];
        assert SplitOn(s, c) == [head] + rest[1..];
        if |rest| == 1 {
          assert Join(rest, [c]) == rest[0];
        } else {
          assert ([head] + rest[1..])[1..] == rest[1..];
          assert Join(rest, [c]) == rest[0] + [c] + Join(rest[1..], [c]);
        }
      }
    }
  }

  /** A string without the separator splits into itself alone. */
  lemma {:induction false} SplitWithoutSeparator(a: string, c: char)
    requires c !in a
    ensures SplitOn(a, c) == [a]
    decreases |a|
  {
    if |a| > 0 {
      assert c !in a[1..];
      SplitWithoutSeparator(a[1..], c);
      assert [a[0]] + a[1..] == a;
    }
  }

  /** Splitting distributes over one occurrence of the separator. */
  lemma {:induction false} SplitAround(a: string, c: char, b: string)
    ensures SplitOn(a + [c] + b, c) == SplitOn(a, c) + SplitOn(b, c)
    decreases |a|
  {
    if |a| == 0 {
      assert a + [c] + b == [c] + b;
      SplitCons(c, b, c);
    } else {
      var rest := a[1..] + [c] + b;
      SplitAround(a[1..], c, b);
      assert a == [a[0]] + a[1..];
      assert a + [c] + b == [a[0]] + rest;
      SplitConsAppend(a[0], a[1..], rest, c, SplitOn(b, c));
    }
  }

  /** Splitting a text that starts with x: a separator opens a new empty piece, any other character joins the first piece. */
  lemma SplitCons(x: char, s: string, c: char)
    ensures SplitOn([x] + s, c)
      == if x == c then [""] + SplitOn(s, c) else [[x] + SplitOn(s, c)[0]] + SplitOn(s, c)[1..]
  {
    assert ([x] + s)[1..] == s;
  }

  /** Putting the same character in front of two texts whose splits differ by trailing pieces keeps that difference. */
  lemma SplitConsAppend(x: char, s: string, t: string, c: char, tail: seq<string>)
    requires SplitOn(t, c) == SplitOn(s, c) + tail
    ensures SplitOn([x] + t, c) == SplitOn([x] + s, c) + tail
  {
    SplitCons(x, s, c);
    SplitCons(x, t, c);
    ConsPieceAppend(x, c, SplitOn(s, c), tail);
  }

  /** The step of SplitOn commutes with appending pieces at the end. */
  lemma ConsPieceAppend(x: char, c: char, rs: seq<string>, tail: seq<string>)
    requires |rs| >= 1
    ensures (if x == c then [""] + (rs + tail) else [[x] + (rs + tail)[0]] + (rs + tail)[1..])
         == (if x == c then [""] + rs else [[x] + rs[0]] + rs[1..]) + tail
  {
    if x == c {
      assert [""] + (rs + tail) == ([""] + rs) + tail;
    } else {
      var head := [x] + rs[0];
      assert (rs + tail)[0] == rs[0];
      assert (rs + tail)[1..] == rs[1..] + tail;
      assert [head] + (rs[1..] + tail) == ([head] + rs[1..]) + tail;
    }
  }

  /** Before the first separator comes the first piece. */
  lemma FirstPieceBefore(a: string, c: char, b: string)
    requires c !in a
    ensures SplitOn(a + [c] + b, c)[0] == a
  {
    SplitAround(a, c, b);
    SplitWithoutSeparator(a, c);
  }

  /** Splitting a join of separator-free pieces gives the pieces back. */
  lemma {:induction false} SplitJoin(xs: seq<string>, c: char)
    requires |xs| >= 1
    requires forall k :: 0 <= k < |xs| ==> c !in xs[k]
    ensures SplitOn(Join(xs, [c]), c) == xs
    decreases |xs|
  {
    SplitWithoutSeparator(xs[0], c);
    if |xs| > 1 {
      SplitJoin(xs[1..], c);
      SplitAround(xs[0], c, Join(xs[1..], [c]));
      assert [xs[0]] + xs[1..] == xs;
    }
  }

  /** The whitespace and line terminators that `String.prototype.trim` removes. */
  predicate IsSpace(ch: char)
  {
    ch == ' ' || ch == '\t' || ch == '\n' || ch == '\r' || ch == '\U{0B}' || ch == '\U{0C}'
    || ch == '\U{A0}' || ch == '\U{1680}' || ('\U{2000}' <= ch <= '\U{200A}')
    || ch == '\U{2028}' || ch == '\U{2029}' || ch == '\U{202F}' || ch == '\U{205F}'
    || ch == '\U{3000}' || ch == '\U{FEFF}'
  }

  function TrimStart(s: string): (r: string)
    ensures |r| <= |s| && r == s[|s| - |r|..]
    ensures r == [] || !IsSpace(r[0])
    decreases |s|
  {
    if |s| > 0 && IsSpace(s[0]) then TrimStart(s[1..]) else s
  }

  function TrimEnd(s: string): (r: string)
    ensures |r| <= |s| && r == s[..|r|]
    ensures r == [] || !IsSpace(r[|r| - 1])
    decreases |s|
  {
    if |s| > 0 && IsSpace(s[|s| - 1]) then TrimEnd(s[..|s| - 1]) else s
  }

  /** `s.trim()`. */
  function Trim(s: string): string
  {
    TrimEnd(TrimStart(s))
  }

  lemma {:induction false} TrimStartEmpty(s: string)
    ensures TrimStart(s) == "" <==> forall i :: 0 <= i < |s| ==> IsSpace(s[i])
    decreases |s|
  {
    if |s| > 0 && IsSpace(s[0]) {
      TrimStartEmpty(s[1..]);
      assert forall i :: 1 <= i < |s| ==> s[i] == s[1..][i - 1];
    }
  }

  lemma {:induction false} TrimEndKeeps(s: string, i: nat)
    requires i < |s| && !IsSpace(s[i])
    ensures |TrimEnd(s)| > i
    decreases |s|
  {
    if IsSpace(s[|s| - 1]) {
      TrimEndKeeps(s[..|s| - 1], i);
    }
  }

  /** A string trims to "" exactly when every character of it is whitespace. */
  lemma TrimEmptyIffAllSpace(s: string)
    ensures Trim(s) == "" <==> forall i :: 0 <= i < |s| ==> IsSpace(s[i])
  {
    TrimStartEmpty(s);
    var t := TrimStart(s);
    if t != "" {
      TrimEndKeeps(t, 0);
    }
  }

  predicate AllDigits(s: string)
  {
    forall i :: 0 <= i < |s| ==> '0' <= s[i] <= '9'
  }

  /** The value of a string of decimal digits; "" counts as 0. */
  function DigitsValue(s: string): nat
    requires AllDigits(s)
  {
    if |s| == 0 then 0 else DigitsValue(s[..|s| - 1]) * 10 + (s[|s| - 1] - '0') as nat
  }

  /**
   * `Number(s)` for a string, on the forms this model knows: surrounding
   * whitespace is ignored, a blank string is 0, and an optionally signed run
   * of decimal digits is its value. None stands for NaN.
   */
  function ToNumber(s: string): (r: Option<int>)
  {
    NumberText(Trim(s))
  }

  /** `Number` on a text without surrounding whitespace. */
  function NumberText(t: string): Option<int>
  {
    if t == "" then Some(0)
    else if (t[0] == '-' || t[0] == '+') && |t| > 1 && AllDigits(t[1..]) then
      Some(if t[0] == '-' then 0 - DigitsValue(t[1..]) as int else DigitsValue(t[1..]))
    else if AllDigits(t) then Some(DigitsValue(t))
    else None
  }

  /** Reading back the decimal digits of a natural number gives the number. */
  lemma {:induction false} DigitsOfNat(n: nat)
    ensures AllDigits(NatToString(n)) && DigitsValue(NatToString(n)) == n
    decreases n
  {
    var digits := NatToString(n);
    if n >= 10 {
      DigitsOfNat(n / 10);
      assert digits[..|digits| - 1] == NatToString(n / 10);
    }
  }

  /** A string whose ends are not whitespace is its own trim. */
  lemma TrimUnpadded(s: string)
    requires s != [] && !IsSpace(s[0]) && !IsSpace(s[|s| - 1])
    ensures Trim(s) == s
  {
  }

  /** `Number(String(n))` is n for every integer n. */
  lemma {:induction false} NumberOfIntToString(n: int)
    ensures ToNumber(IntToString(n)) == Some(n)
  {
    if n < 0 {
      NumberOfNegative(n);
    } else {
      NumberOfNat(n);
    }
  }

  lemma {:induction false} NumberOfNat(n: nat)
    ensures ToNumber(NatToString(n)) == Some(n)
  {
    DigitsOfNat(n);
    NumberOfDigits(NatToString(n));
  }

  lemma {:induction false} NumberOfNegative(n: int)
    requires n < 0
    ensures ToNumber(IntToString(n)) == Some(n)
  {
    DigitsOfNat(-n);
    NumberOfMinusValue(NatToString(-n), -n);
  }

  /** Decimal digits read as their value. */
  lemma NumberOfDigits(d: string)
    requires d != "" && AllDigits(d)
    ensures ToNumber(d) == Some(DigitsValue(d))
  {
    assert '0' <= d[0] <= '9' && '0' <= d[|d| - 1] <= '9';
    TrimUnpadded(d);
    assert !(d[0] == '-' || d[0] == '+');
  }

  /** A minus sign before the digits of m reads as -m. */
  lemma NumberOfMinusValue(d: string, m: nat)
    requires d != "" && AllDigits(d) && DigitsValue(d) == m
    ensures ToNumber("-" + d) == Some(0 - m)
  {
    SignedIsNumberText(d);
    NumberTextNegative(d);
  }

  /** A minus sign before decimal digits is read without trimming. */
  lemma SignedIsNumberText(d: string)
    requires d != "" && AllDigits(d)
    ensures ToNumber("-" + d) == NumberText("-" + d)
  {
    SignedUnpadded(d);
  }

  /** A minus sign before decimal digits has nothing to trim. */
  lemma SignedUnpadded(d: string)
    requires d != "" && AllDigits(d)
    ensures Trim("-" + d) == "-" + d
  {
    var s := "-" + d;
    assert s[|s| - 1] == d[|d| - 1];
    TrimUnpadded(s);
  }

  /** A minus sign before decimal digits reads as the negated value. */
  lemma NumberTextNegative(d: string)
    requires d != "" && AllDigits(d)
    ensures NumberText("-" + d) == Some(0 - DigitsValue(d) as int)
  {
    assert ("-" + d)[1..] == d;
  }

  /** `s.repeat(n)`. */
  function Repeat(s: string, n: nat): (r: string)
    ensures |r| == n * |s|
  {
    if n == 0 then "" else s + Repeat(s, n - 1)
  }

  /** `toLowerCase` on the ASCII letters. */
  function LowerChar(ch: char): char
  {
    if 'A' <= ch <= 'Z' then (ch as int + 32) as char else ch
  }

  function ToLower(s: string): (r: string)
    ensures |r| == |s|
    ensures forall i :: 0 <= i < |s| ==> r[i] == LowerChar(s[i])
  {
    seq(|s|, i requires 0 <= i < |s| => LowerChar(s[i]))
  }

  /** The text after the last occurrence of sep: the last element of `s.split(sep)`. */
  function LastPiece(s: string, sep: string): (r: string)
    requires |sep| > 0
    ensures |r| <= |s| && r == s[|s| - |r|..]
    decreases |s|
  {
    match IndexOf(s, sep)
    case None => s
    case Some(i) => LastPiece(s[i + |sep|..], sep)
  }

  /** The last piece of a split never contains the separator. */
  lemma {:induction false} LastPieceHasNoSeparator(s: string, sep: string)
    requires |sep| > 0
    ensures !Contains(LastPiece(s, sep), sep)
    decreases |s|
  {
    match IndexOf(s, sep)
    case None =>
    case Some(i) => LastPieceHasNoSeparator(s[i + |sep|..], sep);
  }

  /** The text after the first occurrence of a separator that has no earlier occurrence is the last piece, when the separator does not recur. */
  lemma LastPieceAfter(x: string, sep: string, b: string)
    requires |sep| > 0
    requires !Contains(x + sep[..|sep| - 1], sep)
    requires !Contains(b, sep)
    ensures LastPiece(x + sep + b, sep) == b
  {
    var t := x + sep + b;
    IndexOfFirst(x, sep, b);
    assert t[|x| + |sep|..] == b;
  }

  /**
   * p occurs first right after x when x followed by all but the last
   * character of p does not contain p.
   */
  lemma IndexOfFirst(x: string, p: string, y: string)
    requires |p| > 0
    requires !Contains(x + p[..|p| - 1], p)
    ensures IndexOf(x + p + y, p) == Some(|x|)
  {
    var t := x + p + y;
    assert t[|x|..][..|p|] == p;
    ContainsAt(t, p, |x|);
    var u := x + p[..|p| - 1];
    assert u == t[..|u|];
    forall j | 0 <= j < |x|
      ensures !StartsWith(t[j..], p)
    {
      assert !StartsWith(u[j..], p);
      PrefixWindow(t, |u|, j, p);
    }
  }

  /** Replacing the first occurrence of p, when it follows x, swaps exactly that occurrence. */
  lemma ReplaceFirstSplice(x: string, p: string, y: string, r: string)
    requires |p| > 0
    requires !Contains(x + p[..|p| - 1], p)
    ensures ReplaceFirst(x + p + y, p, r) == x + r + y
  {
    IndexOfFirst(x, p, y);
    var t := x + p + y;
    assert t[..|x|] == x && t[|x| + |p|..] == y;
  }

  /** Whether p occurs at j depends only on a prefix of the text that covers the occurrence. */
  lemma PrefixWindow(t: string, m: nat, j: nat, p: string)
    requires m <= |t| && j + |p| <= m
    ensures StartsWith(t[j..], p) <==> StartsWith(t[..m][j..], p)
  {
    assert t[j..][..|p|] == t[j..j + |p|];
    assert t[..m][j..][..|p|] == t[j..j + |p|];
  }

  /** A one-character pattern occurs exactly where the character does. */
  lemma ContainsChar(s: string, c: char)
    ensures Contains(s, [c]) <==> c in s
  {
    if c in s {
      var i :| 0 <= i < |s| && s[i] == c;
      assert s[i..][..1] == [c];
      ContainsAt(s, [c], i);
    }
    if Contains(s, [c]) {
      var i :| 0 <= i <= |s| && StartsWith(s[i..], [c]);
      assert s[i..][0] == c;
    }
  }

  /** With a one-character separator, the last piece is whatever follows its last occurrence. */
  lemma {:induction false} LastPieceAfterChar(x: string, c: char, b: string)
    requires c !in b
    ensures LastPiece(x + [c] + b, [c]) == b
    decreases |x|
  {
    var t := x + [c] + b;
    assert t[|x|..][..1] == [c];
    ContainsAt(t, [c], |x|);
    var i := IndexOf(t, [c]).value;
    if i == |x| {
      assert t[i + 1..] == b;
      ContainsChar(b, c);
    } else {
      assert t[i + 1..] == x[i + 1..] + [c] + b;
      LastPieceAfterChar(x[i + 1..], c, b);
    }
  }
}
