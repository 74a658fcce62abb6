/** The .NET string operations the core relies on, on `string` = `seq<char>`.
    Comparisons are ordinal; there is no culture-sensitive behaviour. */
module Text {
  import opened Wrappers

  /** `char.IsWhiteSpace`: the Unicode space separators, the line and paragraph
      separators, U+0009..U+000D and U+0085. */
  predicate IsWhiteSpace(c: char) {
    var n := c as int;
    (0x09 <= n <= 0x0D) || n == 0x20 || n == 0x85 || n == 0xA0 || n == 0x1680
    || (0x2000 <= n <= 0x200A) || n == 0x2028 || n == 0x2029 || n == 0x202F
    || n == 0x205F || n == 0x3000
  }

  predicate AllWhiteSpace(s: string) {
    forall i :: 0 <= i < |s| ==> IsWhiteSpace(s[i])
  }

  /** `string.IsNullOrEmpty` */
  predicate IsNullOrEmpty(s: Option<string>) {
    s.None? || s.value == []
  }

  /** `s.StartsWith(prefix)`, taken as an ordinal prefix test. */
  predicate StartsWith(s: string, prefix: string) {
    prefix <= s
  }

  /** `s.TrimStart()`: the longest suffix of `s` that does not begin with white space. */
  function TrimStart(s: string): (r: string)
    ensures |r| <= |s| && r == s[|s| - |r|..]
    ensures AllWhiteSpace(s[..|s| - |r|])
    ensures r == [] || !IsWhiteSpace(r[0])
    decreases |s|
  {
    if s != [] && IsWhiteSpace(s[0]) then TrimStart(s[1..]) else s
  }

  /** `s.TrimEnd()`: the longest prefix of `s` that does not end with white space. */
  function TrimEnd(s: string): (r: string)
    ensures r <= s
    ensures AllWhiteSpace(s[|r|..])
    ensures r == [] || !IsWhiteSpace(r[|r| - 1])
    decreases |s|
  {
    if s != [] && IsWhiteSpace(s[|s| - 1]) then TrimEnd(s[..|s| - 1]) else s
  }

  /** `s.Trim()`: white space removed from both ends. */
  function Trim(s: string): (r: string)
    ensures r == [] <==> AllWhiteSpace(s)
    ensures r != [] ==> !IsWhiteSpace(r[0]) && !IsWhiteSpace(r[|r| - 1])
  {
    var t := TrimStart(s);
    TrimStartSplit(s);
    AllWhiteSpaceAppend(s[..|s| - |t|], t);
    TrimEndEmpty(t);
    TrimEnd(t)
  }

  /** White space in front does not change whether a text is all white space. */
  lemma AllWhiteSpaceAppend(w: string, t: string)
    requires AllWhiteSpace(w)
    ensures AllWhiteSpace(w + t) <==> AllWhiteSpace(t)
  {
    if AllWhiteSpace(t) {
      forall i | 0 <= i < |w + t| ensures IsWhiteSpace((w + t)[i]) {
        if i >= |w| { assert (w + t)[i] == t[i - |w|]; }
      }
    }
    if AllWhiteSpace(w + t) {
      forall i | 0 <= i < |t| ensures IsWhiteSpace(t[i]) {
        assert (w + t)[|w| + i] == t[i];
      }
    }
  }

  /** `TrimEnd` leaves nothing exactly when the text is all white space. */
  lemma TrimEndEmpty(t: string)
    ensures TrimEnd(t) == [] <==> AllWhiteSpace(t)
  {
    var r := TrimEnd(t);
    if r == [] {
      assert t[|r|..] == t;
    }
    if r != [] {
      assert r[|r| - 1] == t[|r| - 1];
    }
  }

  /** Text that starts and ends with a non-white character is left alone by both trims. */
  lemma TrimsLeaveAlone(s: string)
    requires s != [] && !IsWhiteSpace(s[0]) && !IsWhiteSpace(s[|s| - 1])
    ensures TrimStart(s) == s && TrimEnd(s) == s
  {
  }

  /** Leading white space does not change what `TrimStart` keeps. */
  lemma {:induction false} TrimStartAfterWhiteSpace(w: string, t: string)
    requires AllWhiteSpace(w)
    ensures TrimStart(w + t) == TrimStart(t)
    decreases |w|
  {
    if w != [] {
      var s := w + t;
      assert s[0] == w[0] && IsWhiteSpace(s[0]);
      assert s[1..] == w[1..] + t;
      assert TrimStart(s) == TrimStart(s[1..]);
      TrimStartAfterWhiteSpace(w[1..], t);
    } else {
      assert w + t == t;
    }
  }

  /** Trailing white space does not change what `TrimEnd` keeps. */
  lemma {:induction false} TrimEndBeforeWhiteSpace(x: string, w: string)
    requires AllWhiteSpace(w)
    ensures TrimEnd(x + w) == TrimEnd(x)
    decreases |w|
  {
    if w != [] {
      assert (x + w)[..|x + w| - 1] == x + w[..|w| - 1];
      TrimEndBeforeWhiteSpace(x, w[..|w| - 1]);
    } else {
      assert x + w == x;
    }
  }

  /** `TrimEnd` never reaches into a part that holds a non-white character. */
  lemma {:induction false} TrimEndAfterText(x: string, y: string)
    requires !AllWhiteSpace(y)
    ensures TrimEnd(x + y) == x + TrimEnd(y)
    decreases |y|
  {
    var n := |y| - 1;
    if IsWhiteSpace(y[n]) {
      assert (x + y)[..|x + y| - 1] == x + y[..n];
      assert !AllWhiteSpace(y[..n]) by {
        var i :| 0 <= i < |y| && !IsWhiteSpace(y[i]);
        assert i < n && y[..n][i] == y[i];
      }
      TrimEndAfterText(x, y[..n]);
    }
  }

  /** A text that ends with a non-white character is left alone by `TrimEnd`. */
  lemma TrimEndOfNonWhite(x: string)
    requires x != [] && !IsWhiteSpace(x[|x| - 1])
    ensures TrimEnd(x) == x
  {
  }

  /** A text that differs from `p` at some position of `p`, or stops before
      it, does not start with `p`. */
  lemma MismatchNotPrefix(s: string, p: string, i: nat)
    requires i < |p| && (i >= |s| || s[i] != p[i])
    ensures !StartsWith(s, p)
  {
  }

  /** A prefix whose last character is not white space survives `TrimEnd`. */
  lemma TrimEndKeepsPrefix(t: string, p: string)
    requires StartsWith(t, p) && p != [] && !IsWhiteSpace(p[|p| - 1])
    ensures StartsWith(TrimEnd(t), p)
  {
  }

  /** When `s` is not all white space, `TrimEnd` keeps its leading white space
      and trims the rest: it only ever cuts after the first non-white character. */
  lemma TrimEndKeepsLeadingWhiteSpace(s: string)
    requires TrimStart(s) != []
    ensures TrimEnd(s) == s[..|s| - |TrimStart(s)|] + TrimEnd(TrimStart(s))
    ensures TrimStart(TrimEnd(s)) == TrimEnd(TrimStart(s))
  {
    var t := TrimStart(s);
    var w := s[..|s| - |t|];
    TrimStartSplit(s);
    assert !AllWhiteSpace(t) by { assert !IsWhiteSpace(t[0]); }
    TrimEndAfterText(w, t);
    TrimStartOfTrimmedText(w, t);
  }

  /** `s` is the white space `TrimStart` removes followed by what it keeps. */
  lemma TrimStartSplit(s: string)
    ensures s == s[..|s| - |TrimStart(s)|] + TrimStart(s)
    ensures AllWhiteSpace(s[..|s| - |TrimStart(s)|])
  {
    var k := |s| - |TrimStart(s)|;
    assert s[k..] == TrimStart(s);
    assert s == s[..k] + s[k..];
  }

  /** White space before a right-trimmed text that starts with a non-white
      character is all `TrimStart` removes. */
  lemma TrimStartOfTrimmedText(w: string, t: string)
    requires AllWhiteSpace(w) && t != [] && !IsWhiteSpace(t[0])
    ensures TrimStart(w + TrimEnd(t)) == TrimEnd(t)
  {
    var e := TrimEnd(t);
    assert StartsWith(t, t[..1]);
    TrimEndKeepsPrefix(t, t[..1]);
    assert e != [] && e[0] == t[0];
    TrimStartAfterWhiteSpace(w, e);
    TrimStartOfNonWhite(e);
  }

  /** A text that starts with a non-white character is left alone by `TrimStart`. */
  lemma TrimStartOfNonWhite(x: string)
    requires x != [] && !IsWhiteSpace(x[0])
    ensures TrimStart(x) == x
  {
  }

  /** A prefix that ends in a non-white character, found after leading white
      space, is still found there once trailing white space is removed. */
  lemma TrimEndKeepsTrimmedPrefix(s: string, p: string)
    requires StartsWith(TrimStart(s), p) && p != [] && !IsWhiteSpace(p[|p| - 1])
    ensures StartsWith(TrimStart(TrimEnd(s)), p)
    ensures TrimEnd(s) != []
  {
    TrimEndKeepsLeadingWhiteSpace(s);
    TrimEndKeepsPrefix(TrimStart(s), p);
  }

  /** A text that starts with a non-white prefix and does not end in white
      space is left alone by `TrimStart` and still starts with that prefix. */
  lemma PrefixThenTrimmed(p: string, x: string)
    requires p != [] && !IsWhiteSpace(p[0]) && !IsWhiteSpace(p[|p| - 1])
    requires x == [] || !IsWhiteSpace(x[|x| - 1])
    ensures TrimStart(p + x) == p + x && StartsWith(p + x, p)
    ensures !IsWhiteSpace((p + x)[|p + x| - 1])
  {
    assert (p + x)[0] == p[0];
    assert (p + x)[..|p|] == p;
  }

  /** `Trim` removes exactly the white space around a text that starts and
      ends with non-white characters. */
  lemma TrimOfPadded(before: string, x: string, after: string)
    requires AllWhiteSpace(before) && AllWhiteSpace(after)
    requires x != [] && !IsWhiteSpace(x[0]) && !IsWhiteSpace(x[|x| - 1])
    ensures Trim(before + x + after) == x
  {
    assert before + x + after == before + (x + after);
    TrimStartAfterWhiteSpace(before, x + after);
    assert (x + after)[0] == x[0];
    TrimEndBeforeWhiteSpace(x, after);
    TrimsLeaveAlone(x);
  }

  /** Slicing a suffix of `s` is slicing `s` itself. */
  lemma SlicesOfSuffix(s: string, i: nat, k: nat)
    requires i + k <= |s|
    ensures s[i..][..k] == s[i..i + k]
    ensures s[i..][k..] == s[i + k..]
  {
  }

  /** A prefix of `t` is the slice of `t` up to its length. */
  lemma PrefixIsSlice(r: string, t: string)
    requires r <= t
    ensures r == t[..|r|]
  {
  }

  /** Where `Trim` cuts: `s` is white space, then `Trim(s)`, then white space. */
  lemma TrimBounds(s: string) returns (i: nat, j: nat)
    ensures i <= j <= |s| && s[i..j] == Trim(s)
    ensures AllWhiteSpace(s[..i]) && AllWhiteSpace(s[j..])
  {
    var t := TrimStart(s);
    var r := TrimEnd(t);
    i := |s| - |t|;
    j := i + |r|;
    assert Trim(s) == r;
    PrefixIsSlice(r, t);
    SlicesOfSuffix(s, i, |r|);
    assert s[i..j] == r;
    assert s[j..] == t[|r|..];
  }

  /** `s.ToLower()` restricted to ASCII: 'A'..'Z' become 'a'..'z', every other
      character is kept. */
  function ToLowerAscii(s: string): (r: string)
    ensures |r| == |s|
    ensures forall i :: 0 <= i < |s| ==> r[i] == LowerAscii(s[i])
  {
    seq(|s|, i requires 0 <= i < |s| => LowerAscii(s[i]))
  }

  function LowerAscii(c: char): char {
    if 'A' <= c <= 'Z' then (c as int + 32) as char else c
  }

  /** `string.Join(separator, parts)`. */
  function Join(parts: seq<string>, separator: char): string
  {
    if parts == [] then []
    else if |parts| == 1 then parts[0]
    else parts[0] + [separator] + Join(parts[1..], separator)
  }

  /** `s.Split(separator)`: the pieces between separators, empty pieces kept. */
  function Split(s: string, separator: char): (parts: seq<string>)
    ensures |parts| >= 1
    ensures forall i :: 0 <= i < |parts| ==> separator !in parts[i]
    ensures Join(parts, separator) == s
    decreases |s|
  {
    if s == [] then [[]]
    else
      var rest := Split(s[1..], separator);
      if s[0] == separator then [[]] + rest
      else [[s[0]] + rest[0]] + rest[1..]
  }

  /** Splitting stops at the first separator: the piece before it comes first. */
  lemma {:induction false} SplitAtSeparator(a: string, separator: char, rest: string)
    requires separator !in a
    ensures Split(a + [separator] + rest, separator) == [a] + Split(rest, separator)
    decreases |a|
  {
    var s := a + [separator] + rest;
    if a == [] {
      assert s[1..] == rest;
    } else {
      assert s[1..] == a[1..] + [separator] + rest;
      SplitAtSeparator(a[1..], separator, rest);
      assert [a[0]] + a[1..] == a;
    }
  }

  /** A string without the separator splits into itself alone. */
  lemma {:induction false} SplitWithoutSeparator(a: string, separator: char)
    requires separator !in a
    ensures Split(a, separator) == [a]
    decreases |a|
  {
    if a != [] {
      SplitWithoutSeparator(a[1..], separator);
      assert [a[0]] + a[1..] == a;
    }
  }

  /** `Split` undoes `Join` when no piece holds the separator. */
  lemma {:induction false} SplitJoin(parts: seq<string>, separator: char)
    requires |parts| >= 1
    requires forall i :: 0 <= i < |parts| ==> separator !in parts[i]
    ensures Split(Join(parts, separator), separator) == parts
    decreases |parts|
  {
    if |parts| == 1 {
      SplitWithoutSeparator(parts[0], separator);
    } else {
      SplitJoin(parts[1..], separator);
      SplitAtSeparator(parts[0], separator, Join(parts[1..], separator));
      assert [parts[0]] + parts[1..] == parts;
    }
  }
}
