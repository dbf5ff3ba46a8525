/**
 * The few Python `str` operations the test-plan converter relies on:
 * `startswith`, the substring test `in`, `strip()` without arguments and
 * `split(sep)` with a one-character separator.
 */
module Strings {

  /** `s.startswith(prefix)` */
  predicate StartsWith(s: string, prefix: string) {
    |prefix| <= |s| && s[..|prefix|] == prefix
  }

  /** `sub in s` for a string `sub` */
  predicate Contains(s: string, sub: string) {
    exists i {:trigger StartsWith(s[i..], sub)} :: 0 <= i <= |s| && StartsWith(s[i..], sub)
  }

  /** Python's `str.isspace()` for one code point (the 29 white-space code points of Unicode as Python classifies them). */
  predicate IsSpace(c: char) {
    var n := c as int;
    (9 <= n <= 13) || (28 <= n <= 32) || n == 0x85 || n == 0xA0 || n == 0x1680
    || (0x2000 <= n <= 0x200A) || n == 0x2028 || n == 0x2029 || n == 0x202F
    || n == 0x205F || n == 0x3000
  }

  /** A string starts with `prefix` and continues with `t` exactly when it is `prefix + t`. */
  lemma StartsWithAppend(s: string, prefix: string, t: string)
    ensures StartsWith(s, prefix) && s[|prefix|..] == t <==> s == prefix + t
  {
    if s == prefix + t {
      assert s[..|prefix|] == prefix && s[|prefix|..] == t;
    }
    if StartsWith(s, prefix) {
      assert s == s[..|prefix|] + s[|prefix|..];
    }
  }

  /** `sub in s` exactly when `s` starts with `sub` or `sub` occurs in what follows the first character. */
  lemma ContainsScan(s: string, sub: string)
    ensures Contains(s, sub) <==> StartsWith(s, sub) || (|s| > 0 && Contains(s[1..], sub))
  {
    if Contains(s, sub) && !StartsWith(s, sub) {
      var i :| 0 <= i <= |s| && StartsWith(s[i..], sub);
      assert i > 0 && s[1..][i - 1..] == s[i..];
    }
    if StartsWith(s, sub) {
      assert s[0..] == s;
    }
    if |s| > 0 && Contains(s[1..], sub) {
      var i :| 0 <= i <= |s[1..]| && StartsWith(s[1..][i..], sub);
      assert s[i + 1..] == s[1..][i..];
    }
  }

  /** `sub` is in any string that has it between two others. */
  lemma ContainsInfix(a: string, sub: string, b: string)
    ensures Contains(a + sub + b, sub)
  {
    var s := a + sub + b;
    assert s[|a|..][..|sub|] == sub;
    assert StartsWith(s[|a|..], sub);
  }

  /**
   * Some code points `str.isspace()` accepts (space, tab, newline, carriage
   * return, the file separator, no-break space, ideographic space) and some
   * it does not (a letter, a digit, zero-width space, the byte-order mark).
   */
  lemma IsSpaceExamples()
    ensures IsSpace(' ') && IsSpace('\t') && IsSpace('\n') && IsSpace('\r')
    ensures IsSpace(0x1C as char) && IsSpace(0xA0 as char) && IsSpace(0x3000 as char)
    ensures !IsSpace('a') && !IsSpace('0') && !IsSpace(0x200B as char) && !IsSpace(0xFEFF as char)
  {
  }

  /** The number of white-space characters at the start of `s`. */
  function LeadingSpace(s: string): (k: nat)
    ensures k <= |s|
    ensures forall i :: 0 <= i < k ==> IsSpace(s[i])
    ensures k == |s| || !IsSpace(s[k])
  {
    if |s| == 0 || !IsSpace(s[0]) then 0 else 1 + LeadingSpace(s[1..])
  }

  /** The number of white-space characters at the end of `s`. */
  function TrailingSpace(s: string): (k: nat)
    ensures k <= |s|
    ensures forall i :: |s| - k <= i < |s| ==> IsSpace(s[i])
    ensures k == |s| || !IsSpace(s[|s| - 1 - k])
  {
    if |s| == 0 || !IsSpace(s[|s| - 1]) then 0 else 1 + TrailingSpace(s[..|s| - 1])
  }

  /**
   * `s.strip()`: `s` without its leading and trailing white space. The
   * result is the slice `s[lo..hi]` with only white space outside it and
   * no white space at either of its ends.
   */
  function Strip(s: string): (r: string)
    ensures |r| <= |s|
    ensures r == [] || (!IsSpace(r[0]) && !IsSpace(r[|r| - 1]))
    ensures r == [] ==> forall i :: 0 <= i < |s| ==> IsSpace(s[i])
    ensures exists lo :: StrippedAt(s, lo, r)
  {
    var lo := LeadingSpace(s);
    var t := s[lo..];
    var r := t[..|t| - TrailingSpace(t)];
    assert StrippedAt(s, lo, r);
    r
  }

  /** `r` is the slice of `s` that starts at `lo`, with only white space before and after it. */
  predicate StrippedAt(s: string, lo: int, r: string) {
    0 <= lo <= |s| - |r| && r == s[lo..lo + |r|]
    && (forall i :: 0 <= i < lo ==> IsSpace(s[i]))
    && (forall i :: lo + |r| <= i < |s| ==> IsSpace(s[i]))
  }

  /** Stripping twice is stripping once. */
  lemma StripIdempotent(s: string)
    ensures Strip(Strip(s)) == Strip(s)
  {
    var r := Strip(s);
    StripBorderless(r);
  }

  /** A string with no white space at either end is its own strip. */
  lemma StripBorderless(s: string)
    requires s == [] || (!IsSpace(s[0]) && !IsSpace(s[|s| - 1]))
    ensures Strip(s) == s
  {
    if s != [] {
      assert LeadingSpace(s) == 0;
      assert TrailingSpace(s) == 0;
    }
  }

  /** The index of the first occurrence of `c` in `s`. */
  function IndexOf(s: string, c: char): (i: nat)
    requires c in s
    ensures i < |s| && s[i] == c && c !in s[..i]
  {
    if s[0] == c then 0 else 1 + IndexOf(s[1..], c)
  }

  /**
   * `s.split(sep)` for a one-character separator: the pieces between the
   * occurrences of `sep`, always at least one (`"".split(",") == [""]`).
   */
  function Split(s: string, sep: char): (parts: seq<string>)
    ensures |parts| >= 1
    ensures forall i :: 0 <= i < |parts| ==> sep !in parts[i]
    decreases |s|
  {
    if sep !in s then [s]
    else
      var i := IndexOf(s, sep);
      [s[..i]] + Split(s[i + 1..], sep)
  }

  /** `sep.join(parts)` for a one-character separator. */
  function Join(parts: seq<string>, sep: char): string
    requires |parts| >= 1
  {
    if |parts| == 1 then parts[0] else parts[0] + [sep] + Join(parts[1..], sep)
  }

  /** Joining the pieces of a split gives back the original string. */
  lemma {:induction false} JoinSplit(s: string, sep: char)
    ensures Join(Split(s, sep), sep) == s
    decreases |s|
  {
    if sep in s {
      var i := IndexOf(s, sep);
      var head, tail := s[..i], s[i + 1..];
      var rest := Split(tail, sep);
      assert Split(s, sep) == [head] + rest;
      assert ([head] + rest)[0] == head && ([head] + rest)[1..] == rest;
      assert Join(Split(s, sep), sep) == head + [sep] + Join(rest, sep);
      JoinSplit(tail, sep);
      assert s == head + [sep] + tail;
    }
  }

  /** Splitting a join of separator-free pieces gives back those pieces. */
  lemma {:induction false} SplitJoin(parts: seq<string>, sep: char)
    requires |parts| >= 1
    requires forall i :: 0 <= i < |parts| ==> sep !in parts[i]
    ensures Split(Join(parts, sep), sep) == parts
    decreases |parts|
  {
    if |parts| > 1 {
      var rest := Join(parts[1..], sep);
      assert Join(parts, sep) == parts[0] + [sep] + rest;
      SplitAfterFree(parts[0], sep, rest);
      SplitJoin(parts[1..], sep);
      assert [parts[0]] + parts[1..] == parts;
    } else {
      assert sep !in parts[0];
    }
  }

  /** Splitting at a separator placed right after a separator-free piece yields that piece first. */
  lemma SplitAfterFree(a: string, sep: char, b: string)
    requires sep !in a
    ensures Split(a + [sep] + b, sep) == [a] + Split(b, sep)
  {
    var s := a + [sep] + b;
    IndexOfAfterFree(a, sep, b);
    assert s[..|a|] == a && s[|a| + 1..] == b;
  }

  /** A separator placed right after a separator-free piece is its first occurrence. */
  lemma IndexOfAfterFree(a: string, sep: char, b: string)
    requires sep !in a
    ensures sep in a + [sep] + b && IndexOf(a + [sep] + b, sep) == |a|
  {
    var s := a + [sep] + b;
    assert s[|a|] == sep;
  }
}
