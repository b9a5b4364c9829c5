/** String primitives of the JavaScript runtime that the modelled code relies
    on: character classes of regular expressions, `startsWith`/`endsWith`,
    `String(n)`, `padStart`, `slice(-2)`, `join`, `replace` (first match and
    global), `trim` and `split('/').pop()`. Strings are sequences of code
    points; `Utf16Length` gives JavaScript's `length`. */
module Text {
  import opened Wrappers

  /** The characters `\s` matches and `trim` removes: ECMAScript WhiteSpace
      and LineTerminator code points. */
  predicate IsJsSpace(c: char) {
    c == '\t' || c == '\n' || c == '\U{0B}' || c == '\U{0C}' || c == '\r' || c == ' '
    || c == '\U{A0}' || c == '\U{1680}' || ('\U{2000}' <= c <= '\U{200A}')
    || c == '\U{2028}' || c == '\U{2029}' || c == '\U{202F}' || c == '\U{205F}'
    || c == '\U{3000}' || c == '\U{FEFF}'
  }

  /** `\d` without the unicode flag: ASCII digits only. */
  predicate IsDigit(c: char) {
    '0' <= c <= '9'
  }

  /** `\w`: ASCII letters, digits and underscore. */
  predicate IsWordChar(c: char) {
    ('a' <= c <= 'z') || ('A' <= c <= 'Z') || IsDigit(c) || c == '_'
  }

  predicate AllDigits(s: string) {
    forall i :: 0 <= i < |s| ==> IsDigit(s[i])
  }

  predicate StartsWith(s: string, p: string) {
    |p| <= |s| && s[..|p|] == p
  }

  predicate EndsWith(s: string, p: string) {
    |p| <= |s| && s[|s| - |p|..] == p
  }

  /** The positions of the characters beyond U+FFFF. */
  function AstralPositions(s: string): set<int> {
    set i | 0 <= i < |s| && s[i] as int >= 0x1_0000
  }

  /** `length`: the number of UTF-16 code units, one per character and one
      more for each character beyond U+FFFF, which takes a surrogate pair. */
  function Utf16Length(s: string): nat {
    |s| + |AstralPositions(s)|
  }

  /** Within the Basic Multilingual Plane `length` counts characters. */
  lemma Utf16LengthBmp(s: string)
    requires forall i :: 0 <= i < |s| ==> s[i] as int < 0x1_0000
    ensures Utf16Length(s) == |s|
  {
    assert AstralPositions(s) == {};
  }

  /** Beyond it every character counts twice. */
  lemma {:induction false} Utf16LengthAstral(s: string)
    requires forall i :: 0 <= i < |s| ==> s[i] as int >= 0x1_0000
    ensures Utf16Length(s) == 2 * |s|
  {
    if s != [] {
      var t := s[..|s| - 1];
      Utf16LengthAstral(t);
      assert AstralPositions(s) == AstralPositions(t) + {|s| - 1};
    }
  }

  lemma PrefixOfConcat(a: string, b: string)
    ensures StartsWith(a + b, a)
  {
    assert (a + b)[..|a|] == a;
  }

  lemma SuffixOfConcat(a: string, b: string)
    ensures EndsWith(a + b, b)
  {
    assert (a + b)[|a|..] == b;
  }

  /** A suffix of the tail is a suffix of the whole. */
  lemma SuffixExtend(a: string, b: string, p: string)
    requires EndsWith(b, p)
    ensures EndsWith(a + b, p)
  {
    assert (a + b)[|a + b| - |p|..] == b[|b| - |p|..];
  }

  /** `t` occurs in `s` starting at index `i`. */
  predicate OccursAt(s: string, t: string, i: nat) {
    i + |t| <= |s| && s[i..i + |t|] == t
  }

  // ---------------------------------------------------------------------
  // Decimal rendering: String(n) for a non-negative integer

  function DigitChar(d: nat): (c: char)
    requires d < 10
    ensures IsDigit(c) && c as int - '0' as int == d
  {
    ('0' as int + d) as char
  }

  /** The number a string of decimal digits denotes. */
  function DigitsValue(s: string): nat
    requires AllDigits(s)
  {
    if s == [] then 0
    else DigitsValue(s[..|s| - 1]) * 10 + (s[|s| - 1] as int - '0' as int)
  }

  /** `String(n)`: decimal digits without leading zeros. */
  function NatToString(n: nat): (r: string)
    ensures 1 <= |r| && AllDigits(r)
    ensures |r| == 1 <==> n < 10
    ensures n >= 10 ==> r[0] != '0'
  {
    if n < 10 then [DigitChar(n)]
    else NatToString(n / 10) + [DigitChar(n % 10)]
  }

  /** Reading back the digits of `String(n)` yields `n`. */
  lemma {:induction false} NatToStringRoundTrip(n: nat)
    ensures DigitsValue(NatToString(n)) == n
  {
    var r := NatToString(n);
    if n >= 10 {
      NatToStringRoundTrip(n / 10);
      assert r[..|r| - 1] == NatToString(n / 10);
    }
  }

  /** `s.padStart(2, '0')`. */
  function PadStart2(s: string): (r: string)
    ensures |s| >= 2 ==> r == s
    ensures |s| < 2 ==> |r| == 2 && EndsWith(r, s)
                        && forall i :: 0 <= i < 2 - |s| ==> r[i] == '0'
  {
    if |s| >= 2 then s else if |s| == 1 then "0" + s else "00"
  }

  /** `s.slice(-2)`: the last two characters, or all of a shorter string. */
  function SliceLast2(s: string): (r: string)
    ensures |r| == if |s| < 2 then |s| else 2
    ensures forall i :: 0 <= i < |r| ==> r[i] == s[|s| - |r| + i]
  {
    if |s| < 2 then s else [s[|s| - 2], s[|s| - 1]]
  }

  /** `parts.join(sep)`. */
  function Join(parts: seq<string>, sep: string): string
  {
    if |parts| == 0 then ""
    else if |parts| == 1 then parts[0]
    else parts[0] + sep + Join(parts[1..], sep)
  }

  // ---------------------------------------------------------------------
  // replace

  /** Index of the first occurrence of `t` in `s` (`indexOf`). */
  function IndexOf(s: string, t: string): (r: Option<nat>)
    requires |t| > 0
    ensures r.Some? ==> OccursAt(s, t, r.value)
    ensures r.Some? ==> forall j: nat :: j < r.value ==> !OccursAt(s, t, j)
    ensures r.None? ==> forall j: nat :: !OccursAt(s, t, j)
    decreases |s|
  {
    if |s| < |t| then None
    else if s[..|t|] == t then Some(0)
    else
      OccursShift(s, t);
      match IndexOf(s[1..], t)
      case None => None
      case Some(k) => Some(k + 1)
  }

  /** An occurrence past the first index is an occurrence in the tail. */
  lemma OccursShift(s: string, t: string)
    requires s != []
    ensures forall j: nat :: 1 <= j ==> (OccursAt(s, t, j) <==> OccursAt(s[1..], t, j - 1))
  {
    forall j: nat | 1 <= j ensures OccursAt(s, t, j) <==> OccursAt(s[1..], t, j - 1) {
      if j + |t| <= |s| {
        assert s[1..][j - 1..j - 1 + |t|] == s[j..j + |t|];
      }
    }
  }

  /** `s.replace(t, v)` with a string pattern: only the first occurrence. */
  function ReplaceFirst(s: string, t: string, v: string): (r: string)
    requires |t| > 0
  {
    match IndexOf(s, t)
    case None => s
    case Some(i) => s[..i] + v + s[i + |t|..]
  }

  /** When `s` starts with `t`, replacing the first `t` drops that prefix. */
  lemma ReplaceFirstOfPrefix(s: string, t: string, v: string)
    requires |t| > 0 && StartsWith(s, t)
    ensures ReplaceFirst(s, t, v) == v + s[|t|..]
  {
    assert OccursAt(s, t, 0);
  }

  /** Replacing the first of a single character that `a` lacks replaces the
      one right after `a`. */
  lemma ReplaceFirstChar(a: string, c: char, b: string, v: string)
    requires forall i :: 0 <= i < |a| ==> a[i] != c
    ensures ReplaceFirst(a + [c] + b, [c], v) == a + v + b
  {
    var s := a + [c] + b;
    assert s[|a|..|a| + 1] == [c];
    assert OccursAt(s, [c], |a|);
    forall j: nat | j < |a| ensures !OccursAt(s, [c], j) {
      assert s[j..j + 1] == [a[j]];
    }
    assert IndexOf(s, [c]) == Some(|a|);
    assert s[..|a|] == a;
    assert s[|a| + 1..] == b;
  }

  /** `s.replace(new RegExp(t, 'g'), v)` for a pattern `t` without regular
      expression metacharacters: every non-overlapping occurrence, leftmost
      first. */
  function ReplaceAll(s: string, t: string, v: string): string
    requires |t| > 0
    decreases |s|
  {
    if |s| < |t| then s
    else if s[..|t|] == t then v + ReplaceAll(s[|t|..], t, v)
    else [s[0]] + ReplaceAll(s[1..], t, v)
  }

  /** A string in which the pattern's first character never appears comes
      back unchanged. */
  lemma {:induction false} ReplaceAllAbsent(s: string, t: string, v: string)
    requires |t| > 0
    requires forall i :: 0 <= i < |s| ==> s[i] != t[0]
    ensures ReplaceAll(s, t, v) == s
    decreases |s|
  {
    if |s| >= |t| {
      assert s[..|t|][0] == s[0] != t[0];
      ReplaceAllAbsent(s[1..], t, v);
    }
  }

  /** Global replacement distributes over a concatenation whose left part
      has no character of the pattern. */
  lemma {:induction false} ReplaceAllPrefixFree(a: string, b: string, t: string, v: string)
    requires |t| > 0
    requires forall i :: 0 <= i < |a| ==> a[i] != t[0]
    ensures ReplaceAll(a + b, t, v) == a + ReplaceAll(b, t, v)
    decreases |a|
  {
    if a != [] {
      var s := a + b;
      if |s| < |t| {
        ReplaceAllShort(s, t, v);
        ReplaceAllShort(b, t, v);
      } else {
        assert s[0] == a[0];
        assert s[..|t|][0] == a[0] != t[0];
        assert s[1..] == a[1..] + b;
        ReplaceAllPrefixFree(a[1..], b, t, v);
        assert ReplaceAll(s, t, v) == [a[0]] + ReplaceAll(a[1..] + b, t, v);
        assert a == [a[0]] + a[1..];
      }
    } else {
      assert a + b == b;
    }
  }

  lemma ReplaceAllShort(s: string, t: string, v: string)
    requires |t| > 0 && |s| < |t|
    ensures ReplaceAll(s, t, v) == s
  {
  }

  /** A leading occurrence of the pattern is replaced. */
  lemma ReplaceAllLeading(t: string, b: string, v: string)
    requires |t| > 0
    ensures ReplaceAll(t + b, t, v) == v + ReplaceAll(b, t, v)
  {
    assert (t + b)[..|t|] == t;
    assert (t + b)[|t|..] == b;
  }

  // ---------------------------------------------------------------------
  // trim

  function TrimStart(s: string): (r: string)
    ensures |r| <= |s| && r == s[|s| - |r|..]
    ensures r == [] || !IsJsSpace(r[0])
    ensures forall i :: 0 <= i < |s| - |r| ==> IsJsSpace(s[i])
  {
    if s != [] && IsJsSpace(s[0]) then TrimStart(s[1..]) else s
  }

  function TrimEnd(s: string): (r: string)
    ensures |r| <= |s| && r == s[..|r|]
    ensures r == [] || !IsJsSpace(r[|r| - 1])
    ensures forall i :: |r| <= i < |s| ==> IsJsSpace(s[i])
  {
    if s != [] && IsJsSpace(s[|s| - 1]) then TrimEnd(s[..|s| - 1]) else s
  }

  /** `s.trim()`. */
  function Trim(s: string): string
  {
    TrimEnd(TrimStart(s))
  }

  /** `r` is `s[i..j]`, everything outside that slice is whitespace, and
      `r` neither starts nor ends with whitespace. */
  predicate TrimmedSlice(s: string, r: string, i: int, j: int) {
    && 0 <= i <= j <= |s| && r == s[i..j]
    && (forall k :: 0 <= k < i ==> IsJsSpace(s[k]))
    && (forall k :: j <= k < |s| ==> IsJsSpace(s[k]))
    && (r == [] || (!IsJsSpace(r[0]) && !IsJsSpace(r[|r| - 1])))
  }

  /** `trim` removes only surrounding whitespace: the result is a slice of the
      input with no whitespace at either end, and everything cut off is
      whitespace. */
  lemma TrimIsSlice(s: string)
    ensures exists i, j :: TrimmedSlice(s, Trim(s), i, j)
  {
    var t := TrimStart(s);
    var r := TrimEnd(t);
    CutOfCut(s, t, r);
    assert Trim(s) == r;
    assert TrimmedSlice(s, Trim(s), |s| - |t|, |s| - |t| + |r|);
  }

  /** Whitespace cut from the front of `s` to leave `t`, then from the back
      of `t` to leave `r`: `r` is a slice of `s` with whitespace on both
      sides. */
  lemma CutOfCut(s: string, t: string, r: string)
    requires |t| <= |s| && t == s[|s| - |t|..] && forall k :: 0 <= k < |s| - |t| ==> IsJsSpace(s[k])
    requires t == [] || !IsJsSpace(t[0])
    requires |r| <= |t| && r == t[..|r|] && forall k :: |r| <= k < |t| ==> IsJsSpace(t[k])
    requires r == [] || !IsJsSpace(r[|r| - 1])
    ensures var i := |s| - |t|;
      && r == s[i..i + |r|]
      && (forall k :: 0 <= k < i ==> IsJsSpace(s[k]))
      && (forall k :: i + |r| <= k < |s| ==> IsJsSpace(s[k]))
      && (r == [] || (!IsJsSpace(r[0]) && !IsJsSpace(r[|r| - 1])))
  {
    var i := |s| - |t|;
    forall k | 0 <= k < |r| ensures r[k] == s[i + k] {
      assert r[k] == t[k];
    }
    forall k | i + |r| <= k < |s| ensures IsJsSpace(s[k]) {
      assert s[k] == t[k - i];
    }
    if r != [] {
      assert r[0] == t[0];
    }
  }

  // ---------------------------------------------------------------------
  // split('/').pop()

  /** `s.split('/').pop()`: the text after the last `/`, or all of `s` when it
      has none. */
  function LastSegment(s: string): (r: string)
    ensures |r| <= |s| && EndsWith(s, r)
    ensures forall i :: 0 <= i < |r| ==> r[i] != '/'
    ensures |r| < |s| ==> s[|s| - |r| - 1] == '/'
  {
    if s == [] then ""
    else if s[|s| - 1] == '/' then ""
    else LastSegment(s[..|s| - 1]) + [s[|s| - 1]]
  }

  /** The segment after the last separator is recovered exactly. */
  lemma {:induction false} LastSegmentOfJoin(prefix: string, seg: string)
    requires forall i :: 0 <= i < |seg| ==> seg[i] != '/'
    ensures LastSegment(prefix + "/" + seg) == seg
    decreases |seg|
  {
    var s := prefix + "/" + seg;
    if seg != [] {
      assert s[..|s| - 1] == prefix + "/" + seg[..|seg| - 1];
      LastSegmentOfJoin(prefix, seg[..|seg| - 1]);
    }
  }
}
