/**
 * The JavaScript string built-ins that the site's logic relies on:
 * `String.prototype.trim`, the regular-expression classes `\s` and `\D`,
 * `replace` with a string pattern (first occurrence only) and `length`
 * (which counts UTF-16 code units). `IndexOf` is the reference definition of
 * "first occurrence" that the contract of `ReplaceFirst` is stated against.
 *
 * A Dafny `char` is a Unicode scalar value; `Utf16Length` recovers the
 * JavaScript length where it matters.
 */
module Text {

  /** A character of the class `\D`'s complement, `[0-9]`. */
  predicate IsDigit(c: char) {
    '0' <= c <= '9'
  }

  /**
   * The characters JavaScript's `\s` and `trim` treat as white space:
   * WhiteSpace and LineTerminator of ECMAScript (the Unicode "Zs" category,
   * tab, vertical tab, form feed, no-break space, BOM, LF, CR, LS and PS).
   */
  predicate IsWhitespace(c: char) {
    c == ' ' || c == '\t' || c == '\n' || c == '\U{B}' || c == '\U{C}' || c == '\r'
    || c == '\U{A0}' || c == '\U{1680}' || ('\U{2000}' <= c <= '\U{200A}')
    || c == '\U{2028}' || c == '\U{2029}' || c == '\U{202F}' || c == '\U{205F}'
    || c == '\U{3000}' || c == '\U{FEFF}'
  }

  predicate AllWhitespace(s: string) {
    forall k :: 0 <= k < |s| ==> IsWhitespace(s[k])
  }

  predicate AllDigits(s: string) {
    forall k :: 0 <= k < |s| ==> IsDigit(s[k])
  }

  /** `s.replace(/\D/g, "")`: the digits of `s`, in order. */
  function Digits(s: string): (d: string)
    ensures |d| <= |s|
    ensures AllDigits(d)
  {
    if s == [] then []
    else (if IsDigit(s[0]) then [s[0]] else []) + Digits(s[1..])
  }

  /** Taking the digits distributes over concatenation. */
  lemma {:induction false} DigitsAppend(a: string, b: string)
    ensures Digits(a + b) == Digits(a) + Digits(b)
  {
    if a == [] {
      assert a + b == b;
    } else {
      assert (a + b)[0] == a[0];
      assert (a + b)[1..] == a[1..] + b;
      DigitsAppend(a[1..], b);
    }
  }

  /** A string of digits is its own digits. */
  lemma {:induction false} DigitsOfDigits(s: string)
    requires AllDigits(s)
    ensures Digits(s) == s
  {
    if s != [] {
      DigitsOfDigits(s[1..]);
    }
  }

  /** A string without digits contributes nothing. */
  lemma {:induction false} DigitsOfNonDigits(s: string)
    requires forall k :: 0 <= k < |s| ==> !IsDigit(s[k])
    ensures Digits(s) == []
  {
    if s != [] {
      DigitsOfNonDigits(s[1..]);
    }
  }

  /** `s.indexOf(c)`: the first position of `c`, or -1. */
  function IndexOf(s: string, c: char): (i: int)
    ensures -1 <= i < |s|
    ensures i == -1 <==> c !in s
    ensures 0 <= i ==> s[i] == c && forall k :: 0 <= k < i ==> s[k] != c
  {
    if s == [] then -1
    else if s[0] == c then 0
    else
      var j := IndexOf(s[1..], c);
      if j == -1 then -1 else j + 1
  }

  /**
   * `s.replace(a, b)` with a one-character string pattern: only the first
   * occurrence of `a` is replaced; every other position is kept.
   */
  function ReplaceFirst(s: string, a: char, b: char): (r: string)
    ensures |r| == |s|
    ensures forall k :: 0 <= k < |s| ==> r[k] == if k == IndexOf(s, a) then b else s[k]
  {
    if s == [] then []
    else if s[0] == a then [b] + s[1..]
    else [s[0]] + ReplaceFirst(s[1..], a, b)
  }

  /** Replacing the first `a` of a string changes the first `a` and nothing else. */
  lemma {:induction false} ReplaceFirstAt(pre: string, post: string, a: char, b: char)
    requires a !in pre
    ensures ReplaceFirst(pre + [a] + post, a, b) == pre + [b] + post
  {
    if pre != [] {
      assert (pre + [a] + post)[1..] == pre[1..] + [a] + post;
      ReplaceFirstAt(pre[1..], post, a, b);
    }
  }

  /** A string without `a` is left as it is. */
  lemma {:induction false} ReplaceFirstAbsent(s: string, a: char, b: char)
    requires a !in s
    ensures ReplaceFirst(s, a, b) == s
  {
    if s != [] {
      ReplaceFirstAbsent(s[1..], a, b);
    }
  }

  /** `s.trimStart()`: drops the white space at the front. */
  function TrimStart(s: string): string {
    if s == [] || !IsWhitespace(s[0]) then s else TrimStart(s[1..])
  }

  /** What `TrimStart` keeps: a suffix that does not start with white space, after only white space. */
  lemma {:induction false} TrimStartSpec(s: string)
    ensures var r := TrimStart(s);
      |r| <= |s| && r == s[|s| - |r|..] && (r == [] || !IsWhitespace(r[0]))
      && forall k :: 0 <= k < |s| - |r| ==> IsWhitespace(s[k])
  {
    if s != [] && IsWhitespace(s[0]) {
      var r := TrimStart(s[1..]);
      TrimStartSpec(s[1..]);
      assert TrimStart(s) == r;
      assert s[1..][|s| - 1 - |r|..] == s[|s| - |r|..];
    }
  }

  /** `s.trimEnd()`: drops the white space at the back. */
  function TrimEnd(s: string): string {
    if s == [] || !IsWhitespace(s[|s| - 1]) then s else TrimEnd(s[..|s| - 1])
  }

  /** What `TrimEnd` keeps: a prefix that does not end with white space, before only white space. */
  lemma {:induction false} TrimEndSpec(s: string)
    ensures var r := TrimEnd(s);
      |r| <= |s| && r == s[..|r|] && (r == [] || !IsWhitespace(r[|r| - 1]))
      && forall k :: |r| <= k < |s| ==> IsWhitespace(s[k])
  {
    if s != [] && IsWhitespace(s[|s| - 1]) {
      var r := TrimEnd(s[..|s| - 1]);
      TrimEndSpec(s[..|s| - 1]);
      assert TrimEnd(s) == r;
      assert s[..|s| - 1][..|r|] == s[..|r|];
    }
  }

  /**
   * `s.trim()`: the longest slice of `s` that neither starts nor ends with
   * white space; it is empty exactly when `s` is all white space.
   */
  function Trim(s: string): (r: string)
    ensures |r| <= |s|
    ensures r == [] || (!IsWhitespace(r[0]) && !IsWhitespace(r[|r| - 1]))
    ensures r == [] <==> AllWhitespace(s)
  {
    TrimStartSpec(s);
    TrimEndSpec(TrimStart(s));
    TrimEnd(TrimStart(s))
  }

  /**
   * `Trim(s)` is the slice of `s` left between a run of white space at the
   * front and a run of white space at the back.
   */
  lemma TrimIsSlice(s: string)
    ensures var a := |s| - |TrimStart(s)|;
      var r := Trim(s);
      0 <= a && a + |r| <= |s| && r == s[a..a + |r|]
      && AllWhitespace(s[..a]) && AllWhitespace(s[a + |r|..])
  {
    var t := TrimStart(s);
    var a := |s| - |t|;
    var r := Trim(s);
    TrimStartSpec(s);
    TrimEndSpec(t);
    assert r == t[..|r|];
    assert t == s[a..];
    assert r == s[a..a + |r|];
    var back := s[a + |r|..];
    forall k | 0 <= k < |back| ensures IsWhitespace(back[k]) {
      assert back[k] == t[|r| + k];
    }
  }

  /** Trimming twice is trimming once. */
  lemma TrimIdempotent(s: string)
    ensures Trim(Trim(s)) == Trim(s)
  {
    var r := Trim(s);
    assert TrimStart(r) == r;
    assert TrimEnd(r) == r;
  }

  /** `(s.trim() || fallback)`: the trimmed text, or `fallback` when that is empty. */
  function TrimOr(s: string, fallback: string): (r: string)
    ensures AllWhitespace(s) ==> r == fallback
    ensures !AllWhitespace(s) ==> r == Trim(s) && r != []
  {
    var t := Trim(s);
    if t == [] then fallback else t
  }

  /**
   * `s.length`: the number of UTF-16 code units, two for each character
   * outside the Basic Multilingual Plane.
   */
  function Utf16Length(s: string): (n: nat)
    ensures |s| <= n <= 2 * |s|
  {
    if s == [] then 0
    else (if s[0] as int > 0xFFFF then 2 else 1) + Utf16Length(s[1..])
  }

  predicate IsPrefix(p: string, s: string) {
    |p| <= |s| && s[..|p|] == p
  }
}
