/** The JavaScript string operations the scanner relies on: `\s` and `trim`,
    `.length` in UTF-16 code units, `includes`, `toLowerCase` (ASCII part),
    number formatting of a label and `Array.prototype.join`. */
module JsText {

  /** ECMAScript WhiteSpace and LineTerminator code points: exactly what `\s`
      in a regular expression and `String.prototype.trim` treat as space. */
  predicate IsSpace(c: char) {
    || c == '\t' || c == '\n' || c == '\U{000B}' || c == '\U{000C}' || c == '\r'
    || c == ' ' || c == '\U{00A0}' || c == '\U{1680}'
    || ('\U{2000}' <= c <= '\U{200A}')
    || c == '\U{2028}' || c == '\U{2029}' || c == '\U{202F}' || c == '\U{205F}'
    || c == '\U{3000}' || c == '\U{FEFF}'
  }

  /** A character outside the Basic Multilingual Plane, i.e. one surrogate
      pair `[\uD800-\uDBFF][\uDC00-\uDFFF]` in JavaScript's UTF-16 strings. */
  predicate IsAstral(c: char) {
    c as int >= 0x10000
  }

  /** `s.length` in JavaScript: astral characters count as two code units. */
  function JsLength(s: string): (n: nat)
    ensures |s| <= n <= 2 * |s|
  {
    if |s| == 0 then 0 else (if IsAstral(s[0]) then 2 else 1) + JsLength(s[1..])
  }

  lemma {:induction false} JsLengthAppend(a: string, b: string)
    ensures JsLength(a + b) == JsLength(a) + JsLength(b)
    decreases |a|
  {
    if |a| == 0 {
      assert a + b == b;
    } else {
      assert (a + b)[1..] == a[1..] + b;
      JsLengthAppend(a[1..], b);
    }
  }

  /** On text without astral characters the code-unit length is the character count. */
  lemma {:induction false} JsLengthOfBmp(s: string)
    requires forall k :: 0 <= k < |s| ==> !IsAstral(s[k])
    ensures JsLength(s) == |s|
    decreases |s|
  {
    if |s| > 0 {
      JsLengthOfBmp(s[1..]);
    }
  }

  /** A string is the concatenation of its three slices around `i` and `j`. */
  lemma SliceThree(s: string, i: nat, j: nat)
    requires i <= j <= |s|
    ensures s == s[..i] + s[i..j] + s[j..]
  {
  }

  lemma JsLengthOfThree(s: string, a: string, b: string, c: string)
    requires s == a + b + c
    ensures JsLength(s) == JsLength(a) + JsLength(b) + JsLength(c)
  {
    JsLengthAppend(a, b);
    JsLengthAppend(a + b, c);
  }

  /** A slice never has more code units than the string it is cut from. */
  lemma JsLengthSlice(s: string, i: nat, j: nat)
    requires i <= j <= |s|
    ensures JsLength(s) == JsLength(s[..i]) + JsLength(s[i..j]) + JsLength(s[j..])
    ensures JsLength(s[i..j]) <= JsLength(s)
  {
    SliceThree(s, i, j);
    JsLengthOfThree(s, s[..i], s[i..j], s[j..]);
  }

  // ---------------------------------------------------------------- trimming

  /** Number of space characters at the start of `s`. */
  function LeadingSpaces(s: string): (n: nat)
    ensures n <= |s|
    ensures forall k :: 0 <= k < n ==> IsSpace(s[k])
    ensures n < |s| ==> !IsSpace(s[n])
  {
    if |s| > 0 && IsSpace(s[0]) then 1 + LeadingSpaces(s[1..]) else 0
  }

  /** Number of space characters at the end of `s`. */
  function TrailingSpaces(s: string): (n: nat)
    ensures n <= |s|
    ensures forall k :: |s| - n <= k < |s| ==> IsSpace(s[k])
    ensures n < |s| ==> !IsSpace(s[|s| - n - 1])
  {
    if |s| > 0 && IsSpace(s[|s| - 1]) then 1 + TrailingSpaces(s[..|s| - 1]) else 0
  }

  /** `s.trim()`: `s` without its leading and trailing spaces. */
  function Trim(s: string): (r: string)
    ensures |r| <= |s|
  {
    var t := s[LeadingSpaces(s)..];
    t[..|t| - TrailingSpaces(t)]
  }

  /** The trimmed text is the slice of `s` between its leading and its
      trailing spaces, and it neither starts nor ends with a space. */
  lemma TrimShape(s: string)
    ensures LeadingSpaces(s) + |Trim(s)| <= |s|
    ensures Trim(s) == s[LeadingSpaces(s)..LeadingSpaces(s) + |Trim(s)|]
    ensures forall k :: LeadingSpaces(s) + |Trim(s)| <= k < |s| ==> IsSpace(s[k])
    ensures Trim(s) == [] || (!IsSpace(Trim(s)[0]) && !IsSpace(Trim(s)[|Trim(s)| - 1]))
  {
    var lo := LeadingSpaces(s);
    var t := s[lo..];
    var r := t[..|t| - TrailingSpaces(t)];
    assert Trim(s) == r;
    assert r == s[lo..lo + |r|];
    forall k | lo + |r| <= k < |s|
      ensures IsSpace(s[k])
    {
      assert s[k] == t[k - lo];
    }
  }

  /** `trim` never adds code units. */
  lemma JsLengthTrim(s: string)
    ensures JsLength(Trim(s)) <= JsLength(s)
  {
    TrimShape(s);
    SliceNoLonger(s, Trim(s), LeadingSpaces(s), LeadingSpaces(s) + |Trim(s)|);
  }

  lemma SliceNoLonger(s: string, r: string, i: nat, j: nat)
    requires i <= j <= |s| && r == s[i..j]
    ensures JsLength(r) <= JsLength(s)
  {
    JsLengthSlice(s, i, j);
  }

  /** Text that has no space at either end is left alone by `trim`. */
  lemma TrimOfTrimmed(s: string)
    requires s == [] || (!IsSpace(s[0]) && !IsSpace(s[|s| - 1]))
    ensures Trim(s) == s
  {
    if s != [] {
      assert LeadingSpaces(s) == 0;
      assert TrailingSpaces(s) == 0;
    }
  }

  /** `s.trim().length > 0` fails exactly for text made only of spaces. */
  predicate IsBlank(s: string) {
    |Trim(s)| == 0
  }

  lemma BlankIffAllSpace(s: string)
    ensures IsBlank(s) <==> forall k :: 0 <= k < |s| ==> IsSpace(s[k])
  {
    TrimShape(s);
    if forall k :: 0 <= k < |s| ==> IsSpace(s[k]) {
      assert LeadingSpaces(s) == |s|;
    }
  }

  // ---------------------------------------------------------------- case

  /** `toLowerCase` on one character, for the ASCII letters. */
  function LowerChar(c: char): char {
    if 'A' <= c <= 'Z' then (c as int + 32) as char else c
  }

  function Lower(s: string): string {
    seq(|s|, i requires 0 <= i < |s| => LowerChar(s[i]))
  }

  /** Text with no upper-case ASCII letter is its own lower-case form. */
  lemma LowerOfLower(s: string)
    requires forall k :: 0 <= k < |s| ==> !('A' <= s[k] <= 'Z')
    ensures Lower(s) == s
  {
  }

  // ---------------------------------------------------------------- search

  /** `w` occurs in `s` starting at index `i`. */
  predicate OccursAt(s: string, w: string, i: int) {
    0 <= i && i + |w| <= |s| && s[i..i + |w|] == w
  }

  /** `s.includes(w)`: `w` occurs in `s` as a contiguous block. */
  ghost predicate Includes(s: string, w: string) {
    exists i :: OccursAt(s, w, i)
  }

  /** Past a position where `w` does not start, an occurrence lies in the rest. */
  lemma IncludesShift(s: string, w: string)
    requires |s| > 0 && !(w <= s)
    ensures Includes(s, w) <==> Includes(s[1..], w)
  {
    if Includes(s, w) {
      var i :| OccursAt(s, w, i);
      assert s[0..|w|] == s[..|w|];
      assert i != 0;
      assert s[1..][i - 1..i - 1 + |w|] == s[i..i + |w|];
      assert OccursAt(s[1..], w, i - 1);
    }
    if Includes(s[1..], w) {
      var i :| OccursAt(s[1..], w, i);
      assert s[i + 1..i + 1 + |w|] == s[1..][i..i + |w|];
      assert OccursAt(s, w, i + 1);
    }
  }

  /** The left-to-right search `includes` performs. */
  function SearchIncludes(s: string, w: string): (r: bool)
    ensures r <==> Includes(s, w)
    decreases |s|
  {
    if w <= s then
      assert OccursAt(s, w, 0);
      true
    else if |s| == 0 then
      false
    else
      IncludesShift(s, w);
      SearchIncludes(s[1..], w)
  }

  // ---------------------------------------------------------------- numbers

  /** Number of decimal digits of `n`. */
  function Digits(n: nat): nat {
    if n < 10 then 1 else 1 + Digits(n / 10)
  }

  lemma {:induction false} DigitsMonotone(a: nat, b: nat)
    requires a <= b
    ensures Digits(a) <= Digits(b)
    decreases b
  {
    if b >= 10 && a >= 10 {
      DigitsMonotone(a / 10, b / 10);
    }
  }

  function DigitChar(d: nat): char
    requires d < 10
  {
    ('0' as int + d) as char
  }

  /** `${n}` for a natural number: its decimal digits. */
  function NatToString(n: nat): (s: string)
    ensures |s| == Digits(n)
    ensures forall k :: 0 <= k < |s| ==> '0' <= s[k] <= '9'
  {
    if n < 10 then [DigitChar(n)] else NatToString(n / 10) + [DigitChar(n % 10)]
  }

  /** `parts.join(sep)`. */
  function Join(parts: seq<string>, sep: string): string {
    if |parts| == 0 then ""
    else if |parts| == 1 then parts[0]
    else parts[0] + sep + Join(parts[1..], sep)
  }
}
