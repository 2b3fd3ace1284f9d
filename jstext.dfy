/** JavaScript string and array built-ins the core calls: `String.prototype.trim`,
    `String.prototype.substring(0, n)` and `Array.prototype.indexOf`. */
module JsText {

  /** ECMAScript WhiteSpace and LineTerminator code points, the characters
      `trim()` strips: TAB, LF, VT, FF, CR, SPACE, NBSP, OGHAM SPACE MARK,
      U+2000..U+200A, LINE and PARAGRAPH SEPARATOR, NARROW NBSP, MEDIUM
      MATHEMATICAL SPACE, IDEOGRAPHIC SPACE and the BYTE ORDER MARK. */
  predicate IsWhiteSpace(c: char) {
    var n := c as int;
    (0x09 <= n <= 0x0D) || n == 0x20 || n == 0xA0 || n == 0x1680
    || (0x2000 <= n <= 0x200A) || n == 0x2028 || n == 0x2029
    || n == 0x202F || n == 0x205F || n == 0x3000 || n == 0xFEFF
  }

  /** The string contains a character that `trim()` keeps. */
  predicate HasVisibleChar(s: string) {
    exists i :: 0 <= i < |s| && !IsWhiteSpace(s[i])
  }

  /** Drops leading white space: the result is the suffix of `s` that starts at
      its first visible character (empty if there is none). */
  function TrimStart(s: string): (r: string)
    ensures |r| <= |s| && r == s[|s| - |r|..]
    ensures forall i :: 0 <= i < |s| - |r| ==> IsWhiteSpace(s[i])
    ensures r == [] || !IsWhiteSpace(r[0])
  {
    if |s| > 0 && IsWhiteSpace(s[0]) then TrimStart(s[1..]) else s
  }

  /** Drops trailing white space: the result is the prefix of `s` that ends at
      its last visible character (empty if there is none). */
  function TrimEnd(s: string): (r: string)
    ensures |r| <= |s| && r == s[..|r|]
    ensures forall i :: |r| <= i < |s| ==> IsWhiteSpace(s[i])
    ensures r == [] || !IsWhiteSpace(r[|r| - 1])
  {
    if |s| > 0 && IsWhiteSpace(s[|s| - 1]) then TrimEnd(s[..|s| - 1]) else s
  }

  /** `s.trim()`. */
  function Trim(s: string): string {
    TrimEnd(TrimStart(s))
  }

  /** `s.trim() !== ''` holds exactly when `s` has a visible character. */
  lemma TrimNonEmptyIff(s: string)
    ensures Trim(s) != "" <==> HasVisibleChar(s)
  {
  }

  /** JavaScript's `x && x.trim() !== ''` for a string that may be absent:
      present, non-empty, and not white space only. */
  predicate TrimmedNonEmpty(present: bool, s: string) {
    present && s != "" && Trim(s) != ""
  }

  /** The check above is exactly "present and has a visible character". */
  lemma TrimmedNonEmptyIff(present: bool, s: string)
    ensures TrimmedNonEmpty(present, s) <==> present && HasVisibleChar(s)
  {
  }

  /** `s.substring(0, end)`: the first `end` characters, or all of `s`. */
  function Prefix(s: string, end: nat): (r: string)
    ensures |r| == if end <= |s| then end else |s|
    ensures r == s[..|r|]
  {
    if end <= |s| then s[..end] else s
  }

  /** `xs.indexOf(x)`: the first position holding `x`, or -1. */
  function IndexOf(xs: seq<string>, x: string): (k: int)
    ensures -1 <= k < |xs|
    ensures k == -1 <==> x !in xs
    ensures k >= 0 ==> xs[k] == x && forall j :: 0 <= j < k ==> xs[j] != x
  {
    if |xs| == 0 then -1
    else if xs[0] == x then 0
    else
      var k := IndexOf(xs[1..], x);
      if k == -1 then -1 else k + 1
  }
}
