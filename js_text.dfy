/** The ECMAScript string built-ins that the sign-in and registration forms
    rely on: the white-space set shared by `String.prototype.trim` and the
    regular-expression class `\s`, `trim` itself, `length` (which counts
    UTF-16 code units) and `indexOf`. */
module JsText {

  /** ECMAScript WhiteSpace or LineTerminator: TAB, VT, FF, ZWNBSP, the
      space separators of category Zs, LF, CR, LS and PS. */
  predicate IsJsSpace(c: char) {
    || c == '\t' || c == '\n' || c == '\U{000B}' || c == '\U{000C}' || c == '\r'
    || c == ' ' || c == '\U{00A0}' || c == '\U{1680}'
    || ('\U{2000}' <= c <= '\U{200A}')
    || c == '\U{2028}' || c == '\U{2029}' || c == '\U{202F}' || c == '\U{205F}'
    || c == '\U{3000}' || c == '\U{FEFF}'
  }

  /** The characters that the regular-expression `.` does not match. */
  predicate IsLineTerminator(c: char) {
    c == '\n' || c == '\r' || c == '\U{2028}' || c == '\U{2029}'
  }

  lemma LineTerminatorIsSpace(c: char)
    requires IsLineTerminator(c)
    ensures IsJsSpace(c)
  {
  }

  predicate AllSpace(s: string) {
    forall k :: 0 <= k < |s| ==> IsJsSpace(s[k])
  }

  /** The length of the white-space prefix that `trim` removes. */
  function LeadingSpaces(s: string): (n: nat)
    ensures n <= |s|
    ensures forall k :: 0 <= k < n ==> IsJsSpace(s[k])
    ensures n < |s| ==> !IsJsSpace(s[n])
  {
    if s == [] || !IsJsSpace(s[0]) then 0 else 1 + LeadingSpaces(s[1..])
  }

  /** The length of the white-space suffix that `trim` removes. */
  function TrailingSpaces(s: string): (n: nat)
    ensures n <= |s|
    ensures forall k :: |s| - n <= k < |s| ==> IsJsSpace(s[k])
    ensures n < |s| ==> !IsJsSpace(s[|s| - n - 1])
  {
    if s == [] || !IsJsSpace(s[|s| - 1]) then 0 else 1 + TrailingSpaces(s[..|s| - 1])
  }

  /** `s.trim()`: the longest slice of `s` that neither starts nor ends with
      white space; it is empty exactly when `s` is all white space. */
  function Trim(s: string): (r: string)
    ensures |r| <= |s|
    ensures r == [] <==> AllSpace(s)
    ensures r != [] ==> !IsJsSpace(r[0]) && !IsJsSpace(r[|r| - 1])
    ensures r != [] ==> r == s[LeadingSpaces(s)..|s| - TrailingSpaces(s)]
  {
    var lead := LeadingSpaces(s);
    if lead == |s| then []
    else
      s[lead..|s| - TrailingSpaces(s)]
  }

  /** `!s.trim()`: the trimmed string is the falsy empty string. */
  predicate IsBlank(s: string) {
    Trim(s) == []
  }

  /** Trimming keeps every character strictly between the first and the last
      non-white-space character, and drops only white space around them. */
  lemma {:induction false} TrimDropsOnlySpace(s: string, k: nat)
    requires k < |s| && !IsJsSpace(s[k])
    ensures Trim(s) != []
    ensures LeadingSpaces(s) <= k < |s| - TrailingSpaces(s)
  {
    assert !AllSpace(s);
  }

  /** `s.length`: characters outside the Basic Multilingual Plane are a
      surrogate pair, two UTF-16 code units. */
  function Utf16Length(s: string): (n: nat)
    ensures |s| <= n <= 2 * |s|
    ensures n == 0 <==> s == []
  {
    if s == [] then 0 else (if s[0] as int > 0xFFFF then 2 else 1) + Utf16Length(s[1..])
  }

  /** A string of Basic Multilingual Plane characters has one code unit each. */
  lemma {:induction false} Utf16LengthOfBmp(s: string)
    requires forall k :: 0 <= k < |s| ==> s[k] as int <= 0xFFFF
    ensures Utf16Length(s) == |s|
  {
    if s != [] {
      Utf16LengthOfBmp(s[1..]);
    }
  }

  /** `Array.prototype.indexOf` and `String.prototype.indexOf` for one
      element: the first position of `x`, or -1. */
  function IndexOf<T(==)>(s: seq<T>, x: T): (r: int)
    ensures -1 <= r < |s|
    ensures r == -1 <==> x !in s
    ensures 0 <= r ==> s[r] == x && x !in s[..r]
  {
    if s == [] then -1
    else if s[0] == x then 0
    else
      var r := IndexOf(s[1..], x);
      assert s[1..][..if r < 0 then 0 else r] == s[1..1 + if r < 0 then 0 else r];
      if r == -1 then -1 else r + 1
  }
}
