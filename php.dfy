/** The PHP built-ins that the form-field suggestion matcher relies on:
    `strtolower`, `str_replace` with an empty replacement, PHP 8 `str_contains`
    and `empty()`, over the values that the `array` cast of a JSON column yields. */
module Php {

  /** A decoded JSON value as a Laravel `array` cast yields it; JSON objects
      become ordered PHP arrays with string keys. */
  datatype Json =
    | JNull
    | JBool(b: bool)
    | JInt(i: int)
    | JString(s: string)
    | JList(items: seq<Json>)
    | JObject(entries: seq<(string, Json)>)

  /** PHP `empty($v)`: null, false, 0, "", "0" and the empty array are empty. */
  predicate IsEmpty(v: Json) {
    match v
    case JNull => true
    case JBool(b) => !b
    case JInt(i) => i == 0
    case JString(s) => s == "" || s == "0"
    case JList(items) => |items| == 0
    case JObject(entries) => |entries| == 0
  }

  /** `strtolower` on one character: ASCII letters only (PHP 8.2 and later). */
  function LowerChar(c: char): char {
    if 'A' <= c <= 'Z' then (c as int + 32) as char else c
  }

  function ToLower(s: string): (r: string)
    ensures |r| == |s|
    ensures forall i :: 0 <= i < |r| ==> !('A' <= r[i] <= 'Z')
  {
    seq(|s|, i requires 0 <= i < |s| => LowerChar(s[i]))
  }

  /** Lower-casing leaves a string without upper-case ASCII letters alone. */
  lemma LowerKeepsLowercase(s: string)
    requires forall i :: 0 <= i < |s| ==> !('A' <= s[i] <= 'Z')
    ensures ToLower(s) == s
  {
  }

  /** The three characters that `isFieldMatch` deletes before comparing. */
  predicate IsSeparator(c: char) {
    c == '_' || c == '-' || c == ' '
  }

  /** `str_replace(['_', '-', ' '], '', $s)`. */
  function StripSeparators(s: string): (r: string)
    ensures |r| <= |s|
    ensures forall i :: 0 <= i < |r| ==> !IsSeparator(r[i])
    ensures forall i :: 0 <= i < |s| && !IsSeparator(s[i]) ==> s[i] in r
  {
    if s == [] then []
    else (if IsSeparator(s[0]) then [] else [s[0]]) + StripSeparators(s[1..])
  }

  /** A string made only of separators strips to the empty string. */
  lemma {:induction false} StripOnlySeparators(s: string)
    requires forall i :: 0 <= i < |s| ==> IsSeparator(s[i])
    ensures StripSeparators(s) == []
  {
    if s != [] {
      StripOnlySeparators(s[1..]);
    }
  }

  /** PHP 8 `str_contains($haystack, $needle)`, scanning from the left. */
  function StrContains(haystack: string, needle: string): (r: bool)
    ensures r ==> |needle| <= |haystack|
    decreases |haystack|
  {
    if |needle| > |haystack| then false
    else haystack[..|needle|] == needle || StrContains(haystack[1..], needle)
  }

  /** The meaning of "haystack contains needle": it occurs at some offset. */
  ghost predicate OccursIn(needle: string, haystack: string) {
    exists i :: 0 <= i && OccursAt(needle, haystack, i)
  }

  ghost predicate OccursAt(needle: string, haystack: string, i: nat) {
    i + |needle| <= |haystack| && haystack[i..i + |needle|] == needle
  }

  /** The left-to-right scan finds the needle exactly when it occurs somewhere. */
  lemma {:induction false} StrContainsIsOccurrence(haystack: string, needle: string)
    ensures StrContains(haystack, needle) <==> OccursIn(needle, haystack)
    decreases |haystack|
  {
    if |needle| > |haystack| {
    } else if haystack[..|needle|] == needle {
      assert OccursAt(needle, haystack, 0);
    } else {
      var tail := haystack[1..];
      StrContainsIsOccurrence(tail, needle);
      if OccursIn(needle, tail) {
        var i :| 0 <= i && OccursAt(needle, tail, i);
        assert haystack[i + 1..i + 1 + |needle|] == tail[i..i + |needle|];
        assert OccursAt(needle, haystack, i + 1);
      }
      if OccursIn(needle, haystack) {
        var i :| 0 <= i && OccursAt(needle, haystack, i);
        assert i != 0;
        assert tail[i - 1..i - 1 + |needle|] == haystack[i..i + |needle|];
        assert OccursAt(needle, tail, i - 1);
      }
    }
  }

  /** PHP 8 treats the empty needle as contained in every string. */
  lemma EmptyNeedleIsContained(haystack: string)
    ensures StrContains(haystack, "")
  {
  }

  /** Every string contains itself. */
  lemma StrContainsReflexive(s: string)
    ensures StrContains(s, s)
  {
  }

  /** A needle holding a character that the haystack lacks is never contained. */
  lemma {:induction false} MissingCharNotContained(haystack: string, needle: string, c: char)
    requires c in needle && c !in haystack
    ensures !StrContains(haystack, needle)
    decreases |haystack|
  {
    if |needle| <= |haystack| {
      var k :| 0 <= k < |needle| && needle[k] == c;
      assert haystack[k] in haystack;
      assert haystack[..|needle|][k] != needle[k];
      MissingCharNotContained(haystack[1..], needle, c);
    }
  }
}
