/** What the two regular expressions of the authentication forms accept.

    The email pattern `^[^\s@]+@[^\s@]+\.[^\s@]+$` and the password pattern
    `(?=.*[a-z])(?=.*[A-Z])(?=.*\d)` are each given twice: once as the
    regular-expression semantics (a ghost existential over match positions)
    and once as a direct check that the validators evaluate; a lemma proves
    the two agree on every string.  Neither pattern carries a flag, so `^`
    and `$` anchor the whole value and `.` stops at line terminators. */
module AuthRules {
  import opened Wrappers
  import opened JsText

  // ---------------------------------------------------------------------
  // The email pattern
  // ---------------------------------------------------------------------

  /** The class `[^\s@]`. */
  predicate EmailChar(c: char) {
    !IsJsSpace(c) && c != '@'
  }

  predicate AllEmailChars(s: string) {
    forall k :: 0 <= k < |s| ==> EmailChar(s[k])
  }

  /** The pattern matches with its `@` at `i` and its `\.` at `j`. */
  ghost predicate EmailSplitAt(s: string, i: int, j: int) {
    && 0 < i && i + 1 < j && j + 1 < |s|
    && s[i] == '@' && s[j] == '.'
    && AllEmailChars(s[..i]) && AllEmailChars(s[i + 1..j]) && AllEmailChars(s[j + 1..])
  }

  /** `/^[^\s@]+@[^\s@]+\.[^\s@]+$/.test(s)`. */
  ghost predicate EmailPatternMatches(s: string) {
    exists i, j :: EmailSplitAt(s, i, j)
  }

  predicate NoSpace(s: string) {
    forall k :: 0 <= k < |s| ==> !IsJsSpace(s[k])
  }

  /** A `.` that is neither the first nor the last character. */
  predicate HasInnerDot(d: string) {
    exists j :: 0 < j < |d| - 1 && d[j] == '.'
  }

  /** The check the validators evaluate: no white space, a non-empty part
      before the first `@`, no second `@`, and an inner `.` after it. */
  predicate AcceptedEmail(s: string) {
    var at := IndexOf(s, '@');
    0 < at && NoSpace(s) && '@' !in s[at + 1..] && HasInnerDot(s[at + 1..])
  }

  lemma EmailSplitIsAccepted(s: string, i: int, j: int)
    requires EmailSplitAt(s, i, j)
    ensures AcceptedEmail(s)
  {
    var before, middle, after := s[..i], s[i + 1..j], s[j + 1..];
    var at := IndexOf(s, '@');
    assert at == i;
    forall k | 0 <= k < |s|
      ensures !IsJsSpace(s[k])
    {
      if k < i {
        assert s[k] == before[k];
      } else if i < k < j {
        assert s[k] == middle[k - i - 1];
      } else if j < k {
        assert s[k] == after[k - j - 1];
      }
    }
    var d := s[i + 1..];
    assert d == middle + [s[j]] + after;
    assert d[j - i - 1] == '.';
  }

  lemma AcceptedHasEmailSplit(s: string)
    requires AcceptedEmail(s)
    ensures EmailPatternMatches(s)
  {
    var i := IndexOf(s, '@');
    var d := s[i + 1..];
    var jd :| 0 < jd < |d| - 1 && d[jd] == '.';
    var j := i + 1 + jd;
    assert s[j] == '.';
    forall k | 0 <= k < |s| && k != i && k != j
      ensures EmailChar(s[k])
    {
      if k < i {
        assert s[k] == s[..i][k];
      } else if k > i {
        assert s[k] == d[k - i - 1];
      }
    }
    assert AllEmailChars(s[..i]) by {
      forall k | 0 <= k < i ensures EmailChar(s[..i][k]) { assert s[..i][k] == s[k]; }
    }
    var middle, after := s[i + 1..j], s[j + 1..];
    assert AllEmailChars(middle) by {
      forall k | 0 <= k < |middle| ensures EmailChar(middle[k]) { assert middle[k] == s[i + 1 + k]; }
    }
    assert AllEmailChars(after) by {
      forall k | 0 <= k < |after| ensures EmailChar(after[k]) { assert after[k] == s[j + 1 + k]; }
    }
    assert EmailSplitAt(s, i, j);
  }

  /** The direct check accepts exactly what the pattern matches. */
  lemma EmailCheckIsPattern(s: string)
    ensures AcceptedEmail(s) <==> EmailPatternMatches(s)
  {
    if EmailPatternMatches(s) {
      var i, j :| EmailSplitAt(s, i, j);
      EmailSplitIsAccepted(s, i, j);
    }
    if AcceptedEmail(s) {
      AcceptedHasEmailSplit(s);
    }
  }

  /** A value the pattern accepts holds exactly one `@`, no white space, and
      is therefore not blank. */
  lemma EmailPatternShape(s: string)
    requires EmailPatternMatches(s)
    ensures NoSpace(s) && multiset(s)['@'] == 1 && !IsBlank(s)
  {
    var i, j :| EmailSplitAt(s, i, j);
    EmailSplitIsAccepted(s, i, j);
    var at := IndexOf(s, '@');
    assert s == s[..at] + [s[at]] + s[at + 1..];
    assert multiset(s) == multiset(s[..at]) + multiset([s[at]]) + multiset(s[at + 1..]);
    assert !IsJsSpace(s[0]);
  }

  /** The messages of the email rule, the same in both forms. */
  const EmailRequired := "Email is required"
  const EmailInvalid := "Please enter a valid email address"

  /** The email rule of both forms: a blank value is missing, otherwise the
      untrimmed value must match the pattern.  A value the pattern accepts
      is never blank, so the rule passes exactly on a match. */
  function EmailError(value: string): (r: Option<string>)
    ensures r == Some(EmailRequired) <==> IsBlank(value)
    ensures r == None <==> EmailPatternMatches(value)
    ensures r.Some? ==> r.value == EmailRequired || r.value == EmailInvalid
  {
    EmailCheckIsPattern(value);
    if IsBlank(value) then Some(EmailRequired)
    else if !AcceptedEmail(value) then Some(EmailInvalid)
    else None
  }

  // ---------------------------------------------------------------------
  // The password composition pattern
  // ---------------------------------------------------------------------

  datatype CharClass = Lowercase | Uppercase | DecimalDigit

  /** `[a-z]`, `[A-Z]` and `\d`: ASCII only, no flag widens them. */
  predicate InClass(c: char, cl: CharClass) {
    match cl
    case Lowercase => 'a' <= c <= 'z'
    case Uppercase => 'A' <= c <= 'Z'
    case DecimalDigit => '0' <= c <= '9'
  }

  predicate NoTerminatorBetween(s: string, p: int, q: int)
    requires 0 <= p <= q <= |s|
  {
    forall k :: p <= k < q ==> !IsLineTerminator(s[k])
  }

  /** `(?=.*X)` at position `p`: a character of class X follows on the same line. */
  ghost predicate ReachesOnLine(s: string, p: nat, cl: CharClass) {
    exists q :: p <= q < |s| && InClass(s[q], cl) && NoTerminatorBetween(s, p, q)
  }

  /** `/(?=.*[a-z])(?=.*[A-Z])(?=.*\d)/.test(s)`: the unanchored search
      succeeds at some position where all three lookaheads hold. */
  ghost predicate PasswordPatternMatches(s: string) {
    exists p: nat :: p <= |s| && ReachesOnLine(s, p, Lowercase) && ReachesOnLine(s, p, Uppercase)
                                && ReachesOnLine(s, p, DecimalDigit)
  }

  /** The lookahead for `cl` at `p` holds, or at `p == 0` the class was
      already seen earlier on the same line (`seen`). */
  ghost predicate Satisfied(s: string, p: nat, cl: CharClass, seen: bool) {
    (p == 0 && seen) || ReachesOnLine(s, p, cl)
  }

  /** All three lookaheads hold at `p`, counting what was seen before `s`. */
  ghost predicate AllSatisfied(s: string, p: nat, lo: bool, up: bool, dg: bool) {
    Satisfied(s, p, Lowercase, lo) && Satisfied(s, p, Uppercase, up) && Satisfied(s, p, DecimalDigit, dg)
  }

  ghost predicate PatternFrom(s: string, lo: bool, up: bool, dg: bool) {
    exists p: nat :: p <= |s| && AllSatisfied(s, p, lo, up, dg)
  }

  /** The check the validator evaluates: one left-to-right scan that records
      which classes the current line has shown and restarts at each line
      terminator. Once the current line has shown all three classes the
      test succeeds, whatever follows. */
  function ComposedFrom(s: string, lo: bool, up: bool, dg: bool): (r: bool)
    ensures lo && up && dg ==> r
    decreases |s|
  {
    if s == [] then lo && up && dg
    else if IsLineTerminator(s[0]) then (lo && up && dg) || ComposedFrom(s[1..], false, false, false)
    else ComposedFrom(s[1..], lo || InClass(s[0], Lowercase), up || InClass(s[0], Uppercase),
                      dg || InClass(s[0], DecimalDigit))
  }

  predicate Composed(s: string) {
    ComposedFrom(s, false, false, false)
  }

  /** Moving the start one character right is dropping that character. */
  lemma ReachesShift(s: string, p: nat, cl: CharClass)
    requires s != []
    ensures ReachesOnLine(s, p + 1, cl) <==> ReachesOnLine(s[1..], p, cl)
  {
    var t := s[1..];
    if ReachesOnLine(s, p + 1, cl) {
      var q :| p + 1 <= q < |s| && InClass(s[q], cl) && NoTerminatorBetween(s, p + 1, q);
      assert t[q - 1] == s[q];
      assert NoTerminatorBetween(t, p, q - 1) by {
        forall k | p <= k < q - 1 ensures !IsLineTerminator(t[k]) { assert t[k] == s[k + 1]; }
      }
    }
    if ReachesOnLine(t, p, cl) {
      var q :| p <= q < |t| && InClass(t[q], cl) && NoTerminatorBetween(t, p, q);
      assert s[q + 1] == t[q];
      assert NoTerminatorBetween(s, p + 1, q + 1) by {
        forall k | p + 1 <= k < q + 1 ensures !IsLineTerminator(s[k]) { assert s[k] == t[k - 1]; }
      }
    }
  }

  /** A lookahead at the start holds when the first character is in the class,
      or it is not a line terminator and the lookahead holds one further on. */
  lemma ReachesAtStart(s: string, cl: CharClass)
    requires s != []
    ensures ReachesOnLine(s, 0, cl) <==>
              !IsLineTerminator(s[0]) && (InClass(s[0], cl) || ReachesOnLine(s[1..], 0, cl))
  {
    ReachesShift(s, 0, cl);
    if ReachesOnLine(s, 0, cl) {
      var q :| 0 <= q < |s| && InClass(s[q], cl) && NoTerminatorBetween(s, 0, q);
      if q > 0 {
        assert NoTerminatorBetween(s, 1, q);
        assert ReachesOnLine(s, 1, cl);
      }
    }
    if !IsLineTerminator(s[0]) {
      if InClass(s[0], cl) {
        assert NoTerminatorBetween(s, 0, 0);
      } else if ReachesOnLine(s, 1, cl) {
        var q :| 1 <= q < |s| && InClass(s[q], cl) && NoTerminatorBetween(s, 1, q);
        assert NoTerminatorBetween(s, 0, q);
      }
    }
  }

  lemma PatternFromEmpty(lo: bool, up: bool, dg: bool)
    ensures PatternFrom([], lo, up, dg) <==> lo && up && dg
  {
    if lo && up && dg {
      assert AllSatisfied([], 0, lo, up, dg);
    }
  }

  /** Past the first character, the lookaheads at `p + 1` are those of the
      tail at `p`; nothing seen before `s` counts there. */
  lemma AllSatisfiedShift(s: string, p: nat, lo: bool, up: bool, dg: bool, lo': bool, up': bool, dg': bool)
    requires s != [] && 0 < p
    ensures AllSatisfied(s, p + 1, lo, up, dg) <==> AllSatisfied(s[1..], p, lo', up', dg')
  {
    ReachesShift(s, p, Lowercase);
    ReachesShift(s, p, Uppercase);
    ReachesShift(s, p, DecimalDigit);
  }

  lemma AllSatisfiedShiftToStart(s: string, lo: bool, up: bool, dg: bool)
    requires s != []
    ensures AllSatisfied(s, 1, lo, up, dg) <==> AllSatisfied(s[1..], 0, false, false, false)
  {
    ReachesShift(s, 0, Lowercase);
    ReachesShift(s, 0, Uppercase);
    ReachesShift(s, 0, DecimalDigit);
  }

  /** At a line terminator no lookahead holds, so only what was seen before counts. */
  lemma AllSatisfiedAtTerminator(s: string, lo: bool, up: bool, dg: bool)
    requires s != [] && IsLineTerminator(s[0])
    ensures AllSatisfied(s, 0, lo, up, dg) <==> lo && up && dg
  {
    ReachesAtStart(s, Lowercase);
    ReachesAtStart(s, Uppercase);
    ReachesAtStart(s, DecimalDigit);
  }

  /** A match at `p` of `s` is a match at `p - 1` of its tail, or `p` is 0. */
  lemma AllSatisfiedToTail(s: string, p: nat, lo: bool, up: bool, dg: bool)
    requires s != [] && 0 < p <= |s| && AllSatisfied(s, p, lo, up, dg)
    ensures AllSatisfied(s[1..], p - 1, false, false, false)
  {
    if p == 1 {
      AllSatisfiedShiftToStart(s, lo, up, dg);
    } else {
      AllSatisfiedShift(s, p - 1, lo, up, dg, false, false, false);
    }
  }

  lemma AllSatisfiedFromTail(s: string, p: nat, lo: bool, up: bool, dg: bool)
    requires s != [] && p <= |s| - 1 && AllSatisfied(s[1..], p, false, false, false)
    ensures AllSatisfied(s, p + 1, lo, up, dg)
  {
    if p == 0 {
      AllSatisfiedShiftToStart(s, lo, up, dg);
    } else {
      AllSatisfiedShift(s, p, lo, up, dg, false, false, false);
    }
  }

  /** After a line terminator the earlier line is finished. */
  lemma PatternFromTerminator(s: string, lo: bool, up: bool, dg: bool)
    requires s != [] && IsLineTerminator(s[0])
    ensures PatternFrom(s, lo, up, dg) <==> (lo && up && dg) || PatternFrom(s[1..], false, false, false)
  {
    var t := s[1..];
    AllSatisfiedAtTerminator(s, lo, up, dg);
    if lo && up && dg {
      assert AllSatisfied(s, 0, lo, up, dg);
    } else {
      if PatternFrom(s, lo, up, dg) {
        var p: nat :| p <= |s| && AllSatisfied(s, p, lo, up, dg);
        AllSatisfiedToTail(s, p, lo, up, dg);
        assert p - 1 <= |t|;
      }
      if PatternFrom(t, false, false, false) {
        var p: nat :| p <= |t| && AllSatisfied(t, p, false, false, false);
        AllSatisfiedFromTail(s, p, lo, up, dg);
        assert p + 1 <= |s|;
      }
    }
  }

  /** The lookahead for one class at the start of `s` is the lookahead at the
      start of its tail, with the first character added to what was seen. */
  lemma SatisfiedAtStart(s: string, cl: CharClass, seen: bool)
    requires s != [] && !IsLineTerminator(s[0])
    ensures Satisfied(s, 0, cl, seen) <==> Satisfied(s[1..], 0, cl, seen || InClass(s[0], cl))
  {
    ReachesAtStart(s, cl);
  }

  lemma AllSatisfiedAtStart(s: string, lo: bool, up: bool, dg: bool)
    requires s != [] && !IsLineTerminator(s[0])
    ensures AllSatisfied(s, 0, lo, up, dg) <==>
              AllSatisfied(s[1..], 0, lo || InClass(s[0], Lowercase), up || InClass(s[0], Uppercase),
                           dg || InClass(s[0], DecimalDigit))
  {
    SatisfiedAtStart(s, Lowercase, lo);
    SatisfiedAtStart(s, Uppercase, up);
    SatisfiedAtStart(s, DecimalDigit, dg);
  }

  /** A match of `s` one position in is weaker than one at its start. */
  lemma AllSatisfiedOneIn(s: string, lo: bool, up: bool, dg: bool)
    requires s != [] && !IsLineTerminator(s[0])
    requires AllSatisfied(s, 1, lo, up, dg)
    ensures AllSatisfied(s, 0, lo, up, dg)
  {
    ReachesAtStart(s, Lowercase);
    ReachesAtStart(s, Uppercase);
    ReachesAtStart(s, DecimalDigit);
    ReachesShift(s, 0, Lowercase);
    ReachesShift(s, 0, Uppercase);
    ReachesShift(s, 0, DecimalDigit);
  }

  lemma OrdinaryToTail(s: string, p: nat, lo: bool, up: bool, dg: bool)
    requires s != [] && !IsLineTerminator(s[0]) && p <= |s| && AllSatisfied(s, p, lo, up, dg)
    ensures PatternFrom(s[1..], lo || InClass(s[0], Lowercase), up || InClass(s[0], Uppercase),
                        dg || InClass(s[0], DecimalDigit))
  {
    var lo', up', dg' := lo || InClass(s[0], Lowercase), up || InClass(s[0], Uppercase), dg || InClass(s[0], DecimalDigit);
    AllSatisfiedAtStart(s, lo, up, dg);
    if p == 0 {
      assert AllSatisfied(s[1..], 0, lo', up', dg');
    } else if p == 1 {
      AllSatisfiedOneIn(s, lo, up, dg);
      assert AllSatisfied(s[1..], 0, lo', up', dg');
    } else {
      AllSatisfiedShift(s, p - 1, lo, up, dg, lo', up', dg');
      assert AllSatisfied(s[1..], p - 1, lo', up', dg');
    }
  }

  lemma OrdinaryFromTail(s: string, p: nat, lo: bool, up: bool, dg: bool)
    requires s != [] && !IsLineTerminator(s[0]) && p <= |s| - 1
    requires AllSatisfied(s[1..], p, lo || InClass(s[0], Lowercase), up || InClass(s[0], Uppercase),
                          dg || InClass(s[0], DecimalDigit))
    ensures PatternFrom(s, lo, up, dg)
  {
    if p == 0 {
      AllSatisfiedAtStart(s, lo, up, dg);
      assert AllSatisfied(s, 0, lo, up, dg);
    } else {
      AllSatisfiedShift(s, p, lo, up, dg, lo || InClass(s[0], Lowercase), up || InClass(s[0], Uppercase),
                        dg || InClass(s[0], DecimalDigit));
      assert AllSatisfied(s, p + 1, lo, up, dg);
    }
  }

  /** Within a line the scan carries the classes seen so far. */
  lemma PatternFromOrdinary(s: string, lo: bool, up: bool, dg: bool)
    requires s != [] && !IsLineTerminator(s[0])
    ensures PatternFrom(s, lo, up, dg) <==>
              PatternFrom(s[1..], lo || InClass(s[0], Lowercase), up || InClass(s[0], Uppercase),
                          dg || InClass(s[0], DecimalDigit))
  {
    var t := s[1..];
    var lo', up', dg' := lo || InClass(s[0], Lowercase), up || InClass(s[0], Uppercase), dg || InClass(s[0], DecimalDigit);
    if PatternFrom(s, lo, up, dg) {
      var p: nat :| p <= |s| && AllSatisfied(s, p, lo, up, dg);
      OrdinaryToTail(s, p, lo, up, dg);
    }
    if PatternFrom(t, lo', up', dg') {
      var p: nat :| p <= |t| && AllSatisfied(t, p, lo', up', dg');
      OrdinaryFromTail(s, p, lo, up, dg);
    }
  }

  lemma {:induction false} ComposedFromIsPatternFrom(s: string, lo: bool, up: bool, dg: bool)
    ensures ComposedFrom(s, lo, up, dg) <==> PatternFrom(s, lo, up, dg)
    decreases |s|
  {
    if s == [] {
      PatternFromEmpty(lo, up, dg);
    } else if IsLineTerminator(s[0]) {
      PatternFromTerminator(s, lo, up, dg);
      ComposedFromIsPatternFrom(s[1..], false, false, false);
    } else {
      PatternFromOrdinary(s, lo, up, dg);
      ComposedFromIsPatternFrom(s[1..], lo || InClass(s[0], Lowercase), up || InClass(s[0], Uppercase),
                                dg || InClass(s[0], DecimalDigit));
    }
  }

  /** The scan accepts exactly what the lookahead pattern matches. */
  lemma PasswordCheckIsPattern(s: string)
    ensures Composed(s) <==> PasswordPatternMatches(s)
  {
    ComposedFromIsPatternFrom(s, false, false, false);
    if PasswordPatternMatches(s) {
      var p: nat :| p <= |s| && ReachesOnLine(s, p, Lowercase) && ReachesOnLine(s, p, Uppercase)
                              && ReachesOnLine(s, p, DecimalDigit);
      assert AllSatisfied(s, p, false, false, false);
    }
    if PatternFrom(s, false, false, false) {
      var p: nat :| p <= |s| && AllSatisfied(s, p, false, false, false);
      assert ReachesOnLine(s, p, Lowercase) && ReachesOnLine(s, p, Uppercase) && ReachesOnLine(s, p, DecimalDigit);
    }
  }

  predicate HasClass(s: string, cl: CharClass) {
    exists q :: 0 <= q < |s| && InClass(s[q], cl)
  }

  /** On a value without line terminators (what a single-line input yields)
      the pattern asks for a lower-case letter, an upper-case letter and a
      digit anywhere. */
  lemma SingleLinePassword(s: string)
    requires forall k :: 0 <= k < |s| ==> !IsLineTerminator(s[k])
    ensures PasswordPatternMatches(s) <==>
              HasClass(s, Lowercase) && HasClass(s, Uppercase) && HasClass(s, DecimalDigit)
  {
    if HasClass(s, Lowercase) && HasClass(s, Uppercase) && HasClass(s, DecimalDigit) {
      var a :| 0 <= a < |s| && InClass(s[a], Lowercase);
      var b :| 0 <= b < |s| && InClass(s[b], Uppercase);
      var c :| 0 <= c < |s| && InClass(s[c], DecimalDigit);
      assert NoTerminatorBetween(s, 0, a) && NoTerminatorBetween(s, 0, b) && NoTerminatorBetween(s, 0, c);
      assert ReachesOnLine(s, 0, Lowercase) && ReachesOnLine(s, 0, Uppercase) && ReachesOnLine(s, 0, DecimalDigit);
    }
  }

  /** However the classes are spread over lines, a match needs all three. */
  lemma PasswordPatternNeedsAllClasses(s: string)
    requires PasswordPatternMatches(s)
    ensures HasClass(s, Lowercase) && HasClass(s, Uppercase) && HasClass(s, DecimalDigit)
    ensures !IsBlank(s)
  {
    var p: nat :| p <= |s| && ReachesOnLine(s, p, Lowercase) && ReachesOnLine(s, p, Uppercase)
                            && ReachesOnLine(s, p, DecimalDigit);
    var q :| p <= q < |s| && InClass(s[q], Lowercase) && NoTerminatorBetween(s, p, q);
    assert !IsJsSpace(s[q]);
  }

  /** The lookaheads stop at line terminators: "Aa", a line feed and "1"
      has all three classes, yet the pattern does not match it. */
  lemma ClassesOnSeparateLinesRejected(s: string)
    requires s == "Aa\n1"
    ensures HasClass(s, Lowercase) && HasClass(s, Uppercase) && HasClass(s, DecimalDigit)
    ensures !PasswordPatternMatches(s)
  {
    assert InClass(s[0], Uppercase) && InClass(s[1], Lowercase) && InClass(s[3], DecimalDigit);
    PasswordCheckIsPattern(s);
    assert IsLineTerminator(s[2]) && !IsLineTerminator(s[0]) && !IsLineTerminator(s[1]) && !IsLineTerminator(s[3]);
    assert !ComposedFrom(s[4..], false, false, true);
    assert !ComposedFrom(s[3..], false, false, false);
    assert !ComposedFrom(s[2..], true, true, false);
    assert !ComposedFrom(s[1..], false, true, false);
  }

  /** A blank value never satisfies the composition pattern. */
  lemma BlankFailsComposition(s: string)
    requires IsBlank(s)
    ensures !PasswordPatternMatches(s)
  {
    if PasswordPatternMatches(s) {
      PasswordPatternNeedsAllClasses(s);
    }
  }

  const PasswordRequired := "Password is required"
}
