/** The theme button of both authentication forms: the next theme is the
    entry after the current one in ["light", "dark", "system"], wrapping
    around; `indexOf` gives -1 for a theme outside the list, so that case
    lands on the first entry. */
module ThemeCycle {
  import opened JsText

  const Themes: seq<string> := ["light", "dark", "system"]

  /** `themes[(themes.indexOf(theme) + 1) % themes.length]`; the dividend is
      never negative, so JavaScript's `%` and Dafny's agree. Whatever the
      current theme, the next one is listed, and a press always changes it. */
  function NextTheme(theme: string): (r: string)
    ensures r in Themes
    ensures r != theme
  {
    var i := (IndexOf(Themes, theme) + 1) % |Themes|;
    assert Themes[i] in Themes;
    assert theme in Themes ==> IndexOf(Themes, theme) != i && Themes[IndexOf(Themes, theme)] == theme;
    Themes[i]
  }

  /** light goes to dark, dark to system, and system back to light. */
  lemma NextThemeSteps()
    ensures NextTheme("light") == "dark"
    ensures NextTheme("dark") == "system"
    ensures NextTheme("system") == "light"
  {
    assert Themes[0] == "light" && Themes[1] == "dark" && Themes[2] == "system";
    assert IndexOf(Themes, "light") == 0;
    assert "dark" != "light";
    assert IndexOf(Themes, "dark") == 1;
    assert "system" != "light" && "system" != "dark";
    assert IndexOf(Themes, "system") == 2;
  }

  /** Any theme that is not in the list moves to "light". */
  lemma UnknownThemeGoesToLight(theme: string)
    requires theme !in Themes
    ensures NextTheme(theme) == "light"
  {
  }

  /** From a listed theme, the next one is the following list entry, cyclically. */
  lemma NextThemeFollowsList(i: nat)
    requires i < |Themes|
    ensures NextTheme(Themes[i]) == Themes[(i + 1) % |Themes|]
  {
    assert IndexOf(Themes, Themes[i]) == i;
  }

  /** Three presses return to the starting theme, for every listed theme. */
  lemma NextThemePeriodThree(theme: string)
    requires theme in Themes
    ensures NextTheme(NextTheme(NextTheme(theme))) == theme
  {
    var i :| 0 <= i < |Themes| && Themes[i] == theme;
    var j, k := (i + 1) % 3, (i + 2) % 3;
    assert (j + 1) % 3 == k && (k + 1) % 3 == i by {
      if i == 0 {} else if i == 1 {} else {}
    }
    NextThemeFollowsList(i);
    var a := NextTheme(theme);
    assert a == Themes[j];
    NextThemeFollowsList(j);
    var b := NextTheme(a);
    assert b == Themes[k];
    NextThemeFollowsList(k);
  }

  /** An unknown theme joins the cycle at "light" after one press. */
  lemma UnknownThemeJoinsCycle(theme: string)
    requires theme !in Themes
    ensures NextTheme(NextTheme(NextTheme(NextTheme(theme)))) == "light"
  {
    var first := NextTheme(theme);
    assert first == Themes[0];
    NextThemePeriodThree(first);
  }
}
