/** The theme preference and the order in which the theme button cycles it. */
module Themes {
  import opened Lookup

  /** The cycle of `toggleTheme`; any other stored value is not in it. */
  const Cycle: seq<string> := ["light", "dark", "system"]

  /** JavaScript's `indexOf`: the first position, or -1 when absent. */
  function IndexOf(s: seq<string>, x: string): (i: int)
    ensures -1 <= i < |s|
    ensures i == -1 <==> x !in s
    ensures i >= 0 ==> s[i] == x
    ensures i >= 0 ==> forall j :: 0 <= j < i ==> s[j] != x
  {
    match FirstIndexOf(s, x)
    case None => -1
    case Some(k) => k
  }

  /** The theme after one press of the theme button. */
  function NextTheme(theme: string): (r: string)
    ensures r in Cycle
    ensures theme !in Cycle ==> r == "light"
  {
    Cycle[(IndexOf(Cycle, theme) + 1) % |Cycle|]
  }

  /** The button walks light, dark, system and back to light. */
  lemma ThemeCycle()
    ensures NextTheme("light") == "dark"
    ensures NextTheme("dark") == "system"
    ensures NextTheme("system") == "light"
  {
    assert Cycle[0] == "light" && Cycle[1] == "dark" && Cycle[2] == "system";
    assert IndexOf(Cycle, "light") == 0;
    assert IndexOf(Cycle, "dark") == 1;
    assert IndexOf(Cycle, "system") == 2;
  }

  /** Three presses from any theme of the cycle return to it. */
  lemma ThreeTogglesReturn(theme: string)
    requires theme in Cycle
    ensures NextTheme(NextTheme(NextTheme(theme))) == theme
  {
    ThemeCycle();
  }

  /** A stored value outside the cycle is replaced by light and then cycles normally. */
  lemma UnknownThemeJoinsCycle(theme: string)
    requires theme !in Cycle
    ensures NextTheme(theme) == "light"
    ensures NextTheme(NextTheme(NextTheme(NextTheme(theme)))) == "light"
  {
    ThemeCycle();
  }
}
