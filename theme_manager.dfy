/**
 * src/utils/themeManager.ts: the colour theme kept in `localStorage` under
 * `theme-mode`, mirrored by the `dark` class of the root element.
 */
module ThemeManager {
  import opened Runtime

  const ThemeKey: string := "theme-mode"
  const Light: string := "light"
  const Dark: string := "dark"

  /**
   * `getTheme` (lines 15-34): any non-empty stored value, verbatim and
   * unchecked; otherwise "dark" exactly when a window prefers dark.
   */
  function GetTheme(b: Browser): (r: string)
    reads b
    ensures r != ""
    ensures b.hasWindow && ThemeKey in b.storage && b.storage[ThemeKey] != "" ==> r == b.storage[ThemeKey]
    ensures !(b.hasWindow && ThemeKey in b.storage && b.storage[ThemeKey] != "") ==>
      (r == Dark <==> b.hasWindow && b.prefersDark) && (r == Dark || r == Light)
  {
    if b.hasWindow && ThemeKey in b.storage && b.storage[ThemeKey] != "" then b.storage[ThemeKey]
    else if b.hasWindow && b.prefersDark then Dark
    else Light
  }

  /** `setTheme` (lines 40-54): stores the theme and shows the `dark` class exactly for "dark". */
  method SetTheme(b: Browser, theme: string)
    modifies b
    ensures b.hasWindow ==> b.storage == old(b.storage)[ThemeKey := theme] && (b.darkClass <==> theme == Dark)
    ensures !b.hasWindow ==> b.storage == old(b.storage) && b.darkClass == old(b.darkClass)
    ensures b.hasWindow && theme != "" ==> GetTheme(b) == theme
  {
    if b.hasWindow {
      b.storage := b.storage[ThemeKey := theme];
      if theme == Dark {
        b.darkClass := true;
      } else {
        b.darkClass := false;
      }
    }
  }

  /** Line 62: "dark" after "light", "light" after anything else. */
  function Flip(theme: string): (r: string)
    ensures r == Dark <==> theme == Light
    ensures r == Dark || r == Light
  {
    if theme == Light then Dark else Light
  }

  /** Flipping a proper theme twice gives it back. */
  lemma FlipTwice(theme: string)
    requires theme == Light || theme == Dark
    ensures Flip(Flip(theme)) == theme
  {
  }

  /** `toggleTheme` (lines 60-65): returns and persists the flip of the current theme. */
  method ToggleTheme(b: Browser) returns (theme: string)
    modifies b
    ensures theme == Flip(old(GetTheme(b)))
    ensures b.hasWindow ==> GetTheme(b) == theme && b.storage == old(b.storage)[ThemeKey := theme] && (b.darkClass <==> theme == Dark)
    ensures !b.hasWindow ==> b.storage == old(b.storage) && b.darkClass == old(b.darkClass)
  {
    var current := GetTheme(b);
    theme := Flip(current);
    SetTheme(b, theme);
  }

  /** `initTheme` (lines 71-74): persists and shows the theme `getTheme` resolves, which it keeps resolving to. */
  method InitTheme(b: Browser)
    modifies b
    ensures GetTheme(b) == old(GetTheme(b))
    ensures b.hasWindow ==> b.storage == old(b.storage)[ThemeKey := old(GetTheme(b))] && (b.darkClass <==> old(GetTheme(b)) == Dark)
    ensures !b.hasWindow ==> b.storage == old(b.storage) && b.darkClass == old(b.darkClass)
  {
    var theme := GetTheme(b);
    SetTheme(b, theme);
  }
}
