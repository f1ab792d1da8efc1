/** `ThemeManager` (script.js): a light/dark switch kept on the document and in local storage. */
module Theme {
  import opened Wrappers

  const Light: string := "light"
  const Dark: string := "dark"

  /** The toggle button's icon: a moon offers the dark theme, a sun the light one. */
  datatype Icon = Moon | Sun

  /** The theme read at start-up: the stored value, unless it is absent or empty. */
  function InitialTheme(stored: Option<string>): (t: string)
    ensures t != ""
    ensures stored.Some? && stored.value != "" ==> t == stored.value
    ensures stored.None? || stored.value == "" ==> t == Light
  {
    if stored.Some? && stored.value != "" then stored.value else Light
  }

  /** The conditional of `toggleTheme`: "light" becomes "dark", every other value "light". */
  function Toggled(theme: string): (t: string)
    ensures t == Light || t == Dark
    ensures t == Dark <==> theme == Light
  {
    if theme == Light then Dark else Light
  }

  /** `updateThemeIcon`: a moon while the theme is "light", a sun otherwise. */
  function IconFor(theme: string): Icon {
    if theme == Light then Moon else Sun
  }

  /** Toggling twice restores the theme exactly when it was "light" or "dark"; any other value
      ends as "dark". */
  lemma ToggleTwice(theme: string)
    ensures Toggled(Toggled(theme)) == theme <==> theme == Light || theme == Dark
    ensures theme != Light ==> Toggled(Toggled(theme)) == Dark
  {
  }

  class ThemeManager {
    var currentTheme: string
    /** The `data-theme` attribute of the document element. */
    var documentTheme: string
    /** The 'theme' entry of local storage. */
    var storedTheme: string
    var icon: Icon

    /** The document, the storage and the icon all agree with `currentTheme`. */
    ghost predicate Valid()
      reads this
    {
      documentTheme == currentTheme && storedTheme == currentTheme && icon == IconFor(currentTheme)
    }

    /** `constructor` and `init`: `stored` is what local storage held under 'theme'. */
    constructor (stored: Option<string>)
      ensures Valid()
      ensures currentTheme == InitialTheme(stored)
    {
      var theme := InitialTheme(stored);
      currentTheme := theme;
      documentTheme := "";
      storedTheme := stored.GetOr("");
      icon := Moon;
      new;
      SetTheme(currentTheme);
      UpdateThemeIcon();
    }

    /** `setTheme`: applies `theme` to the document and remembers it. */
    method SetTheme(theme: string)
      modifies this
      ensures currentTheme == theme && documentTheme == theme && storedTheme == theme
      ensures icon == old(icon)
    {
      documentTheme := theme;
      currentTheme := theme;
      storedTheme := theme;
    }

    method UpdateThemeIcon()
      modifies this
      ensures icon == IconFor(currentTheme)
      ensures currentTheme == old(currentTheme) && documentTheme == old(documentTheme)
      ensures storedTheme == old(storedTheme)
    {
      icon := IconFor(currentTheme);
    }

    /** `toggleTheme`: switches between the two themes and keeps everything in agreement. */
    method ToggleTheme()
      requires Valid()
      modifies this
      ensures Valid()
      ensures currentTheme == Toggled(old(currentTheme))
    {
      var newTheme := Toggled(currentTheme);
      SetTheme(newTheme);
      UpdateThemeIcon();
    }
  }
}
