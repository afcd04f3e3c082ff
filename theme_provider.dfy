/**
 * The theme provider: the current theme and the mounted flag, the restore of
 * the saved preference on mount, theme changes, and the `useTheme` guard.
 * Before it has mounted the provider renders its children without a context.
 */
module ThemeProvider {
  import opened Wrappers
  import opened Themes

  /** The value the provider hands to `useTheme`. */
  datatype ThemeContext = ThemeContext(currentTheme: Theme, availableThemes: seq<Theme>)

  const OutsideProvider: string := "useTheme must be used within ThemeProvider"

  class Provider {
    var currentTheme: Theme
    var mounted: bool
    const browser: Browser

    constructor (browser: Browser)
      ensures currentTheme == Light && !mounted && this.browser == browser
    {
      currentTheme := Light;
      mounted := false;
      this.browser := browser;
    }

    /** The mount effect: the saved preference, or light, becomes current and is applied. */
    method Mount()
      requires browser.hasWindow
      modifies this, browser
      ensures currentTheme == GetTheme(SavedTheme(true, old(browser.storage)))
      ensures mounted
      ensures browser.style == StyleOf(old(browser.style), currentTheme.colors)
      ensures browser.storage == old(browser.storage)[PreferenceKey := currentTheme.id]
    {
      var savedTheme := browser.GetSavedTheme();
      var theme := GetTheme(savedTheme);
      currentTheme := theme;
      browser.ApplyTheme(theme);
      mounted := true;
    }

    /** `handleSetTheme`: the theme with that id, or light, becomes current and is applied. */
    method SetTheme(themeId: string)
      requires browser.hasWindow
      modifies this, browser
      ensures currentTheme == GetTheme(themeId) && mounted == old(mounted)
      ensures browser.style == StyleOf(old(browser.style), currentTheme.colors)
      ensures browser.storage == old(browser.storage)[PreferenceKey := currentTheme.id]
    {
      var theme := GetTheme(themeId);
      currentTheme := theme;
      browser.ApplyTheme(theme);
    }

    /** `useTheme` under this provider: the context once mounted, the thrown error before. */
    function UseTheme(): (r: Result<ThemeContext, string>)
      reads this
      ensures r.Ok? <==> mounted
      ensures r.Ok? ==> r.value == ThemeContext(currentTheme, AvailableThemes)
      ensures r.Err? ==> r.error == OutsideProvider
    {
      if mounted then Ok(ThemeContext(currentTheme, AvailableThemes)) else Err(OutsideProvider)
    }
  }

  /**
   * A theme chosen with `setTheme` is the one a later mount, in a new page
   * load with the same storage, restores.
   */
  lemma ChosenThemeRestored(storage: map<string, string>, themeId: string)
    ensures GetTheme(SavedTheme(true, storage[PreferenceKey := GetTheme(themeId).id])) == GetTheme(themeId)
  {
    ApplyThenSaved(storage, GetTheme(themeId));
  }

  /** Mounting with nothing saved, or with an unknown id saved, gives the light theme. */
  lemma MountFallsBackToLight(storage: map<string, string>)
    requires PreferenceKey !in storage || storage[PreferenceKey] !in ThemeTable
    ensures GetTheme(SavedTheme(true, storage)) == Light
  {
  }
}
