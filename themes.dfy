/**
 * The colour themes: the table of four themes, the lookup with its fallback
 * to the light theme, and the browser state a theme is applied to, which is
 * the root element's style properties and the page's local storage, each a
 * map from name to value.
 */
module Themes {
  import Content

  datatype Colors = Colors(
    bgPrimary: string,
    bgSecondary: string,
    textPrimary: string,
    textSecondary: string,
    textMuted: string,
    accent: string,
    accentHover: string,
    accentSecondary: string,
    glassBlur: string,
    glassBg: string,
    shadowColor: string)

  datatype Theme = Theme(id: string, name: string, colors: Colors)

  const Light: Theme := Theme("light", "Light", Colors(
    "#fafafa", "#ffffff", "#1a1a1a", "#555555", "#888888", "#0071e3", "#0077ed", "#bf5af2",
    "80px", "rgba(255, 255, 255, 0.65)", "rgba(0, 0, 0, 0.08)"))

  const Dark: Theme := Theme("dark", "Dark", Colors(
    "#0a0a0a", "#1a1a1a", "#f5f5f5", "#a0a0a0", "#707070", "#0071e3", "#0077ed", "#bf5af2",
    "80px", "rgba(30, 30, 30, 0.65)", "rgba(0, 0, 0, 0.5)"))

  const Minimal: Theme := Theme("minimal", "Minimal", Colors(
    "#ffffff", "#f8f8f8", "#000000", "#666666", "#999999", "#000000", "#333333", "#666666",
    "40px", "rgba(255, 255, 255, 0.5)", "rgba(0, 0, 0, 0.05)"))

  const Gradient: Theme := Theme("gradient", "Gradient", Colors(
    "#1a1a2e", "#16213e", "#eaeaea", "#b0b0b0", "#808080", "#e94560", "#f55a7a", "#a166ff",
    "80px", "rgba(26, 26, 46, 0.65)", "rgba(233, 69, 96, 0.2)"))

  /** The ids of the table, in the order the table declares them. */
  const ThemeIds: seq<string> := ["light", "dark", "minimal", "gradient"]

  /** `themes`. */
  const ThemeTable: map<string, Theme> := map["light" := Light, "dark" := Dark, "minimal" := Minimal, "gradient" := Gradient]

  /** `Object.values(themes)`: the entries in declaration order. */
  const AvailableThemes: seq<Theme> := [Light, Dark, Minimal, Gradient]

  /** The table's keys are its ids, each entry's `id` is its key, and the list of values has every entry once. */
  lemma TableWellFormed()
    ensures ThemeTable.Keys == set i | 0 <= i < |ThemeIds| :: ThemeIds[i]
    ensures forall k :: k in ThemeTable ==> ThemeTable[k].id == k && k != ""
    ensures |AvailableThemes| == |ThemeIds|
    ensures forall i :: 0 <= i < |ThemeIds| ==> AvailableThemes[i] == ThemeTable[ThemeIds[i]]
  {
    assert ThemeIds[0] == "light" && ThemeIds[1] == "dark" && ThemeIds[2] == "minimal" && ThemeIds[3] == "gradient";
  }

  /**
   * `themes[themeId] || themes.light` as written: a name the table only
   * inherits from `Object.prototype` is a truthy function, so it is returned
   * in place of the light theme.
   */
  function LookupAsWritten(themeId: string): (r: Content.Lookup<Theme>)
    ensures r.Inherited? <==> themeId !in ThemeTable && themeId in Content.ObjectPrototypeKeys
    ensures themeId in ThemeTable ==> r == Content.Own(ThemeTable[themeId])
    ensures themeId !in ThemeTable && themeId !in Content.ObjectPrototypeKeys ==> r == Content.Own(Light)
  {
    if themeId in ThemeTable then Content.Own(ThemeTable[themeId])
    else if themeId in Content.ObjectPrototypeKeys then Content.Inherited
    else Content.Own(Light)
  }

  /** A stored preference of `"constructor"` makes the lookup give no theme at all. */
  lemma InheritedNameIsNoTheme()
    ensures LookupAsWritten("constructor").Inherited?
  {
  }

  /** `getTheme`, with every id outside the table falling back to the light theme. */
  function GetTheme(themeId: string): (t: Theme)
    ensures themeId in ThemeTable ==> t == ThemeTable[themeId]
    ensures themeId !in ThemeTable ==> t == Light
    ensures t.id in ThemeTable && ThemeTable[t.id] == t
  {
    if themeId in ThemeTable then ThemeTable[themeId] else Light
  }

  /** The default argument of `getTheme` is the light theme's id. */
  const DefaultThemeId: string := "light"

  /** Looking a theme up by its own id gives it back, so a restored preference is stable. */
  lemma GetThemeOfId(themeId: string)
    ensures GetTheme(GetTheme(themeId).id) == GetTheme(themeId)
    ensures GetTheme(DefaultThemeId) == Light
  {
  }

  /** On a name outside the table and `Object.prototype`, the lookup as written agrees. */
  lemma LookupAgrees(themeId: string)
    requires themeId !in Content.ObjectPrototypeKeys
    ensures LookupAsWritten(themeId) == Content.Own(GetTheme(themeId))
  {
  }

  // ---------------------------------------------------------------------------
  // Applying a theme
  // ---------------------------------------------------------------------------

  /** The eleven CSS custom properties a theme sets, in the order `applyTheme` sets them. */
  const CssVariables: seq<string> := [
    "--bg-primary", "--bg-secondary", "--text-primary", "--text-secondary", "--text-muted",
    "--accent", "--accent-hover", "--accent-secondary", "--refraction-blur", "--glass-bg",
    "--glass-shadow"]

  /** The colour fields, in the order of `CssVariables`. */
  function ColorValues(c: Colors): (vs: seq<string>)
    ensures |vs| == |CssVariables|
  {
    [c.bgPrimary, c.bgSecondary, c.textPrimary, c.textSecondary, c.textMuted,
     c.accent, c.accentHover, c.accentSecondary, c.glassBlur, c.glassBg, c.shadowColor]
  }

  /** The root style after the eleven `setProperty` calls of `applyTheme`. */
  function StyleOf(style: map<string, string>, c: Colors): map<string, string> {
    style["--bg-primary" := c.bgPrimary]["--bg-secondary" := c.bgSecondary]
      ["--text-primary" := c.textPrimary]["--text-secondary" := c.textSecondary]
      ["--text-muted" := c.textMuted]["--accent" := c.accent]["--accent-hover" := c.accentHover]
      ["--accent-secondary" := c.accentSecondary]["--refraction-blur" := c.glassBlur]
      ["--glass-bg" := c.glassBg]["--glass-shadow" := c.shadowColor]
  }

  /** Each of the eleven variables holds its colour afterwards, and every other property is left alone. */
  lemma StyleSetsEach(style: map<string, string>, c: Colors)
    ensures forall i :: 0 <= i < |CssVariables| ==>
      CssVariables[i] in StyleOf(style, c) && StyleOf(style, c)[CssVariables[i]] == ColorValues(c)[i]
  {
  }

  lemma StyleKeepsOthers(style: map<string, string>, c: Colors)
    ensures forall k :: k !in CssVariables ==> (k in StyleOf(style, c) <==> k in style)
    ensures forall k :: k in style && k !in CssVariables ==> StyleOf(style, c)[k] == style[k]
  {
  }

  /** The storage key of the saved preference. */
  const PreferenceKey: string := "theme-preference"

  /** `getSavedTheme`: the stored id, or `"light"` without a window or a non-empty stored value. */
  function SavedTheme(hasWindow: bool, storage: map<string, string>): (id: string)
    ensures id != ""
    ensures !hasWindow ==> id == "light"
    ensures hasWindow && PreferenceKey in storage && storage[PreferenceKey] != "" ==> id == storage[PreferenceKey]
    ensures hasWindow && (PreferenceKey !in storage || storage[PreferenceKey] == "") ==> id == "light"
  {
    if !hasWindow then "light"
    else if PreferenceKey in storage && storage[PreferenceKey] != "" then storage[PreferenceKey]
    else "light"
  }

  /** The browser a theme is applied in. */
  class Browser {
    const hasWindow: bool
    var style: map<string, string>
    var storage: map<string, string>

    constructor (hasWindow: bool, style: map<string, string>, storage: map<string, string>)
      ensures this.hasWindow == hasWindow && this.style == style && this.storage == storage
    {
      this.hasWindow := hasWindow;
      this.style := style;
      this.storage := storage;
    }

    /** `applyTheme`: eleven style properties, then the saved preference. */
    method ApplyTheme(theme: Theme)
      requires hasWindow
      modifies this
      ensures style == StyleOf(old(style), theme.colors)
      ensures storage == old(storage)[PreferenceKey := theme.id]
    {
      var colors := theme.colors;
      style := style["--bg-primary" := colors.bgPrimary];
      style := style["--bg-secondary" := colors.bgSecondary];
      style := style["--text-primary" := colors.textPrimary];
      style := style["--text-secondary" := colors.textSecondary];
      style := style["--text-muted" := colors.textMuted];
      style := style["--accent" := colors.accent];
      style := style["--accent-hover" := colors.accentHover];
      style := style["--accent-secondary" := colors.accentSecondary];
      style := style["--refraction-blur" := colors.glassBlur];
      style := style["--glass-bg" := colors.glassBg];
      style := style["--glass-shadow" := colors.shadowColor];
      storage := storage[PreferenceKey := theme.id];
    }

    /** `getSavedTheme`. */
    method GetSavedTheme() returns (id: string)
      ensures id == SavedTheme(hasWindow, storage)
    {
      if !hasWindow {
        return "light";
      }
      if PreferenceKey in storage && storage[PreferenceKey] != "" {
        return storage[PreferenceKey];
      }
      return "light";
    }
  }

  /** A theme from the table, once applied, is the one read back as saved. */
  lemma ApplyThenSaved(storage: map<string, string>, theme: Theme)
    requires theme.id in ThemeTable && ThemeTable[theme.id] == theme
    ensures SavedTheme(true, storage[PreferenceKey := theme.id]) == theme.id
    ensures GetTheme(SavedTheme(true, storage[PreferenceKey := theme.id])) == theme
  {
  }
}
