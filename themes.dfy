/**
 * utils/themes.ts: `applyTheme` and `getStoredTheme`. The root element's
 * inline style and `localStorage` are string maps; a palette maps its field
 * names (`primary`, `glassWhite10`, ...) to CSS values, whose text is not
 * modelled.
 */
module Themes {

  /** A palette of a `ColorTheme`: field name to CSS value. */
  type Palette = map<string, string>

  /** A `COLOR_THEMES` entry: the light palette and the dark one. */
  datatype ColorTheme = ColorTheme(colors: Palette, dark: Palette)

  /** The six `ThemeId`s, the keys of `COLOR_THEMES`. */
  const THEME_IDS: set<string> := {"warm-orange", "ocean-blue", "nature-green", "deep-purple", "soft-pink", "natural-crystal"}

  /** Every theme id is a non-empty string. */
  lemma ThemeIdNonEmpty(themeId: string)
    requires themeId in THEME_IDS
    ensures |themeId| > 0
  {
  }

  /** The theme `getStoredTheme` falls back on. */
  const DEFAULT_THEME: string := "warm-orange"

  /** The two `localStorage` keys. */
  const THEME_KEY: string := "smartgym-theme"
  const DARK_MODE_KEY: string := "smartgym-dark-mode"

  /**
   * The CSS custom properties `applyTheme` sets, each with the palette field
   * it reads. Each variable is set once, so the order of the calls does not
   * matter and the table is a map.
   */
  const CSS_VARIABLES: map<string, string> := map[
    "--primary" := "primary",
    "--primary-glass" := "primaryGlass",
    "--primary-foreground" := "primaryForeground",
    "--background" := "background",
    "--background-glass" := "backgroundGlass",
    "--foreground" := "foreground",
    "--card" := "card",
    "--card-glass" := "cardGlass",
    "--card-foreground" := "cardForeground",
    "--secondary" := "secondary",
    "--secondary-glass" := "secondaryGlass",
    "--secondary-foreground" := "secondaryForeground",
    "--muted" := "muted",
    "--muted-foreground" := "mutedForeground",
    "--accent" := "accent",
    "--accent-foreground" := "accentForeground",
    "--border" := "border",
    "--border-glass" := "borderGlass",
    "--input" := "input",
    "--input-background" := "inputBackground",
    "--input-glass" := "inputGlass",
    "--ring" := "ring",
    "--glass-shadow-light" := "glassShadowLight",
    "--glass-shadow-medium" := "glassShadowMedium",
    "--glass-shadow-heavy" := "glassShadowHeavy",
    "--glass-shadow-ultra" := "glassShadowUltra",
    "--glass-gradient-primary" := "glassGradientPrimary",
    "--glass-gradient-accent" := "glassGradientAccent",
    "--glass-white-10" := "glassWhite10",
    "--glass-white-15" := "glassWhite15",
    "--glass-white-20" := "glassWhite20",
    "--glass-white-25" := "glassWhite25",
    "--glass-white-30" := "glassWhite30",
    "--glass-white-40" := "glassWhite40",
    "--glass-white-50" := "glassWhite50",
    "--glass-white-60" := "glassWhite60",
    "--glass-white-70" := "glassWhite70",
    "--glass-white-80" := "glassWhite80",
    "--glass-white-90" := "glassWhite90",
    "--glass-primary-05" := "glassPrimary05",
    "--glass-primary-10" := "glassPrimary10",
    "--glass-primary-15" := "glassPrimary15",
    "--glass-primary-20" := "glassPrimary20",
    "--glass-primary-25" := "glassPrimary25",
    "--glass-primary-30" := "glassPrimary30",
    "--glass-primary-40" := "glassPrimary40",
    "--glass-primary-50" := "glassPrimary50",
    "--glass-primary-60" := "glassPrimary60",
    "--glass-primary-70" := "glassPrimary70",
    "--glass-primary-80" := "glassPrimary80",
    "--glass-primary-90" := "glassPrimary90",
    "--liquid-refraction" := "liquidRefraction",
    "--liquid-reflection" := "liquidReflection",
    "--liquid-caustics" := "liquidCaustics",
    "--liquid-shimmer" := "liquidShimmer"
  ]

  /** The palette has every field `applyTheme` reads, as the `ColorTheme` interface demands. */
  ghost predicate Complete(p: Palette) {
    forall v <- CSS_VARIABLES :: CSS_VARIABLES[v] in p
  }

  /** `isDark ? theme.dark : theme.colors`. */
  function Chosen(theme: ColorTheme, isDark: bool): Palette {
    if isDark then theme.dark else theme.colors
  }

  /** `isDark.toString()`. */
  function BoolString(b: bool): (s: string)
    ensures s == "true" <==> b
  {
    if b then "true" else "false"
  }

  /** The values the `setProperty` calls write: every CSS variable with its palette field's value. */
  function Properties(palette: Palette): map<string, string>
    requires Complete(palette)
  {
    map v | v in CSS_VARIABLES :: palette[CSS_VARIABLES[v]]
  }

  /**
   * Writing the properties over a style sets every CSS variable from its
   * palette field and keeps every other property, and its absence.
   */
  lemma PropertiesOverStyle(style: map<string, string>, palette: Palette)
    requires Complete(palette)
    ensures var r := style + Properties(palette);
      && (forall v <- CSS_VARIABLES :: v in r && r[v] == palette[CSS_VARIABLES[v]])
      && (forall v <- style :: v !in CSS_VARIABLES ==> v in r && r[v] == style[v])
      && (forall v :: v !in CSS_VARIABLES ==> (v in r <==> v in style))
  {
  }

  /** The two `setItem` calls at the end of `applyTheme`. */
  function Saved(storage: map<string, string>, themeId: string, isDark: bool): (r: map<string, string>)
    ensures THEME_KEY in r && r[THEME_KEY] == themeId
    ensures DARK_MODE_KEY in r && r[DARK_MODE_KEY] == BoolString(isDark)
    ensures forall key :: key != THEME_KEY && key != DARK_MODE_KEY ==> (key in r <==> key in storage)
    ensures forall key :: key in storage && key != THEME_KEY && key != DARK_MODE_KEY ==> r[key] == storage[key]
  {
    storage[THEME_KEY := themeId][DARK_MODE_KEY := BoolString(isDark)]
  }

  datatype StoredPreference = StoredPreference(themeId: string, isDark: bool)

  /**
   * `getStoredTheme`: a missing or empty theme entry gives the default
   * theme, any other stored string is returned unchecked; dark mode is on
   * only for the exact string `"true"`.
   */
  function GetStoredTheme(storage: map<string, string>): (r: StoredPreference)
    ensures r.themeId != ""
    ensures THEME_KEY in storage && storage[THEME_KEY] != "" ==> r.themeId == storage[THEME_KEY]
    ensures THEME_KEY !in storage || storage[THEME_KEY] == "" ==> r.themeId == DEFAULT_THEME
    ensures r.isDark <==> DARK_MODE_KEY in storage && storage[DARK_MODE_KEY] == "true"
  {
    var storedTheme := if THEME_KEY in storage then storage[THEME_KEY] else "";
    StoredPreference(if storedTheme != "" then storedTheme else DEFAULT_THEME,
                     DARK_MODE_KEY in storage && storage[DARK_MODE_KEY] == "true")
  }

  /** What `applyTheme` saves, `getStoredTheme` reads back, whatever else the store holds. */
  lemma StoredAfterSave(storage: map<string, string>, themeId: string, isDark: bool)
    requires themeId != ""
    ensures GetStoredTheme(Saved(storage, themeId, isDark)) == StoredPreference(themeId, isDark)
  {
  }

  /** A stored id that names no theme still comes back as the theme id. */
  lemma StoredIdUnchecked(storage: map<string, string>, themeId: string)
    requires themeId != "" && themeId !in THEME_IDS
    ensures GetStoredTheme(storage[THEME_KEY := themeId]).themeId == themeId
  {
  }

  /** The page's root style and the browser's store, as far as themes touch them. */
  class Browser {
    const themes: map<string, ColorTheme>
    var style: map<string, string>
    var storage: map<string, string>

    /** `COLOR_THEMES` is keyed by theme ids and every palette is complete. */
    ghost predicate Valid()
      reads this
    {
      && themes.Keys <= THEME_IDS
      && forall id <- themes :: Complete(themes[id].colors) && Complete(themes[id].dark)
    }

    constructor (colorThemes: map<string, ColorTheme>, initialStyle: map<string, string>, initialStorage: map<string, string>)
      requires colorThemes.Keys <= THEME_IDS
      requires forall id <- colorThemes :: Complete(colorThemes[id].colors) && Complete(colorThemes[id].dark)
      ensures Valid()
      ensures themes == colorThemes && style == initialStyle && storage == initialStorage
    {
      themes := colorThemes;
      style := initialStyle;
      storage := initialStorage;
    }

    /**
     * `applyTheme`: an unknown id changes nothing. A known one writes the
     * properties of the dark or the light palette over the style (what that
     * sets and keeps is `PropertiesOverStyle`) and saves the id and the dark
     * flag so that `getStoredTheme` reads them back.
     */
    method ApplyTheme(themeId: string, isDark: bool)
      requires Valid()
      modifies this
      ensures Valid()
      ensures themeId !in themes ==> style == old(style) && storage == old(storage)
      ensures themeId in themes ==>
        && style == old(style) + Properties(Chosen(themes[themeId], isDark))
        && storage == Saved(old(storage), themeId, isDark)
      ensures themeId in themes ==> GetStoredTheme(storage) == StoredPreference(themeId, isDark)
    {
      if themeId !in themes {
        return;
      }
      var colors := Chosen(themes[themeId], isDark);
      style := style + Properties(colors);
      storage := Saved(storage, themeId, isDark);
      ThemeIdNonEmpty(themeId);
      StoredAfterSave(old(storage), themeId, isDark);
    }
  }
}
