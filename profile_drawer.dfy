/**
 * The settings drawer's rules: the life-expectancy slider range around the
 * chosen country's expectancy, what each select shows, and what it falls
 * back to when its selection is cleared.
 */
module ProfileDrawer {
  import opened Wrappers
  import opened LifeDotsData
  import opened Text
  import Themes

  const RANGE_PADDING: real := 20.0
  const LOWEST_EXPECTANCY: int := 1
  const HIGHEST_EXPECTANCY: int := 120

  /** `Math.floor`, `Math.ceil` and `Math.round` (halves round up). */
  function Floor(x: real): (r: int)
    ensures r as real <= x < r as real + 1.0
  {
    x.Floor
  }

  function Ceil(x: real): (r: int)
    ensures r as real - 1.0 < x <= r as real
  {
    -((-x).Floor)
  }

  function Round(x: real): (r: int)
    ensures r as real - 0.5 <= x < r as real + 0.5
  {
    (x + 0.5).Floor
  }

  function MaxInt(a: int, b: int): int { if a >= b then a else b }
  function MinInt(a: int, b: int): int { if a <= b then a else b }

  /**
   * The slider's bounds. Without a country expectancy the full range; with
   * one, twenty years either side of it, widened to take in the current draft.
   */
  method ExpectancyRange(baseExpectancy: Option<real>, draft: real) returns (min: int, max: int)
    ensures LOWEST_EXPECTANCY <= min && max <= HIGHEST_EXPECTANCY
    ensures baseExpectancy.None? ==> min == LOWEST_EXPECTANCY && max == HIGHEST_EXPECTANCY
    ensures baseExpectancy.Some? ==>
      var low := MaxInt(LOWEST_EXPECTANCY, Round(baseExpectancy.value - RANGE_PADDING));
      min == (if draft < low as real then MaxInt(LOWEST_EXPECTANCY, Floor(draft)) else low)
    ensures baseExpectancy.Some? ==>
      var high := MinInt(HIGHEST_EXPECTANCY, Round(baseExpectancy.value + RANGE_PADDING));
      max == (if draft > high as real then MinInt(HIGHEST_EXPECTANCY, Ceil(draft)) else high)
    ensures LOWEST_EXPECTANCY as real <= draft <= HIGHEST_EXPECTANCY as real ==> min as real <= draft <= max as real
  {
    min := LOWEST_EXPECTANCY;
    max := HIGHEST_EXPECTANCY;
    if baseExpectancy.Some? {
      min := MaxInt(LOWEST_EXPECTANCY, Round(baseExpectancy.value - RANGE_PADDING));
      max := MinInt(HIGHEST_EXPECTANCY, Round(baseExpectancy.value + RANGE_PADDING));
      if draft < min as real {
        min := MaxInt(LOWEST_EXPECTANCY, Floor(draft));
      }
      if draft > max as real {
        max := MinInt(HIGHEST_EXPECTANCY, Ceil(draft));
      }
    }
  }

  /** A draft already inside the padded range leaves the range as the country alone gives it. */
  method RangeExample() returns (min: int, max: int)
    ensures min == 53 && max == 93
  {
    min, max := ExpectancyRange(Some(72.6), 80.0);
  }

  /** `options.filter(option => option.id === current)`: what a select shows as chosen. */
  function Shown(options: seq<SelectOption>, current: string): (r: seq<SelectOption>)
    ensures forall k :: 0 <= k < |r| ==> r[k].id == current && r[k] in options
    ensures forall k :: 0 <= k < |options| && options[k].id == current ==> options[k] in r
    ensures (exists k :: 0 <= k < |options| && options[k].id == current) <==> r != []
    ensures |r| <= |options|
    ensures IsSubsequence(r, options)
  {
    if options == [] then []
    else
      var rest := Shown(options[1..], current);
      assert forall k :: 1 <= k < |options| ==> options[k] == options[1..][k - 1];
      if options[0].id == current then
        assert ([options[0]] + rest)[1..] == rest;
        [options[0]] + rest
      else rest
  }

  /** The theme select shows the default theme to users without access, whatever their draft. */
  function ShownTheme(themeOptions: seq<SelectOption>, hasAccess: bool, draftThemeId: Themes.ThemeId): (r: seq<SelectOption>)
    ensures !hasAccess ==> forall k :: 0 <= k < |r| ==> r[k].id == Themes.ThemeIdName(Themes.DEFAULT_THEME_ID)
    ensures hasAccess ==> forall k :: 0 <= k < |r| ==> r[k].id == Themes.ThemeIdName(draftThemeId)
  {
    Shown(themeOptions, Themes.ThemeIdName(if hasAccess then draftThemeId else Themes.DEFAULT_THEME_ID))
  }

  /** `(params.value[0]?.id) ?? fallback`: the first selected id, or the fallback when nothing is selected. */
  function SelectedOr(selection: seq<SelectOption>, fallback: string): (r: string)
    ensures selection != [] ==> r == selection[0].id
    ensures selection == [] ==> r == fallback
  {
    if selection == [] then fallback else selection[0].id
  }

  const COUNTRY_FALLBACK: string := ""
  const DOT_STYLE_FALLBACK: string := "classic"
  const VIEW_FALLBACK: string := "weeks"
  const SOUND_FALLBACK: string := "soft"

  /** Clearing a select falls back to no country, classic dots, the default theme, weeks and the soft sound. */
  lemma ClearedSelectFallbacks()
    ensures SelectedOr([], COUNTRY_FALLBACK) == ""
    ensures SelectedOr([], DOT_STYLE_FALLBACK) == DotStyleName(ClassicDots)
    ensures SelectedOr([], Themes.ThemeIdName(Themes.DEFAULT_THEME_ID)) == Themes.ThemeIdName(Themes.Classic)
    ensures SelectedOr([], VIEW_FALLBACK) == ViewModeName(Weeks)
    ensures SelectedOr([], SOUND_FALLBACK) == "soft"
  {
  }

  /** The menu-sound select: its shown mode and the preference it saves. */
  class MenuSoundSetting {
    var menuSound: string
    var savedMode: string

    /** Starts on "soft" until the saved preference is read. */
    constructor(savedMode: string)
      ensures menuSound == SOUND_FALLBACK && this.savedMode == savedMode
    {
      menuSound := SOUND_FALLBACK;
      this.savedMode := savedMode;
    }

    /** The mount effect: show the saved preference. */
    method Load()
      modifies this
      ensures menuSound == savedMode && savedMode == old(savedMode)
    {
      menuSound := savedMode;
    }

    /** A change in the select: the chosen mode (or "soft") is shown and saved. */
    method Change(selection: seq<SelectOption>)
      modifies this
      ensures menuSound == savedMode == SelectedOr(selection, SOUND_FALLBACK)
    {
      var next := SelectedOr(selection, SOUND_FALLBACK);
      menuSound := next;
      savedMode := next;
    }
  }
}
