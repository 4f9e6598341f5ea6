/** The colour themes: a fixed table of eight palettes, its lookups and the
    select options built from it. */
module Themes {
  import opened Wrappers
  import opened Text

  datatype ThemeId = Classic | Aurora | Sunset | Ocean | Citrus | Rose | Slate | Desert

  /** The colour tokens of a theme, in the order of the program's palette type. */
  datatype Palette = Palette(
    appBg: string, surface: string, border: string, text: string, muted: string, subtle: string,
    brand: string, brandSoft: string,
    gradientFrom: string, gradientMid: string, gradientTo: string,
    dotFilled: string, dotEmpty: string, axisText: string,
    rainbow: seq<string>)

  datatype Theme = Theme(id: ThemeId, name: string, palette: Palette)

  /** An entry of the theme select control. */
  datatype ThemeOption = ThemeOption(id: string, caption: string)

  function ThemeIdName(id: ThemeId): string {
    match id
    case Classic => "classic"
    case Aurora => "aurora"
    case Sunset => "sunset"
    case Ocean => "ocean"
    case Citrus => "citrus"
    case Rose => "rose"
    case Slate => "slate"
    case Desert => "desert"
  }

  const DEFAULT_RAINBOW: seq<string> := [
    "#f87171", "#fb923c", "#fbbf24", "#facc15",
    "#a3e635", "#4ade80", "#34d399", "#2dd4bf",
    "#22d3ee", "#38bdf8", "#60a5fa", "#818cf8",
    "#a78bfa", "#e879f9", "#f472b6", "#fb7185"
  ]

  /** The palette each table entry carries. */
  function ThemePalette(id: ThemeId): Palette {
    match id
    case Classic => Palette(
      "#f5f5f5", "#ffffff", "#e5e7eb", "#111827", "#6b7280", "#9ca3af",
      "#00c565", "rgba(0, 197, 101, 0.22)",
      "#3a8f7a", "#f08a7a", "#2fb8c8",
      "#111827", "#e5e7eb", "#9ca3af", DEFAULT_RAINBOW)
    case Aurora => Palette(
      "#f1f7f6", "#ffffff", "#dce7e4", "#0f1f1b", "#5a6e69", "#93a7a1",
      "#00c565", "rgba(0, 197, 101, 0.22)",
      "#2b8a6f", "#42b7a0", "#5bd1c8",
      "#0f1f1b", "#dce7e4", "#93a7a1", DEFAULT_RAINBOW)
    case Sunset => Palette(
      "#fff4ee", "#ffffff", "#f1d7cc", "#2b1710", "#7a5547", "#b08b7f",
      "#00c565", "rgba(0, 197, 101, 0.22)",
      "#d95c4a", "#f08a5b", "#f3b77b",
      "#2b1710", "#f1d7cc", "#b08b7f", DEFAULT_RAINBOW)
    case Ocean => Palette(
      "#f1f7fb", "#ffffff", "#d7e4ef", "#0f1b2a", "#51657a", "#8aa0b3",
      "#00c565", "rgba(0, 197, 101, 0.22)",
      "#2b6cb0", "#3aaed8", "#5ad1f1",
      "#0f1b2a", "#d7e4ef", "#8aa0b3", DEFAULT_RAINBOW)
    case Citrus => Palette(
      "#f6f8ef", "#ffffff", "#e3e7d6", "#1f2a10", "#65704f", "#98a281",
      "#00c565", "rgba(0, 197, 101, 0.22)",
      "#6aa84f", "#b6c43b", "#f2c84b",
      "#1f2a10", "#e3e7d6", "#98a281", DEFAULT_RAINBOW)
    case Rose => Palette(
      "#fff4f7", "#ffffff", "#f0d7de", "#2b1119", "#7a4a58", "#b08b96",
      "#00c565", "rgba(0, 197, 101, 0.22)",
      "#c94b6b", "#e67b8f", "#f2a3b7",
      "#2b1119", "#f0d7de", "#b08b96", DEFAULT_RAINBOW)
    case Slate => Palette(
      "#f4f6f8", "#ffffff", "#dde1e7", "#1c2330", "#5b6778", "#97a3b3",
      "#00c565", "rgba(0, 197, 101, 0.22)",
      "#4f5d75", "#7d8ba4", "#a9b6c8",
      "#1c2330", "#dde1e7", "#97a3b3", DEFAULT_RAINBOW)
    case Desert => Palette(
      "#fdf7ee", "#ffffff", "#f1e0c9", "#3a2614", "#7a5c40", "#b29374",
      "#00c565", "rgba(0, 197, 101, 0.22)",
      "#c27c3b", "#e09a57", "#f2c07a",
      "#3a2614", "#f1e0c9", "#b29374", DEFAULT_RAINBOW)
  }

  /** The theme table, in the order the select controls list it. */
  const THEMES: seq<Theme> := [
    Theme(Classic, "Classic", ThemePalette(Classic)),
    Theme(Aurora, "Aurora", ThemePalette(Aurora)),
    Theme(Sunset, "Sunset", ThemePalette(Sunset)),
    Theme(Ocean, "Ocean", ThemePalette(Ocean)),
    Theme(Citrus, "Citrus", ThemePalette(Citrus)),
    Theme(Rose, "Rose", ThemePalette(Rose)),
    Theme(Slate, "Slate", ThemePalette(Slate)),
    Theme(Desert, "Desert", ThemePalette(Desert))
  ]

  /** The table's first entry, which `getTheme` falls back to. */
  const CLASSIC_THEME: Theme := Theme(Classic, "Classic", ThemePalette(Classic))

  const DEFAULT_THEME_ID: ThemeId := Classic
  const BASIC_THEME_IDS: seq<ThemeId> := [Classic, Aurora, Sunset]

  /** The position of each id in `THEMES`. */
  function ThemeOrdinal(id: ThemeId): nat {
    match id
    case Classic => 0
    case Aurora => 1
    case Sunset => 2
    case Ocean => 3
    case Citrus => 4
    case Rose => 5
    case Slate => 6
    case Desert => 7
  }

  /** The table has eight entries whose ids are pairwise distinct and cover every
      theme id, each sharing the sixteen-colour default rainbow; the default theme is
      one of the basic ones. */
  lemma ThemesTableWellFormed()
    ensures |THEMES| == 8 && |DEFAULT_RAINBOW| == 16
    ensures forall id: ThemeId :: ThemeOrdinal(id) < |THEMES| && THEMES[ThemeOrdinal(id)].id == id
    ensures forall i, j :: 0 <= i < j < |THEMES| ==> THEMES[i].id != THEMES[j].id
    ensures forall k :: 0 <= k < |THEMES| ==> THEMES[k].palette.rainbow == DEFAULT_RAINBOW
    ensures DEFAULT_THEME_ID in BASIC_THEME_IDS
  {
    forall id: ThemeId ensures ThemeOrdinal(id) < |THEMES| && THEMES[ThemeOrdinal(id)].id == id {
      match id
      case Classic =>
      case Aurora =>
      case Sunset =>
      case Ocean =>
      case Citrus =>
      case Rose =>
      case Slate =>
      case Desert =>
    }
    forall i, j | 0 <= i < j < |THEMES| ensures THEMES[i].id != THEMES[j].id {
      assert ThemeOrdinal(THEMES[i].id) == i by { TableOrdinal(i); }
      assert ThemeOrdinal(THEMES[j].id) == j by { TableOrdinal(j); }
    }
  }

  lemma TableOrdinal(k: nat)
    requires k < |THEMES|
    ensures ThemeOrdinal(THEMES[k].id) == k
  {
    if k == 0 {} else if k == 1 {} else if k == 2 {} else if k == 3 {}
    else if k == 4 {} else if k == 5 {} else if k == 6 {} else {}
  }

  /** `themes.findIndex(theme => theme.id === id)`, absent when no theme matches.
      `id` is text: a stored profile's theme id reaches the lookup unchecked. */
  function FindThemeIndex(themes: seq<Theme>, id: string): (r: Option<nat>)
    ensures r.Some? ==> r.value < |themes| && ThemeIdName(themes[r.value].id) == id
    ensures r.Some? ==> forall j :: 0 <= j < r.value ==> ThemeIdName(themes[j].id) != id
    ensures r.None? ==> forall k :: 0 <= k < |themes| ==> ThemeIdName(themes[k].id) != id
  {
    if themes == [] then None
    else if ThemeIdName(themes[0].id) == id then Some(0)
    else match FindThemeIndex(themes[1..], id)
      case None => None
      case Some(k) => Some(k + 1)
  }

  lemma ThemeAt(id: ThemeId)
    ensures ThemeOrdinal(id) < |THEMES| && THEMES[ThemeOrdinal(id)].id == id
  {
    ThemesTableWellFormed();
  }

  /** Distinct ids have distinct names. */
  lemma ThemeIdNameInjective(a: ThemeId, b: ThemeId)
    requires ThemeIdName(a) == ThemeIdName(b)
    ensures a == b
  {
    var n := ThemeIdName(a);
    assert n[0] == ThemeIdName(b)[0];
    if n[0] == 'c' || n[0] == 's' {
      assert n[1] == ThemeIdName(b)[1];
    }
  }

  /** `getTheme(id)`: the first theme of the table whose id is `id`, falling back to
      the first entry (classic) when there is none. */
  function GetTheme(id: string): (r: Theme)
    ensures r in THEMES
    ensures (exists k :: 0 <= k < |THEMES| && ThemeIdName(THEMES[k].id) == id) ==> ThemeIdName(r.id) == id
    ensures (forall k :: 0 <= k < |THEMES| ==> ThemeIdName(THEMES[k].id) != id) ==> r == THEMES[0]
  {
    match FindThemeIndex(THEMES, id)
    case Some(k) => THEMES[k]
    case None => THEMES[0]
  }

  /** A known id finds its own table entry. */
  lemma GetThemeOfKnownId(id: ThemeId)
    ensures GetTheme(ThemeIdName(id)) == THEMES[ThemeOrdinal(id)]
    ensures GetTheme(ThemeIdName(id)).id == id
  {
    ThemesTableWellFormed();
    ThemeAt(id);
    var r := GetTheme(ThemeIdName(id));
    ThemeIdNameInjective(r.id, id);
    var k :| 0 <= k < |THEMES| && THEMES[k] == r;
    assert THEMES[k].id == THEMES[ThemeOrdinal(id)].id;
  }

  /** An id outside the table, such as a stored "neon", falls back to classic. */
  lemma UnknownThemeFallsBack()
    ensures GetTheme("neon") == CLASSIC_THEME
  {
    forall id: ThemeId
      ensures ThemeIdName(id) != "neon"
    {
      assert ThemeIdName(id)[0] != 'n';
    }
  }

  /** `themes.filter(theme => ids.includes(theme.id))`: exactly the themes whose id is
      listed, in the order of `themes`. */
  function FilterByIds(themes: seq<Theme>, ids: seq<ThemeId>): (r: seq<Theme>)
    ensures |r| <= |themes|
    ensures forall k :: 0 <= k < |r| ==> r[k].id in ids && r[k] in themes
    ensures forall k :: 0 <= k < |themes| && themes[k].id in ids ==> themes[k] in r
    ensures IsSubsequence(r, themes)
  {
    if themes == [] then []
    else
      var rest := FilterByIds(themes[1..], ids);
      assert forall k :: 1 <= k < |themes| ==> themes[k] == themes[1..][k - 1];
      if themes[0].id in ids then
        assert ([themes[0]] + rest)[1..] == rest;
        [themes[0]] + rest
      else rest
  }

  /** `getBasicThemes()`: the table's entries whose ids are basic, in table order:
      classic, aurora, sunset. */
  function GetBasicThemes(): (r: seq<Theme>)
    ensures r == THEMES[..3]
    ensures |r| == |BASIC_THEME_IDS| && forall k :: 0 <= k < |r| ==> r[k].id == BASIC_THEME_IDS[k]
  {
    BasicThemesInOrder();
    FilterByIds(THEMES, BASIC_THEME_IDS)
  }

  /** Filtering a join filters each part. */
  lemma {:induction false} FilterAppend(a: seq<Theme>, b: seq<Theme>, ids: seq<ThemeId>)
    ensures FilterByIds(a + b, ids) == FilterByIds(a, ids) + FilterByIds(b, ids)
  {
    if a == [] {
      assert a + b == b;
    } else {
      assert (a + b)[0] == a[0] && (a + b)[1..] == a[1..] + b;
      FilterAppend(a[1..], b, ids);
    }
  }

  /** Filtering keeps every entry whose id is listed. */
  lemma {:induction false} FilterAllKept(a: seq<Theme>, ids: seq<ThemeId>)
    requires forall k :: 0 <= k < |a| ==> a[k].id in ids
    ensures FilterByIds(a, ids) == a
  {
    if a != [] {
      assert a[0].id in ids;
      FilterAllKept(a[1..], ids);
    }
  }

  /** Filtering drops every entry whose id is not listed. */
  lemma {:induction false} FilterNoneKept(a: seq<Theme>, ids: seq<ThemeId>)
    requires forall k :: 0 <= k < |a| ==> a[k].id !in ids
    ensures FilterByIds(a, ids) == []
  {
    if a != [] {
      assert a[0].id !in ids;
      FilterNoneKept(a[1..], ids);
    }
  }

  /** Filtering keeps exactly a prefix when the kept entries come first. */
  lemma FilterKeepsPrefix(s: seq<Theme>, ids: seq<ThemeId>, n: nat)
    requires n <= |s|
    requires forall k :: 0 <= k < n ==> s[k].id in ids
    requires forall k :: n <= k < |s| ==> s[k].id !in ids
    ensures FilterByIds(s, ids) == s[..n]
  {
    var front, back := s[..n], s[n..];
    assert s == front + back;
    FilterAppend(front, back, ids);
    FilterAllKept(front, ids);
    FilterNoneKept(back, ids);
  }

  /** The table's first three ids are the basic ones, in order, and no later id is basic. */
  lemma BasicIdsComeFirst()
    ensures forall k :: 0 <= k < 3 ==> THEMES[k].id == BASIC_THEME_IDS[k]
    ensures forall k :: 3 <= k < |THEMES| ==> THEMES[k].id !in BASIC_THEME_IDS
  {
    forall k | 0 <= k < |THEMES|
      ensures (k < 3 ==> THEMES[k].id == BASIC_THEME_IDS[k]) && (3 <= k ==> THEMES[k].id !in BASIC_THEME_IDS)
    {
      TableOrdinal(k);
    }
  }

  lemma BasicThemesInOrder()
    ensures FilterByIds(THEMES, BASIC_THEME_IDS) == THEMES[..3]
    ensures forall k :: 0 <= k < 3 ==> THEMES[k].id == BASIC_THEME_IDS[k]
  {
    BasicIdsComeFirst();
    FilterKeepsPrefix(THEMES, BASIC_THEME_IDS, 3);
  }

  /** `buildThemeOptions(themes, labelPrefix)`: one option per theme, in order, whose
      id is the theme id and whose label is `"<prefix>: <name>"` when the trimmed
      prefix is non-empty and the bare name otherwise. */
  function BuildThemeOptions(themes: seq<Theme>, labelPrefix: Option<string>): (r: seq<ThemeOption>)
    ensures |r| == |themes|
    ensures forall k :: 0 <= k < |r| ==> r[k].id == ThemeIdName(themes[k].id)
    ensures forall k :: 0 <= k < |r| ==>
      r[k].caption == if labelPrefix.Some? && Trim(labelPrefix.value) != []
                    then Trim(labelPrefix.value) + ": " + themes[k].name
                    else themes[k].name
  {
    var prefix := if labelPrefix.Some? then Trim(labelPrefix.value) else [];
    seq(|themes|, k requires 0 <= k < |themes| =>
      ThemeOption(ThemeIdName(themes[k].id), if prefix != [] then prefix + ": " + themes[k].name else themes[k].name))
  }
}
