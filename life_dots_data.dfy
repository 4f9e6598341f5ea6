/** The shared types and constants of the life-dots data model. */
module LifeDotsData {
  import opened Wrappers
  import opened Themes

  datatype DotStyle = ClassicDots | RainbowBox
  datatype ViewMode = Weeks | Months | Years
  datatype LanguageId = Default | En | Es | Fr | Ja | Hi | Bn

  /** An entry of a select control: its value and its visible label. */
  datatype SelectOption = SelectOption(id: string, caption: string)

  /** A profile as it is stored (as JSON) in the browser or the database. Every
      field may be missing from a stored document, so each is optional. */
  datatype Profile = Profile(
    name: Option<string>,
    country: Option<string>,
    dob: Option<string>,
    profession: Option<string>,
    discovery: Option<string>,
    lifeExpectancy: Option<real>,
    hasCustomExpectancy: Option<bool>,
    dotStyle: Option<DotStyle>,
    themeId: Option<ThemeId>,
    language: Option<LanguageId>,
    viewMode: Option<ViewMode>)

  const STORAGE_KEY: string := "dotspan"
  const LEGACY_STORAGE_KEYS: seq<string> := ["life-dots", "life-progress-profile", "life-progress"]
  const SUPPORTED_LANGUAGES: seq<LanguageId> := [Default, En, Es, Fr, Ja, Hi, Bn]
  const DOT_STYLE_IDS: seq<DotStyle> := [ClassicDots, RainbowBox]
  const GRID_AXIS_OFFSET: real := 18.0

  function DotStyleName(d: DotStyle): string {
    match d
    case ClassicDots => "classic"
    case RainbowBox => "rainbow"
  }

  function ViewModeName(v: ViewMode): string {
    match v
    case Weeks => "weeks"
    case Months => "months"
    case Years => "years"
  }

  function LanguageName(l: LanguageId): string {
    match l
    case Default => "default"
    case En => "en"
    case Es => "es"
    case Fr => "fr"
    case Ja => "ja"
    case Hi => "hi"
    case Bn => "bn"
  }
}
