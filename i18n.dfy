/**
 * Localisation: the translation tables (the fields the formatting and
 * option-building helpers read), resolving a language setting plus the
 * browser's language tag to a table, template substitution and the
 * select-option lists.
 */
module I18n {
  import opened Wrappers
  import opened Text
  import opened LifeDotsData

  /** The user-interface strings of one language. */
  datatype UiStrings = UiStrings(
    lifeInWeeks: string, lifeInMonths: string, lifeInYears: string,
    weeksProgress: string, monthsProgress: string, yearsProgress: string,
    lifeExpectancyLabel: string,
    dotStyleLabel: string, dotStyleClassic: string, dotStyleRainbow: string,
    languageDefault: string, languageEnglish: string, languageSpanish: string,
    languageFrench: string, languageJapanese: string, languageHindi: string,
    languageBangla: string)

  /** A progress template: its lead text, then `{current}/{total}`. */
  function Progress(lead: string): string {
    lead + "{current}/{total}"
  }

  /** An expectancy label: lead text, `{years}`, tail text. */
  function Expectancy(lead: string, tail: string): string {
    lead + "{years}" + tail
  }

  const EN_STRINGS: UiStrings := UiStrings(
    "Life in Weeks", "Life in Months", "Life in Years",
    Progress("Weeks: "), Progress("Months: "), Progress("Years: "),
    Expectancy("Life Expectancy ", "/YEARS"),
    "Dot style", "Classic black", "Rainbow box",
    "Default (auto)", "English", "Spanish", "French", "Japanese", "Hindi", "Bangla")

  const ES_STRINGS: UiStrings := UiStrings(
    "La vida en semanas", "La vida en meses", "La vida en años",
    Progress("Semanas: "), Progress("Meses: "), Progress("Años: "),
    Expectancy("Esperanza de vida ", " años"),
    "Estilo de puntos", "Clásico negro", "Caja arcoíris",
    "Predeterminado (auto)", "Inglés", "Español", "Francés", "Japonés", "Hindi", "Bangla")

  const FR_STRINGS: UiStrings := UiStrings(
    "La vie en semaines", "La vie en mois", "La vie en années",
    Progress("Semaines : "), Progress("Mois : "), Progress("Années : "),
    Expectancy("Espérance de vie ", " ans"),
    "Style de points", "Classique noir", "Boîte arc-en-ciel",
    "Par défaut (auto)", "Anglais", "Espagnol", "Français", "Japonais", "Hindi", "Bangla")

  const JA_STRINGS: UiStrings := UiStrings(
    "人生を週で", "人生を月で", "人生を年で",
    Progress("週: "), Progress("月: "), Progress("年: "),
    Expectancy("平均寿命 ", "年"),
    "ドットのスタイル", "クラシック（黒）", "レインボー",
    "既定（自動）", "英語", "スペイン語", "フランス語", "日本語", "ヒンディー語", "ベンガル語")

  const HI_STRINGS: UiStrings := UiStrings(
    "सप्ताहों में जीवन", "महीनों में जीवन", "वर्षों में जीवन",
    Progress("सप्ताह: "), Progress("महीने: "), Progress("वर्ष: "),
    Expectancy("औसत आयु ", " वर्ष"),
    "डॉट शैली", "क्लासिक काला", "रेनबो बॉक्स",
    "डिफ़ॉल्ट (ऑटो)", "अंग्रेज़ी", "स्पेनिश", "फ़्रेंच", "जापानी", "हिन्दी", "बंगाली")

  const BN_STRINGS: UiStrings := UiStrings(
    "সপ্তাহে জীবন", "মাসে জীবন", "বছরে জীবন",
    Progress("সপ্তাহ: "), Progress("মাস: "), Progress("বছর: "),
    Expectancy("গড় আয়ু ", " বছর"),
    "ডট স্টাইল", "ক্লাসিক কালো", "রেইনবো বক্স",
    "ডিফল্ট (অটো)", "ইংরেজি", "স্প্যানিশ", "ফরাসি", "জাপানি", "হিন্দি", "বাংলা")

  /** The translation table: one entry per concrete language, none for "default". */
  function Translations(l: LanguageId): UiStrings
    requires l != Default
  {
    if l == En then EN_STRINGS
    else if l == Es then ES_STRINGS
    else if l == Fr then FR_STRINGS
    else if l == Ja then JA_STRINGS
    else if l == Hi then HI_STRINGS
    else BN_STRINGS
  }

  /** The language whose identifier is `s`, if any. */
  function LanguageFromName(s: string): (r: Option<LanguageId>)
    ensures r.Some? ==> LanguageName(r.value) == s
    ensures r.None? ==> forall l :: LanguageName(l) != s
  {
    if s == "default" then Some(Default)
    else if s == "en" then Some(En)
    else if s == "es" then Some(Es)
    else if s == "fr" then Some(Fr)
    else if s == "ja" then Some(Ja)
    else if s == "hi" then Some(Hi)
    else if s == "bn" then Some(Bn)
    else None
  }

  /** Identifiers and languages correspond one to one. */
  lemma LanguageNameRoundTrip(l: LanguageId)
    ensures LanguageFromName(LanguageName(l)) == Some(l)
    ensures l in SUPPORTED_LANGUAGES
  {
  }

  /** A supported identifier of a concrete language (not "default"). */
  predicate IsSupportedLanguage(s: string)
    ensures IsSupportedLanguage(s) <==> s in ["en", "es", "fr", "ja", "hi", "bn"]
  {
    var l := LanguageFromName(s);
    l.Some? && l.value in SUPPORTED_LANGUAGES && s != "default"
  }

  lemma IsSupportedLanguageExactly(s: string)
    ensures IsSupportedLanguage(s) <==> exists l :: l != Default && LanguageName(l) == s
  {
    if IsSupportedLanguage(s) {
      var l := LanguageFromName(s).value;
      assert l != Default && LanguageName(l) == s;
    }
  }

  /**
   * The language whose table is shown. An explicit choice wins; "default"
   * takes the primary subtag of the browser tag (the text before the first
   * hyphen, lower-cased) when that is supported, and English otherwise.
   */
  function ResolveLanguageId(language: LanguageId, navigatorLanguage: Option<string>): (r: LanguageId)
    ensures r != Default
    ensures language != Default ==> r == language
    ensures language == Default && (navigatorLanguage.None? || navigatorLanguage.value == []) ==> r == En
    ensures language == Default && navigatorLanguage.Some? && navigatorLanguage.value != [] ==>
      var base := TakeUntil(ToLower(navigatorLanguage.value), '-');
      (IsSupportedLanguage(base) ==> LanguageName(r) == base) &&
      (!IsSupportedLanguage(base) ==> r == En)
  {
    if language != Default then language
    else if navigatorLanguage.None? || navigatorLanguage.value == "" then En
    else
      var base := TakeUntil(ToLower(navigatorLanguage.value), '-');
      if IsSupportedLanguage(base) then LanguageFromName(base).value else En
  }

  /** A regional French tag resolves to French; an unsupported German tag to English. */
  lemma ResolveLanguageExamples()
    ensures ResolveLanguageId(Default, Some("fr-CA")) == Fr
    ensures ResolveLanguageId(Default, Some("de-DE")) == En
    ensures ResolveLanguageId(Default, Some("JA")) == Ja
    ensures ResolveLanguageId(Es, Some("fr-CA")) == Es
  {
    RegionalFrenchTag();
    UnsupportedGermanTag();
    UpperCaseJapaneseTag();
  }

  lemma RegionalFrenchTag()
    ensures ResolveLanguageId(Default, Some("fr-CA")) == Fr
  {
    PrimarySubtag("fr-CA", "fr-ca", "fr", "ca");
    assert LanguageFromName("fr") == Some(Fr);
  }

  lemma UnsupportedGermanTag()
    ensures ResolveLanguageId(Default, Some("de-DE")) == En
  {
    PrimarySubtag("de-DE", "de-de", "de", "de");
    assert LanguageFromName("de") == None;
  }

  lemma UpperCaseJapaneseTag()
    ensures ResolveLanguageId(Default, Some("JA")) == Ja
  {
    assert ToLower("JA") == "ja";
    assert TakeUntil("ja"[1..], '-') == "a";
    assert TakeUntil("ja", '-') == "ja";
    assert LanguageFromName("ja") == Some(Ja);
  }

  /** The primary subtag of a two-letter tag with a region. */
  lemma PrimarySubtag(tag: string, lowered: string, primary: string, region: string)
    requires |primary| == 2 && '-' !in primary && lowered == primary + "-" + region
    requires ToLower(tag) == lowered
    ensures TakeUntil(ToLower(tag), '-') == primary
  {
    assert lowered[2..][0] == '-';
    assert TakeUntil(lowered[2..], '-') == [];
    assert lowered[1..][1..] == lowered[2..];
    assert TakeUntil(lowered[1..], '-') == [primary[1]];
    assert TakeUntil(lowered, '-') == [primary[0]] + [primary[1]];
  }

  /** The locale used for number and date formatting. */
  function ResolveLocale(language: LanguageId, navigatorLanguage: Option<string>): (r: string)
    ensures r != []
    ensures language != Default ==> r == LanguageName(language)
    ensures language == Default && navigatorLanguage.Some? && navigatorLanguage.value != [] ==>
      r == navigatorLanguage.value
    ensures language == Default && (navigatorLanguage.None? || navigatorLanguage.value == []) ==> r == "en"
  {
    if language == Default then
      (if navigatorLanguage.None? || navigatorLanguage.value == "" then "en" else navigatorLanguage.value)
    else LanguageName(language)
  }

  /** The table for a setting: always one of the six concrete tables. */
  function GetTranslations(language: LanguageId, navigatorLanguage: Option<string>): (r: UiStrings)
    ensures exists l :: l != Default && r == Translations(l)
    ensures language != Default ==> r == Translations(language)
  {
    Translations(ResolveLanguageId(language, navigatorLanguage))
  }

  function GetViewTitle(strings: UiStrings, mode: ViewMode): (r: string)
    ensures mode == Weeks ==> r == strings.lifeInWeeks
    ensures mode == Months ==> r == strings.lifeInMonths
    ensures mode == Years ==> r == strings.lifeInYears
  {
    if mode == Months then strings.lifeInMonths
    else if mode == Years then strings.lifeInYears
    else strings.lifeInWeeks
  }

  function ProgressTemplate(strings: UiStrings, mode: ViewMode): string {
    if mode == Months then strings.monthsProgress
    else if mode == Years then strings.yearsProgress
    else strings.weeksProgress
  }

  /** The mode's progress template with the first `{current}`, then the first `{total}`, filled in. */
  function FormatProgress(strings: UiStrings, mode: ViewMode, current: int, total: int): (r: string)
    ensures (IndexOf(ProgressTemplate(strings, mode), "{current}").None? &&
             IndexOf(ProgressTemplate(strings, mode), "{total}").None?) ==> r == ProgressTemplate(strings, mode)
  {
    ReplaceFirst(ReplaceFirst(ProgressTemplate(strings, mode), "{current}", IntToString(current)),
                 "{total}", IntToString(total))
  }

  /** The expectancy label with the first `{years}` filled in. */
  function FormatLifeExpectancy(strings: UiStrings, years: int): (r: string)
    ensures IndexOf(strings.lifeExpectancyLabel, "{years}").None? ==> r == strings.lifeExpectancyLabel
  {
    ReplaceFirst(strings.lifeExpectancyLabel, "{years}", IntToString(years))
  }

  /** The fixed text around the placeholders of one language's templates. */
  datatype TemplateText = TemplateText(
    weeksLead: string, monthsLead: string, yearsLead: string,
    expectancyLead: string, expectancyTail: string)

  function TemplateTextOf(l: LanguageId): TemplateText
    requires l != Default
  {
    match l
    case En => TemplateText("Weeks: ", "Months: ", "Years: ", "Life Expectancy ", "/YEARS")
    case Es => TemplateText("Semanas: ", "Meses: ", "Años: ", "Esperanza de vida ", " años")
    case Fr => TemplateText("Semaines : ", "Mois : ", "Années : ", "Espérance de vie ", " ans")
    case Ja => TemplateText("週: ", "月: ", "年: ", "平均寿命 ", "年")
    case Hi => TemplateText("सप्ताह: ", "महीने: ", "वर्ष: ", "औसत आयु ", " वर्ष")
    case Bn => TemplateText("সপ্তাহ: ", "মাস: ", "বছর: ", "গড় আয়ু ", " বছর")
  }

  /** The text of a progress template before its `{current}` placeholder. */
  function ProgressLead(l: LanguageId, mode: ViewMode): string
    requires l != Default
  {
    var t := TemplateTextOf(l);
    match mode
    case Weeks => t.weeksLead
    case Months => t.monthsLead
    case Years => t.yearsLead
  }

  /** `s` has no opening brace. */
  predicate BraceFree(s: string) {
    forall k :: 0 <= k < |s| ==> s[k] != '{'
  }

  /** The templates of `strings` are brace-free leads before the placeholders given by `text`. */
  predicate Shaped(strings: UiStrings, text: TemplateText) {
    strings.weeksProgress == Progress(text.weeksLead) &&
    strings.monthsProgress == Progress(text.monthsLead) &&
    strings.yearsProgress == Progress(text.yearsLead) &&
    strings.lifeExpectancyLabel == Expectancy(text.expectancyLead, text.expectancyTail) &&
    BraceFree(text.weeksLead) && BraceFree(text.monthsLead) && BraceFree(text.yearsLead) &&
    BraceFree(text.expectancyLead)
  }

  lemma EnglishShaped() ensures Shaped(Translations(En), TemplateTextOf(En)) {}
  lemma SpanishShaped() ensures Shaped(Translations(Es), TemplateTextOf(Es)) {}
  lemma FrenchShaped() ensures Shaped(Translations(Fr), TemplateTextOf(Fr)) {}
  lemma JapaneseShaped() ensures Shaped(Translations(Ja), TemplateTextOf(Ja)) {}
  lemma HindiShaped() ensures Shaped(Translations(Hi), TemplateTextOf(Hi)) {}
  lemma BanglaShaped() ensures Shaped(Translations(Bn), TemplateTextOf(Bn)) {}

  /** Every table's templates have the placeholder shape. */
  lemma AllTemplatesShaped(l: LanguageId)
    requires l != Default
    ensures Shaped(Translations(l), TemplateTextOf(l))
  {
    match l
    case En => EnglishShaped();
    case Es => SpanishShaped();
    case Fr => FrenchShaped();
    case Ja => JapaneseShaped();
    case Hi => HindiShaped();
    case Bn => BanglaShaped();
  }

  /** Replacing a placeholder that opens with `{` behind a brace-free lead replaces exactly that one. */
  lemma ReplaceAfterBraceFreeLead(lead: string, pat: string, rest: string, rep: string)
    requires BraceFree(lead) && |pat| > 0 && pat[0] == '{'
    ensures ReplaceFirst(lead + pat + rest, pat, rep) == lead + rep + rest
  {
    var s := lead + pat + rest;
    assert s[|lead|..|lead| + |pat|] == pat;
    assert OccursAt(s, pat, |lead|);
    forall j | 0 <= j < |lead|
      ensures !OccursAt(s, pat, j)
    {
      assert s[j] == lead[j];
    }
    var i := IndexOf(s, pat);
    assert i == Some(|lead|);
    assert s[..|lead|] == lead;
    assert s[|lead| + |pat|..] == rest;
  }

  /** `String(n)` never contains a brace. */
  lemma NumeralBraceFree(n: int)
    ensures BraceFree(IntToString(n))
  {
  }

  /** Filling a progress template whose lead is brace-free. */
  lemma FillProgress(lead: string, current: int, total: int)
    requires BraceFree(lead)
    ensures ReplaceFirst(ReplaceFirst(Progress(lead), "{current}", IntToString(current)),
                         "{total}", IntToString(total))
         == lead + IntToString(current) + "/" + IntToString(total)
  {
    var c := IntToString(current);
    assert Progress(lead) == lead + "{current}" + "/{total}";
    ReplaceAfterBraceFreeLead(lead, "{current}", "/{total}", c);
    NumeralBraceFree(current);
    assert BraceFree(lead + c + "/");
    assert lead + c + "/{total}" == (lead + c + "/") + "{total}" + "";
    ReplaceAfterBraceFreeLead(lead + c + "/", "{total}", "", IntToString(total));
  }

  /** In every table, the progress text is the lead, the two numerals and a slash. */
  lemma FormatProgressFills(l: LanguageId, mode: ViewMode, current: int, total: int)
    requires l != Default
    ensures FormatProgress(Translations(l), mode, current, total) ==
      ProgressLead(l, mode) + IntToString(current) + "/" + IntToString(total)
  {
    AllTemplatesShaped(l);
    assert ProgressTemplate(Translations(l), mode) == Progress(ProgressLead(l, mode));
    FillProgress(ProgressLead(l, mode), current, total);
  }

  /** In every table, the expectancy label reads the lead, the numeral and the tail. */
  lemma FormatLifeExpectancyFills(l: LanguageId, years: int)
    requires l != Default
    ensures FormatLifeExpectancy(Translations(l), years) ==
      TemplateTextOf(l).expectancyLead + IntToString(years) + TemplateTextOf(l).expectancyTail
  {
    var text := TemplateTextOf(l);
    AllTemplatesShaped(l);
    ReplaceAfterBraceFreeLead(text.expectancyLead, "{years}", text.expectancyTail, IntToString(years));
  }

  /** The table entry that names a language in the language select. */
  function LanguageCaption(strings: UiStrings, l: LanguageId): string {
    match l
    case Default => strings.languageDefault
    case En => strings.languageEnglish
    case Es => strings.languageSpanish
    case Fr => strings.languageFrench
    case Ja => strings.languageJapanese
    case Hi => strings.languageHindi
    case Bn => strings.languageBangla
  }

  /** The language select: "default" and the six languages, in that order, each with its caption. */
  function BuildLanguageOptions(strings: UiStrings): (r: seq<SelectOption>)
    ensures |r| == |SUPPORTED_LANGUAGES| == 7
    ensures forall k :: 0 <= k < |r| ==> r[k].id == LanguageName(SUPPORTED_LANGUAGES[k])
    ensures forall k :: 0 <= k < |r| ==> r[k].caption == LanguageCaption(strings, SUPPORTED_LANGUAGES[k])
  {
    [ SelectOption("default", strings.languageDefault),
      SelectOption("en", strings.languageEnglish),
      SelectOption("es", strings.languageSpanish),
      SelectOption("fr", strings.languageFrench),
      SelectOption("ja", strings.languageJapanese),
      SelectOption("hi", strings.languageHindi),
      SelectOption("bn", strings.languageBangla) ]
  }

  /** The dot-style select: one entry per style, labelled "<style label>: <style name>". */
  function BuildDotStyleOptions(strings: UiStrings): (r: seq<SelectOption>)
    ensures |r| == |DOT_STYLE_IDS|
    ensures forall k :: 0 <= k < |r| ==> r[k].id == DotStyleName(DOT_STYLE_IDS[k])
    ensures forall k :: 0 <= k < |r| ==>
      r[k].caption == strings.dotStyleLabel + ": " +
                      (if DOT_STYLE_IDS[k] == ClassicDots then strings.dotStyleClassic else strings.dotStyleRainbow)
  {
    seq(|DOT_STYLE_IDS|, k requires 0 <= k < |DOT_STYLE_IDS| =>
      SelectOption(DotStyleName(DOT_STYLE_IDS[k]), strings.dotStyleLabel + ": " +
        (if DotStyleName(DOT_STYLE_IDS[k]) == "classic" then strings.dotStyleClassic else strings.dotStyleRainbow)))
  }

  const VIEW_MODES: seq<ViewMode> := [Weeks, Months, Years]

  /** The view select: weeks, months, years, each labelled with its view title. */
  function BuildViewModeOptions(strings: UiStrings): (r: seq<SelectOption>)
    ensures |r| == |VIEW_MODES| == 3
    ensures forall k :: 0 <= k < |r| ==>
      r[k].id == ViewModeName(VIEW_MODES[k]) && r[k].caption == GetViewTitle(strings, VIEW_MODES[k])
  {
    [ SelectOption("weeks", strings.lifeInWeeks),
      SelectOption("months", strings.lifeInMonths),
      SelectOption("years", strings.lifeInYears) ]
  }
}
