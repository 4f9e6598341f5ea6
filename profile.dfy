/**
 * Profile persistence: loading the stored profile from the browser's
 * key/value storage (migrating a legacy key on the way), turning a stored
 * profile into the editable profile state with its defaults, the inverse
 * conversion, and the onboarding-complete predicate.
 */
module Profiles {
  import opened Wrappers
  import opened Text
  import opened Themes
  import opened LifeDotsData

  /** A point in time, as the `Date` objects of the profile state. */
  datatype Instant = Instant(epochMillis: int)

  /** The editable profile: every field has a value. */
  datatype ProfileState = ProfileState(
    name: string, country: string, dob: Option<Instant>,
    profession: string, discovery: string,
    lifeExpectancy: real, hasCustomExpectancy: bool,
    dotStyle: DotStyle, themeId: ThemeId, language: LanguageId, viewMode: ViewMode)

  const DEFAULT_EXPECTANCY: real := 80.0

  const DEFAULT_PROFILE_STATE: ProfileState := ProfileState(
    "", "", None, "", "", DEFAULT_EXPECTANCY, false, ClassicDots, DEFAULT_THEME_ID, Default, Weeks)

  /** The empty JSON object. */
  const EMPTY_PROFILE: Profile := Profile(None, None, None, None, None, None, None, None, None, None, None)

  /** A JavaScript-truthy optional string: present and not empty. */
  predicate Truthy(s: Option<string>) {
    s.Some? && s.value != []
  }

  /** `s || ""`. */
  function OrEmpty(s: Option<string>): (r: string)
    ensures Truthy(s) ==> r == s.value
    ensures !Truthy(s) ==> r == []
  {
    if Truthy(s) then s.value else ""
  }

  // ------------------------------------------------------------ storage

  /** The browser's `localStorage`: a map from keys to string values. */
  class KeyValueStore {
    var items: map<string, string>

    constructor(initial: map<string, string>)
      ensures items == initial
    {
      items := initial;
    }

    method GetItem(key: string) returns (value: Option<string>)
      ensures value == if key in items then Some(items[key]) else None
    {
      value := if key in items then Some(items[key]) else None;
    }

    method SetItem(key: string, value: string)
      modifies this
      ensures items == old(items)[key := value]
    {
      items := items[key := value];
    }

    method RemoveItem(key: string)
      modifies this
      ensures items == old(items) - {key}
    {
      items := items - {key};
    }
  }

  function Lookup(items: map<string, string>, key: string): Option<string> {
    if key in items then Some(items[key]) else None
  }

  /** The index of the first legacy key, from `from` on, holding a non-empty value. */
  function FirstLegacyFrom(items: map<string, string>, from: nat): (r: Option<nat>)
    requires from <= |LEGACY_STORAGE_KEYS|
    ensures r.Some? ==> from <= r.value < |LEGACY_STORAGE_KEYS| && Truthy(Lookup(items, LEGACY_STORAGE_KEYS[r.value]))
    ensures r.Some? ==> forall j :: from <= j < r.value ==> !Truthy(Lookup(items, LEGACY_STORAGE_KEYS[j]))
    ensures r.None? ==> forall j :: from <= j < |LEGACY_STORAGE_KEYS| ==> !Truthy(Lookup(items, LEGACY_STORAGE_KEYS[j]))
    decreases |LEGACY_STORAGE_KEYS| - from
  {
    if from == |LEGACY_STORAGE_KEYS| then None
    else if Truthy(Lookup(items, LEGACY_STORAGE_KEYS[from])) then Some(from)
    else FirstLegacyFrom(items, from + 1)
  }

  function FirstLegacy(items: map<string, string>): Option<nat> {
    FirstLegacyFrom(items, 0)
  }

  /** The storage after a load: unchanged unless a legacy value moves to the current key. */
  function Migrated(items: map<string, string>): map<string, string> {
    if Truthy(Lookup(items, STORAGE_KEY)) then items
    else match FirstLegacy(items)
      case None => items
      case Some(i) =>
        var key := LEGACY_STORAGE_KEYS[i];
        items[STORAGE_KEY := items[key]] - {key}
  }

  /** The raw stored text a load parses, if any. */
  function LoadedText(items: map<string, string>): Option<string> {
    if Truthy(Lookup(items, STORAGE_KEY)) then Lookup(items, STORAGE_KEY)
    else match FirstLegacy(items)
      case None => None
      case Some(i) => Lookup(items, LEGACY_STORAGE_KEYS[i])
  }

  lemma LegacyKeysAreNotCurrent()
    ensures STORAGE_KEY !in LEGACY_STORAGE_KEYS
    ensures forall i, j :: 0 <= i < j < |LEGACY_STORAGE_KEYS| ==> LEGACY_STORAGE_KEYS[i] != LEGACY_STORAGE_KEYS[j]
  {
  }

  /**
   * What a load does to storage: with a current value nothing moves; otherwise
   * the first non-empty legacy key, in order, is moved to the current key and
   * no other key changes; with none, nothing changes.
   */
  lemma MigrationEffect(items: map<string, string>)
    ensures Truthy(Lookup(items, STORAGE_KEY)) ==> Migrated(items) == items
    ensures !Truthy(Lookup(items, STORAGE_KEY)) && FirstLegacy(items).None? ==> Migrated(items) == items
    ensures !Truthy(Lookup(items, STORAGE_KEY)) && FirstLegacy(items).Some? ==>
      var key := LEGACY_STORAGE_KEYS[FirstLegacy(items).value];
      key !in Migrated(items) &&
      Lookup(Migrated(items), STORAGE_KEY) == Lookup(items, key) &&
      forall k :: k != key && k != STORAGE_KEY ==> Lookup(Migrated(items), k) == Lookup(items, k)
  {
    LegacyKeysAreNotCurrent();
  }

  /** A second load finds the migrated value under the current key: it changes nothing and reads the same text. */
  lemma MigrationIdempotent(items: map<string, string>)
    ensures Migrated(Migrated(items)) == Migrated(items)
    ensures LoadedText(Migrated(items)) == LoadedText(items)
  {
    LegacyKeysAreNotCurrent();
  }

  /** A load reads text only when some key holds a non-empty value. */
  lemma LoadedTextIsNonEmpty(items: map<string, string>)
    ensures LoadedText(items).Some? ==> LoadedText(items).value != []
    ensures LoadedText(items).None? <==>
      !Truthy(Lookup(items, STORAGE_KEY)) &&
      forall j :: 0 <= j < |LEGACY_STORAGE_KEYS| ==> !Truthy(Lookup(items, LEGACY_STORAGE_KEYS[j]))
  {
  }

  /**
   * Reads the stored profile, migrating the first non-empty legacy key to the
   * current key when the current key is empty. `parse` is the JSON parser:
   * `None` where `JSON.parse` throws.
   */
  method LoadStoredProfile(storage: KeyValueStore, parse: string -> Option<Profile>) returns (profile: Option<Profile>)
    modifies storage
    ensures storage.items == Migrated(old(storage.items))
    ensures profile == if LoadedText(old(storage.items)).Some? then parse(LoadedText(old(storage.items)).value) else None
  {
    LegacyKeysAreNotCurrent();
    var stored := storage.GetItem(STORAGE_KEY);
    if !Truthy(stored) {
      var i := 0;
      while i < |LEGACY_STORAGE_KEYS|
        invariant 0 <= i <= |LEGACY_STORAGE_KEYS|
        invariant storage.items == old(storage.items)
        invariant FirstLegacy(storage.items) == FirstLegacyFrom(storage.items, i)
        invariant !Truthy(stored)
      {
        var legacyKey := LEGACY_STORAGE_KEYS[i];
        var legacyValue := storage.GetItem(legacyKey);
        if Truthy(legacyValue) {
          stored := legacyValue;
          storage.SetItem(STORAGE_KEY, legacyValue.value);
          storage.RemoveItem(legacyKey);
          break;
        }
        i := i + 1;
      }
    }
    profile := if Truthy(stored) then parse(stored.value) else None;
  }

  // ------------------------------------------------------ profile state

  /** The expectancy a country implies: its table value, else 80; 80 without a country. */
  function CountryDefaultExpectancy(country: string, byCountry: map<string, real>): (r: real)
    ensures country != [] && country in byCountry ==> r == byCountry[country]
    ensures country == [] || country !in byCountry ==> r == DEFAULT_EXPECTANCY
  {
    if country != "" && country in byCountry then byCountry[country] else DEFAULT_EXPECTANCY
  }

  /**
   * The editable state of a stored profile. `byCountry` is the country
   * expectancy table and `parseDate` the `Date` constructor (`None` for an
   * invalid date).
   */
  function ToProfileState(profile: Option<Profile>, byCountry: map<string, real>,
                          parseDate: string -> Option<Instant>): (s: ProfileState)
    ensures profile.None? ==> s == DEFAULT_PROFILE_STATE
    ensures s.dob.Some? ==> profile.Some? && Truthy(profile.value.dob) && s.dob == parseDate(profile.value.dob.value)
  {
    var p := profile.GetOr(EMPTY_PROFILE);
    var country := OrEmpty(p.country);
    var defaultExpectancy := CountryDefaultExpectancy(country, byCountry);
    var inferredHasCustom := p.lifeExpectancy.Some? && p.lifeExpectancy.value != defaultExpectancy;
    ProfileState(
      OrEmpty(p.name),
      country,
      if Truthy(p.dob) then parseDate(p.dob.value) else None,
      OrEmpty(p.profession),
      OrEmpty(p.discovery),
      p.lifeExpectancy.GetOr(defaultExpectancy),
      p.hasCustomExpectancy.GetOr(inferredHasCustom),
      p.dotStyle.GetOr(ClassicDots),
      p.themeId.GetOr(DEFAULT_THEME_ID),
      p.language.GetOr(Default),
      p.viewMode.GetOr(Weeks))
  }

  /** No profile, or the empty object, gives the default state field for field. */
  lemma MissingProfileIsDefault(byCountry: map<string, real>, parseDate: string -> Option<Instant>)
    ensures ToProfileState(None, byCountry, parseDate) == DEFAULT_PROFILE_STATE
    ensures ToProfileState(Some(EMPTY_PROFILE), byCountry, parseDate) == DEFAULT_PROFILE_STATE
  {
  }

  /**
   * The expectancy is the stored one when present, else the country default;
   * the custom flag is the stored one when present, else whether a stored
   * expectancy differs from the country default.
   */
  lemma ExpectancyRules(p: Profile, byCountry: map<string, real>, parseDate: string -> Option<Instant>)
    ensures var s := ToProfileState(Some(p), byCountry, parseDate);
      var base := CountryDefaultExpectancy(OrEmpty(p.country), byCountry);
      (p.lifeExpectancy.Some? ==> s.lifeExpectancy == p.lifeExpectancy.value) &&
      (p.lifeExpectancy.None? ==> s.lifeExpectancy == base) &&
      (p.hasCustomExpectancy.Some? ==> s.hasCustomExpectancy == p.hasCustomExpectancy.value) &&
      (p.hasCustomExpectancy.None? ==>
        (s.hasCustomExpectancy <==> p.lifeExpectancy.Some? && p.lifeExpectancy.value != base))
  {
  }

  /** The stored form of a state; `toIso` is `Date.prototype.toISOString`. */
  function ToStoredProfile(s: ProfileState, toIso: Instant -> string): (p: Profile)
    ensures p.dob == Some(if s.dob.Some? then toIso(s.dob.value) else "")
    ensures p.name == Some(s.name) && p.country == Some(s.country)
    ensures p.lifeExpectancy == Some(s.lifeExpectancy) && p.hasCustomExpectancy == Some(s.hasCustomExpectancy)
  {
    Profile(
      Some(s.name), Some(s.country),
      Some(if s.dob.Some? then toIso(s.dob.value) else ""),
      Some(s.profession), Some(s.discovery),
      Some(s.lifeExpectancy), Some(s.hasCustomExpectancy),
      Some(s.dotStyle), Some(s.themeId), Some(s.language), Some(s.viewMode))
  }

  /**
   * Storing a state and reading it back gives the same state on every field
   * except the birth date, which goes through its ISO text.
   */
  lemma StoredRoundTrip(s: ProfileState, byCountry: map<string, real>,
                        parseDate: string -> Option<Instant>, toIso: Instant -> string)
    ensures var t := ToProfileState(Some(ToStoredProfile(s, toIso)), byCountry, parseDate);
      t.(dob := s.dob) == s
    ensures s.dob.None? ==> ToProfileState(Some(ToStoredProfile(s, toIso)), byCountry, parseDate) == s
  {
  }

  /** When the date codec reads back what it writes, the round trip is exact. */
  lemma StoredRoundTripExact(s: ProfileState, byCountry: map<string, real>,
                             parseDate: string -> Option<Instant>, toIso: Instant -> string)
    requires s.dob.Some? ==> toIso(s.dob.value) != [] && parseDate(toIso(s.dob.value)) == s.dob
    ensures ToProfileState(Some(ToStoredProfile(s, toIso)), byCountry, parseDate) == s
  {
    StoredRoundTrip(s, byCountry, parseDate, toIso);
  }

  /** Onboarding is done when the profile has a non-blank name and the four other answers. */
  predicate HasCompletedOnboarding(profile: Option<Profile>)
    ensures HasCompletedOnboarding(profile) ==>
      profile.Some? && profile.value.name.Some? && profile.value.country.Some? && profile.value.dob.Some? &&
      profile.value.profession.Some? && profile.value.discovery.Some?
  {
    profile.Some? &&
    Trim(OrEmpty(profile.value.name)) != [] &&
    Truthy(profile.value.country) && Truthy(profile.value.dob) &&
    Truthy(profile.value.profession) && Truthy(profile.value.discovery)
  }

  /** A stored state counts as onboarded exactly when its answers are all given. */
  lemma OnboardingOfStoredState(s: ProfileState, toIso: Instant -> string)
    requires s.dob.Some? ==> toIso(s.dob.value) != []
    ensures HasCompletedOnboarding(Some(ToStoredProfile(s, toIso))) <==>
      !AllWhitespace(s.name) && s.country != [] && s.dob.Some? && s.profession != [] && s.discovery != []
  {
  }

  /** A name of blanks does not complete onboarding, and neither does a missing profile. */
  lemma BlankNameIsNotOnboarded(p: Profile)
    requires p.name.Some? && AllWhitespace(p.name.value)
    ensures !HasCompletedOnboarding(Some(p)) && !HasCompletedOnboarding(None)
  {
  }
}
