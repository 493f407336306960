/**
 * The settings context of the app: the list of Swedish counties, the two
 * persisted preferences (language and county) with their validation on
 * load, the provider object that holds them, the bilingual text helper
 * and the language-dependent date formatter.
 */
module SettingsContext {
  import opened Wrappers
  import opened JsText
  import opened AsyncStorage

  // ---------------------------------------------------------------------
  // Languages and counties
  // ---------------------------------------------------------------------

  /** The two interface languages; `Code` is the string stored for each. */
  datatype Language = Sv | En {
    function Code(): (s: string)
      ensures s == "sv" || s == "en"
    {
      if Sv? then "sv" else "en"
    }
  }

  /** Reads a stored language code: only the exact strings "sv" and "en" are languages. */
  function ParseLanguage(s: string): (r: Option<Language>)
    ensures r.Some? <==> (s == "sv" || s == "en")
    ensures r.Some? ==> r.value.Code() == s
  {
    if s == "sv" then Some(Sv) else if s == "en" then Some(En) else None
  }

  datatype County = County(code: string, name: string)

  /** The counties the user can choose from, in the order the settings screen lists them. */
  const SwedishCounties: seq<County> := [
    County("AB", "Stockholms län"),
    County("AC", "Västmanlands län"),
    County("BD", "Sörmlands län"),
    County("C", "Uppsala län"),
    County("D", "Värmlands län"),
    County("E", "Gävleborgs län"),
    County("F", "Västnorrlands län"),
    County("G", "Jämtlands län"),
    County("H", "Västergötlands län"),
    County("I", "Hallands län"),
    County("K", "Kalmar län"),
    County("L", "Kronobergs län"),
    County("M", "Blekinge län"),
    County("N", "Skåne län"),
    County("O", "Jönköpings län"),
    County("S", "Västra Götalands län"),
    County("T", "Örebro län"),
    County("U", "Dalarnas län"),
    County("W", "Dalarna"),
    County("X", "Västerbottens län"),
    County("Y", "Norrbottens län"),
    County("Z", "Gotlands län")
  ]

  const DefaultLanguage: Language := Sv
  const DefaultCounty: string := "AB"
  const LanguageKey: string := "language"
  const CountyKey: string := "county"

  /** `counties.some(c => c.code === code)`. */
  function SomeCountyHasCode(counties: seq<County>, code: string): (b: bool)
    ensures b <==> exists i :: 0 <= i < |counties| && counties[i].code == code
  {
    if counties == [] then false
    else counties[0].code == code || SomeCountyHasCode(counties[1..], code)
  }

  predicate IsListedCounty(code: string) {
    SomeCountyHasCode(SwedishCounties, code)
  }

  /** The default county is a listed one, and the empty string is not a code. */
  lemma DefaultCountyIsListed()
    ensures IsListedCounty(DefaultCounty)
    ensures !IsListedCounty("")
  {
    assert SwedishCounties[0].code == DefaultCounty;
    forall i | 0 <= i < |SwedishCounties| ensures SwedishCounties[i].code != "" {
      assert |SwedishCounties[i].code| > 0;
    }
  }

  // ---------------------------------------------------------------------
  // Validation of stored preferences
  // ---------------------------------------------------------------------

  /**
   * The language after `loadSettings` has read `saved` (None for `null`):
   * the stored value when it is exactly "sv" or "en", the current one otherwise.
   */
  function LoadedLanguage(saved: Option<string>, current: Language): (r: Language)
    ensures saved.Some? && (saved.value == "sv" || saved.value == "en") ==> r.Code() == saved.value
    ensures !(saved.Some? && (saved.value == "sv" || saved.value == "en")) ==> r == current
  {
    if saved.Some? && saved.value != "" && ParseLanguage(saved.value).Some? then
      ParseLanguage(saved.value).value
    else
      current
  }

  /**
   * The county after `loadSettings` has read `saved`: the stored value when
   * some listed county has that code, the current one otherwise.
   */
  function LoadedCounty(saved: Option<string>, current: string): (r: string)
    ensures saved.Some? && IsListedCounty(saved.value) ==> r == saved.value
    ensures !(saved.Some? && IsListedCounty(saved.value)) ==> r == current
  {
    if saved.Some? && saved.value != "" && SomeCountyHasCode(SwedishCounties, saved.value) then
      saved.value
    else
      current
  }

  /** Writing a language and loading it back gives that language. */
  lemma ReloadWrittenLanguage(items: map<string, string>, lang: Language, current: Language)
    ensures LoadedLanguage(Lookup(items[LanguageKey := lang.Code()], LanguageKey), current) == lang
  {
  }

  /**
   * `setCounty` does not validate, so writing a county and loading it back
   * gives that county only when it is listed, and the default otherwise.
   */
  lemma ReloadWrittenCounty(items: map<string, string>, code: string)
    ensures LoadedCounty(Lookup(items[CountyKey := code], CountyKey), DefaultCounty) ==
              if IsListedCounty(code) then code else DefaultCounty
  {
  }

  /** Each preference lives under its own key: writing one leaves the load of the other as it was. */
  lemma WritesAreIndependent(items: map<string, string>, value: string, lang: Language, county: string)
    ensures LoadedLanguage(Lookup(items[CountyKey := value], LanguageKey), lang) ==
              LoadedLanguage(Lookup(items, LanguageKey), lang)
    ensures LoadedCounty(Lookup(items[LanguageKey := value], CountyKey), county) ==
              LoadedCounty(Lookup(items, CountyKey), county)
  {
  }

  // ---------------------------------------------------------------------
  // The provider's state
  // ---------------------------------------------------------------------

  /** The state `SettingsProvider` keeps and the three operations that change it. */
  class SettingsProvider {
    var language: Language
    var county: string
    var isLoading: bool
    const storage: DeviceStorage

    /** The initial state of the provider: the defaults, still loading. */
    constructor (storage: DeviceStorage)
      ensures this.storage == storage
      ensures language == DefaultLanguage && county == DefaultCounty && isLoading
    {
      this.storage := storage;
      language := DefaultLanguage;
      county := DefaultCounty;
      isLoading := true;
    }

    /**
     * `loadSettings`: reads both keys; only when both reads succeed is
     * each value that passes validation taken over. Loading ends in every case.
     */
    method LoadSettings()
      modifies this
      ensures !isLoading
      ensures unchanged(storage)
      ensures (language == old(language) && county == old(county)) ||
              (language == LoadedLanguage(Lookup(storage.items, LanguageKey), old(language)) &&
               county == LoadedCounty(Lookup(storage.items, CountyKey), old(county)))
    {
      var savedLanguage := storage.GetItem(LanguageKey);
      var savedCounty := storage.GetItem(CountyKey);
      if savedLanguage.Read? && savedCounty.Read? {
        var lang := savedLanguage.stored;
        if lang.Some? && lang.value != "" && (lang.value == "sv" || lang.value == "en") {
          language := if lang.value == "sv" then Sv else En;
        }
        var code := savedCounty.stored;
        if code.Some? && code.value != "" && SomeCountyHasCode(SwedishCounties, code.value) {
          county := code.value;
        }
      }
      isLoading := false;
    }

    /** `handleSetLanguage`: writes the key first and changes the language only if the write succeeded. */
    method SetLanguage(lang: Language)
      modifies this, storage
      ensures county == old(county) && isLoading == old(isLoading)
      ensures (storage.items == old(storage.items)[LanguageKey := lang.Code()] && language == lang) ||
              (storage.items == old(storage.items) && language == old(language))
    {
      var ok := storage.SetItem(LanguageKey, lang.Code());
      if ok {
        language := lang;
      }
    }

    /** `handleSetCounty`: the same as `SetLanguage` for the county, with no validation of the code. */
    method SetCounty(code: string)
      modifies this, storage
      ensures language == old(language) && isLoading == old(isLoading)
      ensures (storage.items == old(storage.items)[CountyKey := code] && county == code) ||
              (storage.items == old(storage.items) && county == old(county))
    {
      var ok := storage.SetItem(CountyKey, code);
      if ok {
        county := code;
      }
    }
  }

  /** Mounting the provider: the defaults, then one `loadSettings`. The county is then always a listed one. */
  method Mount(storage: DeviceStorage) returns (p: SettingsProvider)
    ensures fresh(p) && p.storage == storage && !p.isLoading
    ensures unchanged(storage)
    ensures (p.language == DefaultLanguage && p.county == DefaultCounty) ||
            (p.language == LoadedLanguage(Lookup(storage.items, LanguageKey), DefaultLanguage) &&
             p.county == LoadedCounty(Lookup(storage.items, CountyKey), DefaultCounty))
    ensures IsListedCounty(p.county)
  {
    DefaultCountyIsListed();
    p := new SettingsProvider(storage);
    p.LoadSettings();
  }

  /**
   * Choosing a county and reopening the app. Whatever the storage does,
   * the county read back is a listed one: the chosen code if it is listed
   * and its write and the reads succeeded, else the default or what was
   * stored before.
   */
  method ChooseCountyThenReload(items: map<string, string>, code: string) returns (reloaded: string)
    ensures IsListedCounty(reloaded)
    ensures reloaded == (if IsListedCounty(code) then code else DefaultCounty) ||
            reloaded == LoadedCounty(Lookup(items, CountyKey), DefaultCounty) ||
            reloaded == DefaultCounty
  {
    var storage := new DeviceStorage(items);
    var first := Mount(storage);
    first.SetCounty(code);
    ReloadWrittenCounty(items, code);
    var second := Mount(storage);
    reloaded := second.county;
  }

  // ---------------------------------------------------------------------
  // Bilingual text
  // ---------------------------------------------------------------------

  /** A JavaScript string value that is truthy: defined and not empty. */
  predicate IsTruthy(text: Option<string>) {
    text.Some? && text.value != ""
  }

  /** The order in which the two translations are tried for a language. */
  function PreferenceOrder(language: Language, svText: Option<string>, enText: Option<string>): seq<Option<string>> {
    if language == En then [enText, svText] else [svText, enText]
  }

  /** The first defined, non-empty text of `texts`, or "" if there is none. */
  function FirstTruthy(texts: seq<Option<string>>): (r: string)
    ensures r == "" <==> forall i :: 0 <= i < |texts| ==> !IsTruthy(texts[i])
    ensures r != "" ==> exists i :: 0 <= i < |texts| && texts[i] == Some(r) &&
                                     forall j :: 0 <= j < i ==> !IsTruthy(texts[j])
  {
    if texts == [] then ""
    else if IsTruthy(texts[0]) then texts[0].value
    else FirstTruthy(texts[1..])
  }

  /** `getText`: the text in the chosen language, falling back to the other one, then to "". */
  function GetText(svText: Option<string>, enText: Option<string>, language: Language): (r: string)
    ensures r == FirstTruthy(PreferenceOrder(language, svText, enText))
    ensures r == "" <==> !IsTruthy(svText) && !IsTruthy(enText)
  {
    if language == En then
      if IsTruthy(enText) then enText.value else if IsTruthy(svText) then svText.value else ""
    else
      if IsTruthy(svText) then svText.value else if IsTruthy(enText) then enText.value else ""
  }

  // ---------------------------------------------------------------------
  // Dates
  // ---------------------------------------------------------------------

  const StartLabel: string := "Börjar:"
  const EndLabel: string := "Slutar:"

  /** The two shapes a warning's time takes: a number of milliseconds or a string. */
  datatype DateValue = Number(ms: real) | Text(text: string)

  type Instant = int

  datatype Locale = EnGB | SvSE

  /**
   * The date library the formatter calls into: `new Date(raw)` (None when
   * `getTime()` is NaN), and the date and time parts of
   * `Intl.DateTimeFormat(locale, { timeZone: "Europe/Stockholm", ... })`.
   */
  datatype DateLib = DateLib(
    parse: DateValue -> Option<Instant>,
    datePart: (Instant, Locale) -> string,
    timePart: (Instant, Locale) -> string)

  /**
   * The text handed to the date parser: one leading "Börjar:" and then one
   * leading "Slutar:", each in any letter case and with the white space
   * after it, are removed and the rest is trimmed.
   */
  function CleanDateText(s: string): (r: string)
    ensures IsTrimmed(r)
    ensures |r| <= |s|
  {
    Trim(StripLeadingMarker(StripLeadingMarker(s, StartLabel), EndLabel))
  }

  /** Strings are cleaned; numbers reach the parser unchanged. */
  function CleanDateValue(value: DateValue): (r: DateValue)
    ensures value.Number? ==> r == value
    ensures value.Text? ==> r.Text? && IsTrimmed(r.text) && |r.text| <= |value.text|
    ensures value.Text? ==> r == Text(CleanDateText(value.text))
  {
    match value
    case Number(_) => value
    case Text(s) => Text(CleanDateText(s))
  }

  /** The label check is a plain letter-case comparison: "Börjar:" matches in any mix of cases and nothing else. */
  lemma StartLabelMatches(s: string)
    ensures StartsWithIgnoringCase(s, StartLabel) <==>
              |s| >= 7 && s[0] in "Bb" && s[1] in "Öö" && s[2] in "Rr" && s[3] in "Jj" &&
              s[4] in "Aa" && s[5] in "Rr" && s[6] == ':'
  {
    assert StartLabel == ['B', 'ö', 'r', 'j', 'a', 'r', ':'];
    if |s| >= 7 {
      assert StartsWithIgnoringCase(s, StartLabel) <==>
               Canonicalize(s[0]) == 'B' && Canonicalize(s[1]) == 'Ö' && Canonicalize(s[2]) == 'R' &&
               Canonicalize(s[3]) == 'J' && Canonicalize(s[4]) == 'A' && Canonicalize(s[5]) == 'R' &&
               Canonicalize(s[6]) == ':';
    }
  }

  /** "Slutar:" likewise matches in any mix of cases and nothing else. */
  lemma EndLabelMatches(s: string)
    ensures StartsWithIgnoringCase(s, EndLabel) <==>
              |s| >= 7 && s[0] in "Ss" && s[1] in "Ll" && s[2] in "Uu" && s[3] in "Tt" &&
              s[4] in "Aa" && s[5] in "Rr" && s[6] == ':'
  {
    assert EndLabel == ['S', 'l', 'u', 't', 'a', 'r', ':'];
    if |s| >= 7 {
      assert StartsWithIgnoringCase(s, EndLabel) <==>
               Canonicalize(s[0]) == 'S' && Canonicalize(s[1]) == 'L' && Canonicalize(s[2]) == 'U' &&
               Canonicalize(s[3]) == 'T' && Canonicalize(s[4]) == 'A' && Canonicalize(s[5]) == 'R' &&
               Canonicalize(s[6]) == ':';
    }
  }

  /** A text carrying neither label is only trimmed. */
  lemma CleanUnlabelledText(t: string)
    requires !StartsWithIgnoringCase(t, StartLabel) && !StartsWithIgnoringCase(t, EndLabel)
    ensures CleanDateText(t) == Trim(t)
  {
  }

  /** After a "Slutar:" label and white space, the rest is only trimmed. */
  lemma CleanAfterEndLabel(w: string, t: string)
    requires AllSpaces(w)
    ensures CleanDateText(EndLabel + w + t) == Trim(t)
  {
    var s := EndLabel + w + t;
    assert s[0] == 'S';
    assert !StartsWithIgnoringCase(s, StartLabel) by {
      assert Canonicalize(s[0]) != Canonicalize(StartLabel[0]);
    }
    StripMarkerBeforeSpaces(EndLabel, w, t);
    TrimAfterTrimStart(t);
  }

  /** After a "Börjar:" label and white space, the rest is cleaned of a "Slutar:" label only. */
  lemma CleanAfterStartLabel(w: string, t: string)
    requires AllSpaces(w)
    ensures CleanDateText(StartLabel + w + t) == Trim(StripLeadingMarker(TrimStart(t), EndLabel))
  {
    StripMarkerBeforeSpaces(StartLabel, w, t);
  }

  /** A date string prefixed by "Börjar:" is read as the bare date string. */
  lemma CleanIgnoresStartLabel(w: string, t: string)
    requires AllSpaces(w)
    requires t == [] || !IsSpace(t[0])
    requires !StartsWithIgnoringCase(t, StartLabel)
    ensures CleanDateText(StartLabel + w + t) == CleanDateText(t)
  {
    CleanAfterStartLabel(w, t);
    assert TrimStart(t) == t;
  }

  /** The sentinel is shorter than any formatted date, so the two never coincide. */
  function UnknownDate(language: Language): (r: string)
    ensures |r| < |Connective(language)| + |ZoneSuffix(language)|
  {
    if language == En then "Unknown date" else "Okänt datum"
  }

  function LocaleOf(language: Language): Locale {
    if language == En then EnGB else SvSE
  }

  function Connective(language: Language): string {
    if language == En then " at " else " kl. "
  }

  function ZoneSuffix(language: Language): string {
    if language == En then " Stockholm time" else " svensk tid"
  }

  /**
   * `formatDate`: the language's "unknown date" text exactly when the
   * cleaned value does not parse; otherwise the date part, the language's
   * connective, the time part and the language's time-zone suffix.
   */
  function FormatDate(lib: DateLib, value: DateValue, language: Language): (r: string)
    ensures r == UnknownDate(language) <==> lib.parse(CleanDateValue(value)).None?
    ensures lib.parse(CleanDateValue(value)).Some? ==>
              var d := lib.parse(CleanDateValue(value)).value;
              r == lib.datePart(d, LocaleOf(language)) + Connective(language) +
                   lib.timePart(d, LocaleOf(language)) + ZoneSuffix(language)
  {
    var date := lib.parse(CleanDateValue(value));
    if date.None? then
      if language == En then "Unknown date" else "Okänt datum"
    else
      var locale := if language == En then EnGB else SvSE;
      var datePart := lib.datePart(date.value, locale);
      var timePart := lib.timePart(date.value, locale);
      var r := if language == En then
        datePart + " at " + timePart + " Stockholm time"
      else
        datePart + " kl. " + timePart + " svensk tid";
      assert |r| >= |Connective(language)| + |ZoneSuffix(language)| > |UnknownDate(language)|;
      r
  }

  /** Two values that clean to the same raw value format alike; with `CleanIgnoresStartLabel`, a labelled start time formats like the bare one. */
  lemma FormatDateSeesOnlyCleanedValue(lib: DateLib, v1: DateValue, v2: DateValue, language: Language)
    requires CleanDateValue(v1) == CleanDateValue(v2)
    ensures FormatDate(lib, v1, language) == FormatDate(lib, v2, language)
  {
  }

  /** A start time written after a "Börjar:" label reaches the parser as the bare time. */
  lemma CleanValueIgnoresStartLabel(w: string, t: string)
    requires AllSpaces(w)
    requires t == [] || !IsSpace(t[0])
    requires !StartsWithIgnoringCase(t, StartLabel)
    ensures CleanDateValue(Text(StartLabel + w + t)) == CleanDateValue(Text(t))
  {
    CleanIgnoresStartLabel(w, t);
  }

  /** A start time written after a "Börjar:" label formats like the bare time. */
  lemma FormatDateIgnoresStartLabel(lib: DateLib, w: string, t: string, language: Language)
    requires AllSpaces(w)
    requires t == [] || !IsSpace(t[0])
    requires !StartsWithIgnoringCase(t, StartLabel)
    ensures FormatDate(lib, Text(StartLabel + w + t), language) == FormatDate(lib, Text(t), language)
  {
    CleanValueIgnoresStartLabel(w, t);
    FormatDateSeesOnlyCleanedValue(lib, Text(StartLabel + w + t), Text(t), language);
  }
}
