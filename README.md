# WeatherWarning: settings, bilingual text and warning-card formatting

This project models the logic in two files of a mobile app that shows Swedish weather warnings.

- `app/context/SettingsContext.tsx`:
  - the list of Swedish counties;
  - the provider that keeps the selected language (`sv` or `en`), the selected county and a loading flag;
  - the provider loads both settings from device storage at start and writes them back when the user changes one;
  - `getText`, which picks the text for the chosen language;
  - `formatDate`, which renders a warning's time in the chosen language.
- `app/components/WeatherWarning.tsx`:
  - the warning card's border colour for a severity (`getSeverityColor`);
  - `formatSwedishDate`, its Swedish-only date formatter;
  - the card's start and end lines.

Modules:

- `Wrappers` (`wrappers.dfy`): `Option`, which stands for `undefined` and `null`.
- `JsText` (`js_text.dfy`): the JavaScript string behaviour the formatters depend on:
  - the white-space set of `\s` and `trim`;
  - `trim`;
  - the case folding of a regular expression with the `i` flag;
  - `replace(/^label\s*/i, "")`.
- `AsyncStorage` (`async_storage.dfy`): the device key-value store as a class over a `map<string, string>`.
  - `GetItem` and `SetItem` may each fail; the outcome is nondeterministic.
  - A failed write leaves the map unchanged.
- `SettingsContext` (`settings_context.dfy`): counties, language codes, validation on load, the `SettingsProvider` class, `GetText` and `FormatDate`.
- `WeatherWarning` (`weather_warning.dfy`): `SeverityColor`, `FormatSwedishDate` and the card (`RenderCard`).

Date parsing (`new Date(...)`, with an invalid date as `None`) and the two `Intl.DateTimeFormat` calls are foreign code.
They are the three fields of a `DateLib` value that both formatters take as a parameter.
Every date property is therefore proved for all possible date libraries.

The provider changes its in-memory value only after the storage write succeeded (`SettingsContext.tsx:86-88` and `96-98`).
A failed write changes nothing.
The card always formats its times in Swedish with `formatSwedishDate` (`WeatherWarning.tsx:14-15`), whatever language is selected.

## Model

| member | source | states |
|---|---|---|
| `AsyncStorage.Lookup` | app/context/SettingsContext.tsx:66-69 | a key never written reads as `null` (None); a written key reads as its stored string |
| `AsyncStorage.DeviceStorage.GetItem` | app/context/SettingsContext.tsx:66-69 | a read either fails or returns what the store holds for the key, and never changes the store |
| `AsyncStorage.DeviceStorage.SetItem` | app/context/SettingsContext.tsx:87 | a successful write stores the value under the key and leaves the other keys alone; a failed write leaves the store unchanged |
| `JsText.IsSpace` | app/context/SettingsContext.tsx:145-147 | the characters `\s` matches and `trim` removes: U+0009 to U+000D, U+0020, U+00A0, U+1680, U+2000 to U+200A, U+2028, U+2029, U+202F, U+205F, U+3000 and U+FEFF (a definition, no contract) |
| `JsText.Canonicalize` | app/context/SettingsContext.tsx:145-146 | the `i` flag compares upper-case forms, and a character folds into Basic Latin exactly when it is already in it |
| `JsText.StartsWithIgnoringCase` | app/context/SettingsContext.tsx:145-146 | `/^prefix/i` matches when the string is at least as long as the prefix and agrees with it character by character after case folding (a definition, no contract) |
| `JsText.TrimStart` | app/context/SettingsContext.tsx:145 | the result is the longest suffix that does not start with white space, and everything dropped is white space |
| `JsText.TrimEnd` | app/context/SettingsContext.tsx:147 | the result is the longest prefix that does not end with white space, and everything dropped is white space |
| `JsText.Trim` | app/context/SettingsContext.tsx:147 | `trim()` returns a string with no white space at either end and never a longer one |
| `JsText.TrimRemovesOnlySpaces` | app/context/SettingsContext.tsx:147 | `trim()` returns a slice of its input, and only white space lies before and after that slice |
| `JsText.TrimIdempotent` | app/context/SettingsContext.tsx:147 | trimming twice gives the same result as trimming once |
| `JsText.StripLeadingMarker` | app/context/SettingsContext.tsx:145-146 | `replace(/^label\s*/i, "")` returns its input unchanged when the label does not match; on a match it returns a suffix after the label that does not start with white space |
| `JsText.StripLeadingMarkerDropsSpaces` | app/context/SettingsContext.tsx:145 | what `\s*` consumes after a matched label is white space only |
| `JsText.TrimStartSkipsSpaces` | app/context/SettingsContext.tsx:145 | leading white space of any length makes no difference to what follows `\s*` |
| `JsText.StripMarkerBeforeSpaces` | app/context/SettingsContext.tsx:145-146 | a string that starts with a label and white space is reduced to the text after them, without leading white space |
| `SettingsContext.Language.Code` | app/context/SettingsContext.tsx:11 | each language is stored as "sv" or "en" |
| `SettingsContext.ParseLanguage` | app/context/SettingsContext.tsx:71-72 | a stored string is a language exactly when it is "sv" or "en", and the language it names has that code |
| `SettingsContext.SomeCountyHasCode` | app/context/SettingsContext.tsx:74 | `counties.some(c => c.code === code)` holds exactly when some entry of the list has that code |
| `SettingsContext.DefaultCountyIsListed` | app/context/SettingsContext.tsx:14-37 | the default county "AB" is one of the 22 listed counties, and the empty string is not a listed code |
| `SettingsContext.LoadedLanguage` | app/context/SettingsContext.tsx:71-73 | after loading, the language is the stored value when that value is exactly "sv" or "en", and otherwise the language is unchanged |
| `SettingsContext.LoadedCounty` | app/context/SettingsContext.tsx:74-76 | after loading, the county is the stored value when some listed county has that code, and otherwise the county is unchanged |
| `SettingsContext.ReloadWrittenLanguage` | app/context/SettingsContext.tsx:85-88 | a language that was written is loaded back as the same language |
| `SettingsContext.ReloadWrittenCounty` | app/context/SettingsContext.tsx:95-98 | a written county code loads back as itself only when it is listed; an unlisted code loads back as "AB", because `setCounty` does not validate |
| `SettingsContext.WritesAreIndependent` | app/context/SettingsContext.tsx:85-102 | writing either key does not change what loading the other key yields |
| `SettingsContext.SettingsProvider.constructor` | app/context/SettingsContext.tsx:55-57 | the state starts as language "sv", county "AB" and loading true |
| `SettingsContext.SettingsProvider.LoadSettings` | app/context/SettingsContext.tsx:64-82 | loading always ends; when either read fails both settings keep their values; otherwise each setting takes its validated stored value; storage is not touched |
| `SettingsContext.SettingsProvider.SetLanguage` | app/context/SettingsContext.tsx:85-92 | the storage and the in-memory language hold the new language after a successful write; after a failed write both are unchanged; the county and the loading flag never change |
| `SettingsContext.SettingsProvider.SetCounty` | app/context/SettingsContext.tsx:95-102 | the same as SetLanguage for the county, with no check that the code is listed |
| `SettingsContext.Mount` | app/context/SettingsContext.tsx:60-62 | after mounting (initial state, then one load), loading is over; the settings are the defaults or the validated stored values; the county is always a listed one |
| `SettingsContext.ChooseCountyThenReload` | app/context/SettingsContext.tsx:94-102 | after a county is chosen and the app reopens, the county read back is always listed: the chosen code (if listed), the previously stored county, or "AB" |
| `SettingsContext.IsTruthy` | app/context/SettingsContext.tsx:135-137 | a text that the `or` operator keeps is one that is defined and not "" (a definition, no contract); the same guard at lines 71 and 74 is implied by the checks after it, because "" is neither "sv" nor "en" nor a listed county code (`DefaultCountyIsListed`) |
| `SettingsContext.PreferenceOrder` | app/context/SettingsContext.tsx:134-137 | English tries the English text first, then the Swedish one; Swedish the reverse (a definition, no contract) |
| `SettingsContext.FirstTruthy` | app/context/SettingsContext.tsx:135 | the fallback chain of `getText`: the first defined, non-empty text, or "" exactly when there is none |
| `SettingsContext.GetText` | app/context/SettingsContext.tsx:129-138 | the first non-empty text in the order en, sv for English and sv, en otherwise; "" exactly when neither text is defined and non-empty |
| `SettingsContext.CleanDateText` | app/context/SettingsContext.tsx:142-148 | the text given to the date parser has no white space at either end and is never longer than the input |
| `SettingsContext.CleanDateValue` | app/context/SettingsContext.tsx:142-148 | a number reaches the parser unchanged; a string reaches it as `CleanDateText` of the string, so trimmed and never longer (which labels are removed is stated by the `Clean…` lemmas below) |
| `SettingsContext.StartLabelMatches` | app/context/SettingsContext.tsx:145 | `/^Börjar:/i` matches exactly the strings that begin with "Börjar:" written in any mix of letter cases, including "Ö" for "ö" |
| `SettingsContext.EndLabelMatches` | app/context/SettingsContext.tsx:146 | `/^Slutar:/i` matches exactly the strings that begin with "Slutar:" written in any mix of letter cases |
| `SettingsContext.CleanUnlabelledText` | app/context/SettingsContext.tsx:145-147 | a string that starts with neither label is only trimmed |
| `SettingsContext.CleanAfterEndLabel` | app/context/SettingsContext.tsx:146-147 | a "Slutar:" label and the white space after it are removed, and the rest is trimmed |
| `SettingsContext.CleanAfterStartLabel` | app/context/SettingsContext.tsx:145-147 | after a "Börjar:" label and white space are removed, only a following "Slutar:" label is stripped, then the rest is trimmed; the "Börjar:" label is removed once, not repeatedly |
| `SettingsContext.CleanIgnoresStartLabel` | app/context/SettingsContext.tsx:145 | "Börjar:", any white space, then a bare text cleans to the same text as the bare text, provided the bare text starts neither with white space nor with a second "Börjar:" label ("Börjar: Börjar: x" cleans to "Börjar: x", not to "x") |
| `SettingsContext.CleanValueIgnoresStartLabel` | app/context/SettingsContext.tsx:142-148 | under the same two conditions, the labelled string and the bare string hand the same value to the parser |
| `SettingsContext.FormatDate` | app/context/SettingsContext.tsx:141-177 | "Unknown date" (en) or "Okänt datum" (sv) exactly when the cleaned value does not parse; otherwise date part, " at " or " kl. ", time part, " Stockholm time" or " svensk tid", in the en-GB or sv-SE locale |
| `SettingsContext.FormatDateSeesOnlyCleanedValue` | app/context/SettingsContext.tsx:150 | the output depends on the value only through the cleaned value handed to `new Date` |
| `SettingsContext.FormatDateIgnoresStartLabel` | app/context/SettingsContext.tsx:141-177 | under the same two conditions as `CleanIgnoresStartLabel`, "Börjar:" plus white space plus a bare text formats exactly like the bare text, in both languages and for every date library |
| `SettingsContext.UnknownDate` | app/context/SettingsContext.tsx:152 | the sentinel ("Unknown date" or "Okänt datum") is shorter than the connective and the zone suffix together, so no formatted date equals it |
| `SettingsContext.LocaleOf` | app/context/SettingsContext.tsx:155 | English formats in en-GB, Swedish in sv-SE (a definition, no contract) |
| `SettingsContext.Connective` | app/context/SettingsContext.tsx:174-176 | " at " for English, " kl. " for Swedish (a definition, no contract) |
| `SettingsContext.ZoneSuffix` | app/context/SettingsContext.tsx:174-176 | " Stockholm time" for English, " svensk tid" for Swedish (a definition, no contract) |
| `WeatherWarning.IsKnownSeverity` | app/components/WeatherWarning.tsx:68-72 | a severity is known exactly when it is a key of the colour table, and each key maps to itself |
| `WeatherWarning.SeverityColor` | app/components/WeatherWarning.tsx:67-74 | "yellow", "orange" and "red" map to themselves; every other string, including "RED" and "", maps to "gray" |
| `WeatherWarning.FormatSwedishDate` | app/components/WeatherWarning.tsx:35-65 | "Okänt datum" exactly when the cleaned value does not parse; otherwise the sv-SE date part, " kl. ", the sv-SE time part and " svensk tid" |
| `WeatherWarning.SwedishFormatIsFormatDate` | app/components/WeatherWarning.tsx:35-65 | the card's formatter agrees with `formatDate(v, "sv")` for every value and every date library |
| `WeatherWarning.RenderCard` | app/components/WeatherWarning.tsx:13-31 | the border colour is `getSeverityColor` of the warning's severity, so one of yellow, orange, red and gray; the card shows the title and description unchanged; the start and end lines are "Börjar: " and "Slutar: " followed by the Swedish-formatted times |
| `WeatherWarning.StartLineReadsBack` | app/components/WeatherWarning.tsx:29 | cleaning a card's start line gives back its date text, when that text is trimmed and does not itself begin with "Slutar:" |
| `WeatherWarning.EndLineReadsBack` | app/components/WeatherWarning.tsx:30 | cleaning a card's end line gives back its trimmed date text |
| `WeatherWarning.UnknownTimesReadBack` | app/components/WeatherWarning.tsx:45-47 | when neither time parses, cleaning either card line gives back "Okänt datum" |

## Left out

- React mechanics are not modelled: `createContext`, `useState`, `useEffect`, rendering and `useSettings`. `useSettings` throws only when it is called outside the provider, which is a framework-usage error.
- The concurrent `Promise.all` of the two reads is modelled as two reads in sequence. A read does not change the store, so the order of the reads has no effect.
- `console.error` logging is not modelled: it has no effect on the state.
- React's asynchronous state updates are not modelled: each change to state takes effect at once.
- `new Date(...)`, `getTime()`/`Number.isNaN` and `Intl.DateTimeFormat` with the `Europe/Stockholm` time zone are not modelled. They are library code over calendar and time-zone data and appear only as the uninterpreted fields of `DateLib`.
- A Dafny `char` is a Unicode scalar value; a JavaScript string is a sequence of UTF-16 code units, so lone surrogates cannot be represented. Every white-space and label character lies in the Basic Multilingual Plane, so no property here depends on this.
- A JavaScript number is modelled as a `real`. NaN and the infinities are not represented. The date library alone interprets numbers, so this affects no property here.
- `JsText.Canonicalize` writes out case folding for Basic Latin and Latin-1 only. For the two labels this is exact: the only characters that fold to their letters are the ASCII letters and "ö"/"Ö".
- `WeatherWarning.SeverityColor` does not model inherited prototype keys such as `colors["toString"]`. The lookup covers the table's three own keys only.
- `AsyncStorage.DeviceStorage.SetItem` assumes a failed write leaves the store unchanged. A partial write is not modelled.
- `app/index.tsx`, `app/_layout.tsx` and the tab screens are not modelled: they hold layout, navigation and styling, and no logic.
- The warning normaliser, the county filter and the fetch orchestrator are not part of this model. Their source files are not among the modelled files.
