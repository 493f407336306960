/**
 * The warning card: the colour of its border for a severity, and its
 * start and end lines, which always use the Swedish date format.
 */
module WeatherWarning {
  import opened JsText
  import opened SettingsContext

  /** The warning as the card receives it. */
  datatype Warning = Warning(
    id: string,
    title: string,
    description: string,
    severity: string,
    approximateStart: DateValue,
    approximateEnd: DateValue)

  /** What the card shows: its texts and the colour of its left border. */
  datatype Card = Card(title: string, description: string, borderColor: string, startLine: string, endLine: string)

  /** The colour table of `getSeverityColor`, keyed by its own keys only. */
  const SeverityColors: map<string, string> := map["yellow" := "yellow", "orange" := "orange", "red" := "red"]

  const FallbackColor: string := "gray"

  /** A severity that is an own key of the colour table. */
  predicate IsKnownSeverity(severity: string)
    ensures IsKnownSeverity(severity) <==> severity in SeverityColors
    ensures IsKnownSeverity(severity) ==> SeverityColors[severity] == severity
  {
    severity == "yellow" || severity == "orange" || severity == "red"
  }

  /**
   * `getSeverityColor`: the three known severities are their own colour;
   * every other string, a different letter case or "" included, is gray.
   */
  function SeverityColor(severity: string): (color: string)
    ensures IsKnownSeverity(severity) ==> color == severity
    ensures !IsKnownSeverity(severity) ==> color == FallbackColor
  {
    if severity in SeverityColors && SeverityColors[severity] != "" then SeverityColors[severity] else "gray"
  }

  /** The sentinel and the suffix `formatSwedishDate` writes. */
  const UnknownSwedishDate: string := "Okänt datum"

  /**
   * `formatSwedishDate`: the same steps as `formatDate` with the Swedish
   * locale, connective, suffix and sentinel written in.
   */
  function FormatSwedishDate(lib: DateLib, value: DateValue): (r: string)
    ensures r == UnknownSwedishDate <==> lib.parse(CleanDateValue(value)).None?
    ensures lib.parse(CleanDateValue(value)).Some? ==>
              var d := lib.parse(CleanDateValue(value)).value;
              r == lib.datePart(d, SvSE) + " kl. " + lib.timePart(d, SvSE) + " svensk tid"
  {
    var rawValue := match value
      case Text(s) => Text(Trim(StripLeadingMarker(StripLeadingMarker(s, "Börjar:"), "Slutar:")))
      case Number(_) => value;
    assert rawValue == CleanDateValue(value);
    var date := lib.parse(rawValue);
    if date.None? then
      "Okänt datum"
    else
      var datePart := lib.datePart(date.value, SvSE);
      var timePart := lib.timePart(date.value, SvSE);
      var r := datePart + " kl. " + timePart + " svensk tid";
      assert |r| > |UnknownSwedishDate|;
      r
  }

  /** The card's formatter is `formatDate` with the Swedish language, for every value and every date library. */
  lemma SwedishFormatIsFormatDate(lib: DateLib, value: DateValue)
    ensures FormatSwedishDate(lib, value) == FormatDate(lib, value, Sv)
  {
    if lib.parse(CleanDateValue(value)).Some? {
      assert LocaleOf(Sv) == SvSE && Connective(Sv) == " kl. " && ZoneSuffix(Sv) == " svensk tid";
    } else {
      assert UnknownDate(Sv) == UnknownSwedishDate;
    }
  }

  /** The labels the card puts ahead of the formatted times. */
  const StartLinePrefix: string := "Börjar: "
  const EndLinePrefix: string := "Slutar: "

  /** The card for a warning. */
  function RenderCard(lib: DateLib, w: Warning): (c: Card)
    ensures c.borderColor == SeverityColor(w.severity)
    ensures c.borderColor in {"yellow", "orange", "red", FallbackColor}
    ensures c.title == w.title && c.description == w.description
    ensures c.startLine == StartLinePrefix + FormatSwedishDate(lib, w.approximateStart)
    ensures c.endLine == EndLinePrefix + FormatSwedishDate(lib, w.approximateEnd)
  {
    var startText := FormatSwedishDate(lib, w.approximateStart);
    var endText := FormatSwedishDate(lib, w.approximateEnd);
    Card(w.title, w.description, SeverityColor(w.severity), "Börjar: " + startText, "Slutar: " + endText)
  }

  /**
   * The labels the card writes are the ones the date cleaner strips: a
   * card's start line, cleaned, gives back its trimmed date text unless
   * that text itself starts with a "Slutar:" label.
   */
  lemma StartLineReadsBack(text: string)
    requires IsTrimmed(text)
    requires !StartsWithIgnoringCase(text, EndLabel)
    ensures CleanDateText(StartLinePrefix + text) == text
  {
    assert StartLinePrefix + text == StartLabel + " " + text;
    assert AllSpaces(" ");
    CleanAfterStartLabel(" ", text);
    assert TrimStart(text) == text;
    TrimOfTrimmed(text);
  }

  /** A card's end line, cleaned, gives back its trimmed date text. */
  lemma EndLineReadsBack(text: string)
    requires IsTrimmed(text)
    ensures CleanDateText(EndLinePrefix + text) == text
  {
    assert EndLinePrefix + text == EndLabel + " " + text;
    assert AllSpaces(" ");
    CleanAfterEndLabel(" ", text);
    TrimOfTrimmed(text);
  }

  /** A card whose times do not parse shows the Swedish sentinel on both lines, and the lines clean back to it. */
  lemma UnknownTimesReadBack(lib: DateLib, w: Warning)
    requires lib.parse(CleanDateValue(w.approximateStart)).None?
    requires lib.parse(CleanDateValue(w.approximateEnd)).None?
    ensures CleanDateText(RenderCard(lib, w).startLine) == UnknownSwedishDate
    ensures CleanDateText(RenderCard(lib, w).endLine) == UnknownSwedishDate
  {
    var c := RenderCard(lib, w);
    assert UnknownSwedishDate[0] == 'O';
    assert !StartsWithIgnoringCase(UnknownSwedishDate, EndLabel) by {
      assert Canonicalize(UnknownSwedishDate[0]) != Canonicalize(EndLabel[0]);
    }
    StartLineReadsBack(UnknownSwedishDate);
    EndLineReadsBack(UnknownSwedishDate);
  }
}
