/**
 * The browser's strategy API client: the request bodies it builds for
 * creating and updating a strategy, with the roll-over date written as
 * `year-MM-DD` from the date's local calendar fields.
 *
 * A body is given as the backend validator receives it after JSON encoding:
 * a field left `undefined` is absent from the encoded body.
 */
module FrontendStrategyApi {
  import opened Wrappers
  import opened JsValues
  import Text
  import StrategyValidation

  /** A `Date` as its local calendar fields: `getFullYear()`, `getMonth()` (from 0) and `getDate()`. */
  datatype CalendarDate = CalendarDate(year: int, monthIndex: int, day: int)

  /** The ranges a `Date` guarantees for its month index and day of the month. */
  predicate ValidCalendarDate(d: CalendarDate) {
    0 <= d.monthIndex < 12 && 1 <= d.day <= 31
  }

  /** The instrument picked in the form: its display name and its record id. */
  datatype SymbolChoice = SymbolChoice(name: string, id: string)

  /** The argument of `createStrategy`. */
  datatype CreateData = CreateData(name: string, description: string, symbol: SymbolChoice, broker: string,
                                   rollOverOn: Option<CalendarDate>)

  /** The argument of `updateStrategy`: any field may be missing. */
  datatype UpdateData = UpdateData(name: Option<string>, description: Option<string>, symbol: Option<SymbolChoice>,
                                   broker: Option<string>, rollOverOn: Option<CalendarDate>, status: Option<string>)

  /** The year as `String(year)`, then the month (from 1) and the day, each padded to two digits. */
  function FormatDate(d: CalendarDate): string
    requires ValidCalendarDate(d)
  {
    Text.IntToString(d.year) + "-" + Text.PadStart2(Text.NatToString(d.monthIndex + 1))
    + "-" + Text.PadStart2(Text.NatToString(d.day))
  }

  /** Reads a `year-MM-DD` text back: a decimal year, a dash, two month digits, a dash, two day digits. */
  function ParseFormatted(s: string): (r: Option<CalendarDate>)
    ensures r.Some? ==> ValidCalendarDate(r.value)
  {
    if |s| < 7 then None
    else
      var n := |s|;
      var mm := s[n - 5..n - 3];
      var dd := s[n - 2..];
      if s[n - 6] != '-' || s[n - 3] != '-' || !Text.AllDigits(mm) || !Text.AllDigits(dd) then None
      else match Text.ParseInt(s[..n - 6])
        case None => None
        case Some(y) =>
          var d := CalendarDate(y, Text.DigitsValue(mm) - 1, Text.DigitsValue(dd));
          if ValidCalendarDate(d) then Some(d) else None
  }

  /** Where the parts of `y-mm-dd` sit, for two-character month and day parts. */
  lemma JoinedParts(y: string, mm: string, dd: string)
    requires |mm| == 2 && |dd| == 2
    ensures var s := y + "-" + mm + "-" + dd;
      |s| == |y| + 6 && s[..|s| - 6] == y && s[|s| - 6] == '-' && s[|s| - 3] == '-'
      && s[|s| - 5..|s| - 3] == mm && s[|s| - 2..] == dd
  {
  }

  /** A `y-mm-dd` text with a decimal year and two-digit fields that make a valid date reads back as that date. */
  lemma ParseJoined(y: string, mm: string, dd: string, year: int)
    requires |mm| == 2 && |dd| == 2 && Text.AllDigits(mm) && Text.AllDigits(dd) && Text.ParseInt(y) == Some(year)
    requires ValidCalendarDate(CalendarDate(year, Text.DigitsValue(mm) - 1, Text.DigitsValue(dd)))
    ensures ParseFormatted(y + "-" + mm + "-" + dd) == Some(CalendarDate(year, Text.DigitsValue(mm) - 1, Text.DigitsValue(dd)))
  {
    JoinedParts(y, mm, dd);
  }

  /** The two-digit month and day fields of a formatted date. */
  lemma DateFields(d: CalendarDate)
    requires ValidCalendarDate(d)
    ensures var mm := Text.PadStart2(Text.NatToString(d.monthIndex + 1));
      var dd := Text.PadStart2(Text.NatToString(d.day));
      && |mm| == 2 && Text.AllDigits(mm) && Text.DigitsValue(mm) == d.monthIndex + 1
      && |dd| == 2 && Text.AllDigits(dd) && Text.DigitsValue(dd) == d.day
      && FormatDate(d) == Text.IntToString(d.year) + "-" + mm + "-" + dd
  {
    Text.PadStart2TwoDigits(d.monthIndex + 1);
    Text.PadStart2TwoDigits(d.day);
  }

  /** The formatted date has two-digit month and day fields after the year, and reads back as the same date. */
  lemma DateRoundTrip(d: CalendarDate)
    requires ValidCalendarDate(d)
    ensures var s := FormatDate(d);
      |s| == |Text.IntToString(d.year)| + 6 && s[..|s| - 6] == Text.IntToString(d.year)
      && s[|s| - 6] == '-' && s[|s| - 3] == '-'
      && Text.AllDigits(s[|s| - 5..|s| - 3]) && Text.AllDigits(s[|s| - 2..])
    ensures ParseFormatted(FormatDate(d)) == Some(d)
  {
    var y := Text.IntToString(d.year);
    var mm := Text.PadStart2(Text.NatToString(d.monthIndex + 1));
    var dd := Text.PadStart2(Text.NatToString(d.day));
    DateFields(d);
    JoinedParts(y, mm, dd);
    Text.IntToStringRoundTrip(d.year);
    ParseJoined(y, mm, dd, d.year);
  }

  /** The month and the day are zero-padded: January the 5th is written `-01-05`. */
  lemma PaddedFields(year: int)
    ensures FormatDate(CalendarDate(year, 0, 5)) == Text.IntToString(year) + "-01-05"
  {
    assert Text.NatToString(1) == "1";
    assert Text.NatToString(5) == "5";
  }

  /** The `rollOverOn` field: the formatted date for a date (a `Date` is always truthy), else absent. */
  function DateField(d: Option<CalendarDate>): (r: JsValue)
    requires d.Some? ==> ValidCalendarDate(d.value)
    ensures r.Undefined? <==> d.None?
    ensures d.Some? ==> r.Str? && Truthy(r) && ParseFormatted(r.s) == d
  {
    match d
    case None => Undefined
    case Some(date) =>
      DateRoundTrip(date);
      Str(FormatDate(date))
  }

  /** A field that is sent when it is given and is absent otherwise. */
  function OptionalField(v: Option<string>): (r: JsValue)
    ensures v.None? <==> r.Undefined?
    ensures v.Some? ==> r == Str(v.value)
  {
    if v.Some? then Str(v.value) else Undefined
  }

  /** The create body: the strategy's text fields unchanged, the instrument by its id, no status. */
  function CreatePayload(data: CreateData): (r: StrategyValidation.StrategyInput)
    requires data.rollOverOn.Some? ==> ValidCalendarDate(data.rollOverOn.value)
    ensures r.name == Str(data.name) && r.description == Str(data.description) && r.broker == Str(data.broker)
    ensures r.symbol == Str(data.symbol.id)
    ensures r.status == Undefined
    ensures r.rollOverOn.Undefined? <==> data.rollOverOn.None?
    ensures data.rollOverOn.Some? ==> r.rollOverOn.Str? && ParseFormatted(r.rollOverOn.s) == data.rollOverOn
  {
    StrategyValidation.StrategyInput(Str(data.name), Str(data.description), Str(data.symbol.id), Undefined,
                                     DateField(data.rollOverOn), Str(data.broker))
  }

  /** The update body: each given field as in the create body, a missing one absent, and the status passed through. */
  function UpdatePayload(data: UpdateData): (r: StrategyValidation.StrategyInput)
    requires data.rollOverOn.Some? ==> ValidCalendarDate(data.rollOverOn.value)
    ensures data.symbol.None? ==> r.symbol == Undefined
    ensures data.symbol.Some? ==> r.symbol == Str(data.symbol.value.id)
    ensures r.status == OptionalField(data.status)
    ensures r.rollOverOn.Undefined? <==> data.rollOverOn.None?
    ensures data.rollOverOn.Some? ==> r.rollOverOn.Str? && ParseFormatted(r.rollOverOn.s) == data.rollOverOn
  {
    StrategyValidation.StrategyInput(OptionalField(data.name), OptionalField(data.description),
                                     if data.symbol.Some? then Str(data.symbol.value.id) else Undefined,
                                     OptionalField(data.status), DateField(data.rollOverOn), OptionalField(data.broker))
  }

  /** With every create field given, the update body is the create body plus the status. */
  lemma UpdateExtendsCreate(data: CreateData, status: Option<string>)
    requires data.rollOverOn.Some? ==> ValidCalendarDate(data.rollOverOn.value)
    ensures UpdatePayload(UpdateData(Some(data.name), Some(data.description), Some(data.symbol), Some(data.broker),
                                     data.rollOverOn, status))
      == CreatePayload(data).(status := OptionalField(status))
  {
  }

  /** A status-only update (the table's switch) sends the status and nothing else. */
  lemma StatusOnlyUpdate(status: string)
    ensures UpdatePayload(UpdateData(None, None, None, None, None, Some(status)))
      == StrategyValidation.StrategyInput(Undefined, Undefined, Undefined, Str(status), Undefined, Undefined)
  {
  }
}
