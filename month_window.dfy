/**
 * `get_month_dates`: a case-insensitive month token and a year become the
 * window from the first second of the month to 23:59:59 on its last day.
 */
module MonthWindow {
  import opened Wrappers
  import opened Text
  import opened Calendar

  /** The bot's `month_map`: 24 lower-case tokens, full names and abbreviations. */
  const MonthTable: map<string, int> := map[
    "january" := 1, "jan" := 1,
    "february" := 2, "feb" := 2,
    "march" := 3, "mar" := 3,
    "april" := 4, "apr" := 4,
    "may" := 5,
    "june" := 6, "jun" := 6,
    "july" := 7, "jul" := 7,
    "august" := 8, "aug" := 8,
    "september" := 9, "sep" := 9, "sept" := 9,
    "october" := 10, "oct" := 10,
    "november" := 11, "nov" := 11,
    "december" := 12, "dec" := 12
  ]

  /**
   * The range of a C `int` and of a C `long` (64 bits), which the `datetime`
   * constructor's argument parsing converts the year through before it
   * checks the range 1..9999.
   */
  const CIntMin: int := -0x8000_0000
  const CIntMax: int := 0x7fff_ffff
  const CLongMin: int := -0x8000_0000_0000_0000
  const CLongMax: int := 0x7fff_ffff_ffff_ffff

  /** The exceptions `get_month_dates` can raise. */
  datatype MonthError =
    | InvalidMonth(input: string)   // `ValueError`: the token is not in the table
    | YearOutOfRange(year: int)     // `ValueError` from `datetime`: a C int outside 1..9999
    | YearOverflow(year: int)       // `OverflowError` from `datetime`: the year is not a C int
  {
    /** Only `OverflowError` escapes the handler's `except ValueError` clause. */
    predicate IsValueError()
    {
      !YearOverflow?
    }

    /** The text of the exception, `str(e)`. */
    function Message(): (text: string)
      ensures InvalidMonth? ==> |text| == 15 + |input| && text[..15] == "Invalid month: " && text[15..] == input
      ensures YearOutOfRange? ==>
                && |text| > 21 && text[..5] == "year " && text[|text| - 16..] == " is out of range"
                && text[5..|text| - 16] == IntToDecimal(year)
      ensures YearOverflow? && CIntMax < year <= CLongMax ==> text == "signed integer is greater than maximum"
      ensures YearOverflow? && CLongMin <= year < CIntMin ==> text == "signed integer is less than minimum"
      ensures YearOverflow? && !(CLongMin <= year <= CLongMax) ==> text == "Python int too large to convert to C long"
    {
      match this
      case InvalidMonth(input) => "Invalid month: " + input
      case YearOutOfRange(year) => "year " + IntToDecimal(year) + " is out of range"
      case YearOverflow(year) =>
        if year < CLongMin || CLongMax < year then "Python int too large to convert to C long"
        else if CIntMax < year then "signed integer is greater than maximum"
        else "signed integer is less than minimum"
    }
  }

  /** The pair `(start_date, end_date)`. */
  datatype Window = Window(start: DateTime, end: DateTime)

  /** Every value in the table is a month number. */
  lemma TableMonths()
    ensures forall t :: t in MonthTable ==> 1 <= MonthTable[t] <= 12
  {
  }

  /** `month_map.get(month_name.lower())`. */
  function LookupMonth(monthName: string): (r: Option<int>)
    ensures r.Some? <==> Lower(monthName) in MonthTable
    ensures r.Some? ==> 1 <= r.value <= 12 && MonthTable[Lower(monthName)] == r.value
  {
    var key := Lower(monthName);
    if key in MonthTable then Some(MonthTable[key]) else None
  }

  /** `get_month_dates(month_name, year)` with the year supplied by the caller. */
  function GetMonthDates(monthName: string, year: int): (r: Result<Window, MonthError>)
    ensures r.Failure? && r.error.InvalidMonth? <==> LookupMonth(monthName).None?
    ensures r.Failure? && r.error.InvalidMonth? ==> r.error.input == monthName
    ensures r.Failure? && r.error.YearOverflow? <==>
              LookupMonth(monthName).Some? && !(CIntMin <= year <= CIntMax)
    ensures r.Failure? && r.error.YearOutOfRange? <==>
              LookupMonth(monthName).Some? && CIntMin <= year <= CIntMax && !(MinYear <= year <= MaxYear)
    ensures r.Failure? && !r.error.InvalidMonth? ==> r.error.year == year
    ensures r.Success? ==> Valid(r.value.start) && Valid(r.value.end) && Before(r.value.start, r.value.end)
    ensures r.Success? ==> r.value.start.year == r.value.end.year == year
    ensures r.Success? ==> r.value.start.month == r.value.end.month == LookupMonth(monthName).value
  {
    match LookupMonth(monthName)
    case None => Failure(InvalidMonth(monthName))
    case Some(month) =>
      if !(CIntMin <= year <= CIntMax) then Failure(YearOverflow(year))
      else if !(MinYear <= year <= MaxYear) then Failure(YearOutOfRange(year))
      else
        var lastDay := DaysInMonth(year, month);
        Success(Window(DateTime(year, month, 1, 0, 0, 0), DateTime(year, month, lastDay, 23, 59, 59)))
  }

  /**
   * The window is exactly the month: a valid date-time lies between the two
   * bounds, both included, if and only if it falls in that year and month.
   */
  lemma WindowCoversMonth(monthName: string, year: int, t: DateTime)
    requires GetMonthDates(monthName, year).Success?
    requires Valid(t)
    ensures var w := GetMonthDates(monthName, year).value;
            NotAfter(w.start, t) && NotAfter(t, w.end) <==>
            t.year == year && t.month == LookupMonth(monthName).value
  {
  }

  /** The end of the window is the last day of the month: the next day does not exist. */
  lemma WindowEndsOnLastDay(monthName: string, year: int)
    requires GetMonthDates(monthName, year).Success?
    ensures var e := GetMonthDates(monthName, year).value.end;
            !Valid(e.(day := e.day + 1)) && e.(day := e.day + 1).year == year
  {
  }

  /** Upper, lower and mixed case spell the same month. */
  lemma LookupIgnoresCase(a: string, b: string, year: int)
    requires Lower(a) == Lower(b)
    ensures LookupMonth(a) == LookupMonth(b)
    ensures GetMonthDates(a, year).Success? <==> GetMonthDates(b, year).Success?
    ensures GetMonthDates(a, year).Success? ==> GetMonthDates(a, year) == GetMonthDates(b, year)
  {
  }

  /** Spelled in any case, each listed token resolves to its month. */
  lemma TokenResolves(monthName: string, token: string, year: int)
    requires token in MonthTable && Lower(monthName) == token
    requires MinYear <= year <= MaxYear
    ensures GetMonthDates(monthName, year).Success?
    ensures GetMonthDates(monthName, year).value.start.month == MonthTable[token]
  {
  }

  /** Any other text is rejected with a message that quotes it unchanged. */
  lemma UnknownTokenRejected(monthName: string, year: int)
    requires Lower(monthName) !in MonthTable
    ensures GetMonthDates(monthName, year) == Failure(InvalidMonth(monthName))
    ensures GetMonthDates(monthName, year).error.Message() == "Invalid month: " + monthName
  {
  }

  /**
   * A year that Discord's integer option lets through but that is no C int
   * is not a `ValueError`: 2^32 overflows in the `datetime` constructor.
   */
  lemma HugeYearOverflows()
    ensures GetMonthDates("May", 0x1_0000_0000) == Failure(YearOverflow(0x1_0000_0000))
    ensures !GetMonthDates("May", 0x1_0000_0000).error.IsValueError()
    ensures GetMonthDates("May", 0x1_0000_0000).error.Message() == "signed integer is greater than maximum"
  {
    assert Lower("May") == "may";
  }

  /** 'sept' is September; May has the single token 'may'. */
  lemma TableQuirks()
    ensures MonthTable["sept"] == 9
    ensures forall t :: t in MonthTable && MonthTable[t] == 5 ==> t == "may"
  {
  }

  /** A leap-year February: February 2024 ends on the 29th. */
  lemma February2024()
    ensures GetMonthDates("February", 2024) ==
            Success(Window(DateTime(2024, 2, 1, 0, 0, 0), DateTime(2024, 2, 29, 23, 59, 59)))
  {
    assert Lower("February") == "february";
  }
}
