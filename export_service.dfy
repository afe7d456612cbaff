/** Services/Implementations/ExportService.cs: the period caption printed
    on the exported report. The PDF layout itself is not part of this
    model. */
module ExportService {
  import opened Wrappers
  import opened Calendar
  import opened Text
  import opened ReportService

  /** A month and year as "MMM yyyy" renders the 1st of that month: the
      culture's abbreviated month name, a space, and the year padded to
      four digits. The month names are whatever the culture supplies, so
      they are a parameter. */
  function MonthYear(monthName: int -> string, year: nat, month: int): string {
    monthName(month) + " " + PadDigits(year, 4)
  }

  /** Whether a string ends in a decimal digit. */
  predicate EndsInDigit(s: string) {
    |s| > 0 && '0' <= s[|s| - 1] <= '9'
  }

  lemma AppendKeepsDigitEnd(a: string, t: string)
    requires EndsInDigit(t)
    ensures EndsInDigit(a + t)
  {
    assert (a + t)[|a + t| - 1] == t[|t| - 1];
  }

  /** A month-year and a bare year both end in a year digit. */
  lemma YearPartEndsInDigit(monthName: int -> string, year: nat, month: Option<int>)
    ensures EndsInDigit(if month.Some? then MonthYear(monthName, year, month.value) else IntToString(year))
  {
    if month.Some? {
      AppendKeepsDigitEnd(monthName(month.value) + " ", PadDigits(year, 4));
      assert MonthYear(monthName, year, month.value) == (monthName(month.value) + " ") + PadDigits(year, 4);
    }
  }

  /** `GetPeriodText`: "All Time" exactly for the all-time range; every
      other caption ends in a digit of a year. */
  function GetPeriodText(monthName: int -> string, p: Period): (text: string)
    requires Resolvable(p)
    ensures text == "All Time" <==> GetDateRange(p) == AllTime
    ensures p.startYear.Some? ==> EndsInDigit(text)
  {
    if p.startYear.None? then "All Time"
    else
      var startPart :=
        if p.startMonth.Some? then MonthYear(monthName, p.startYear.value, p.startMonth.value)
        else IntToString(p.startYear.value);
      YearPartEndsInDigit(monthName, p.startYear.value, p.startMonth);
      assert "All Time"[7] == 'e';
      if p.endYear.None? then
        if p.startMonth.Some? then startPart
        else
          AppendKeepsDigitEnd("Year ", startPart);
          "Year " + startPart
      else
        var endPart :=
          if p.endMonth.Some? then MonthYear(monthName, p.endYear.value, p.endMonth.value)
          else IntToString(p.endYear.value);
        YearPartEndsInDigit(monthName, p.endYear.value, p.endMonth);
        AppendKeepsDigitEnd(startPart + " to ", endPart);
        startPart + " to " + endPart
  }

  /** The caption follows the same four cases as `GetDateRange`, and in
      each it names the range's own bounds: a single month names the month
      it starts and ends in; a whole year names the year that runs from
      1 January to 31 December; an explicit range names its start month
      (or year) and its end month (or year). */
  lemma CaptionDescribesRange(monthName: int -> string, p: Period)
    requires Resolvable(p)
    ensures var text, r := GetPeriodText(monthName, p), GetDateRange(p);
      && (p.startYear.None? ==> r == AllTime && text == "All Time")
      && (p.startYear.Some? && p.endYear.None? && p.startMonth.Some? ==>
            && r.start.year == r.end.year && r.start.month == r.end.month && r.start.day == 1
            && text == MonthYear(monthName, r.start.year, r.start.month))
      && (p.startYear.Some? && p.endYear.None? && p.startMonth.None? ==>
            && r.start == Midnight(r.start.year, 1, 1) && r.end == Midnight(r.start.year, 12, 31)
            && text == "Year " + NatToString(r.start.year))
      && (p.startYear.Some? && p.endYear.Some? ==>
            text == (if p.startMonth.Some? then MonthYear(monthName, r.start.year, r.start.month) else NatToString(r.start.year))
                    + " to "
                    + (if p.endMonth.Some? then MonthYear(monthName, r.end.year, r.end.month) else NatToString(r.end.year)))
  {
  }
}
