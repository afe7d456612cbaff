/** ViewModels/ReportViewModel.cs: the report screen's range filter, the
    figures it loads from the report service, and the name it gives the
    exported file. The commands, notifications and the PDF download are not
    part of this model. */
module ReportViewModel {
  import opened Wrappers
  import opened Calendar
  import opened Text
  import opened Data
  import opened ReportDtos
  import opened ReportService

  // ---------------------------------------------------------------------
  // Range validation

  /** The message `ApplyFilterAsync` shows for a filter it rejects, or
      `None` when it accepts the filter and reloads. An accepted filter
      never resolves to a range that ends before it starts. */
  function FilterError(p: Period): (err: Option<string>)
    ensures err.None? && Resolvable(p) && GetDateRange(p).Between? ==> Le(GetDateRange(p).start, GetDateRange(p).end)
  {
    if p.startMonth.Some? && p.startYear.None? then Some("Please select a Start Year.")
    else if p.endYear.Some? && p.startYear.None? then Some("Please select a Start Year if an End Year is provided.")
    else if p.startYear.Some? && p.endYear.Some? &&
            (p.startYear.value > p.endYear.value ||
             (p.startYear.value == p.endYear.value && p.startMonth.Some? && p.endMonth.Some? &&
              p.startMonth.value > p.endMonth.value))
    then Some("Start period cannot be after end period.")
    else None
  }

  /** With both years given, the order check rejects exactly the filters
      whose resolved start falls after their resolved end: it is neither
      stricter nor looser than the range itself. */
  lemma OrderCheckIsExact(p: Period)
    requires Resolvable(p) && p.startYear.Some? && p.endYear.Some?
    ensures FilterError(p).Some? <==> !Le(GetDateRange(p).start, GetDateRange(p).end)
  {
  }

  /** A filter passes the first two checks exactly when every given month
      and the end year come with a start year. An end month without an end
      year is accepted, and the range ignores it. */
  lemma MissingStartYearRejected(p: Period)
    requires p.startYear.None?
    ensures FilterError(p).None? <==> p.startMonth.None? && p.endYear.None?
    ensures FilterError(p).None? && Resolvable(p) ==> GetDateRange(p) == AllTime
  {
  }

  // ---------------------------------------------------------------------
  // The export file name

  /** A side of the file name for a given year: the year, "_", and the
      month number or "All". */
  function YearPart(y: int, month: Option<int>): string {
    IntToString(y) + "_" + (match month case None => "All" case Some(m) => IntToString(m))
  }

  /** One side of the export file name: "Total" without a year, otherwise
      its year part. Read back, it gives its year and month (a month
      without a year plays no part); it contains no "_t" and does not end
      in "_", so the "_to_" between two sides is found again. */
  function FileNamePart(year: Option<int>, month: Option<int>): (s: string)
    ensures (year.Some? ==> year.value >= 0) && (month.Some? ==> month.value >= 0) ==>
              ParseFileNamePart(s) == (year, if year.Some? then month else None)
    ensures (year.Some? ==> year.value >= 0) && (month.Some? ==> month.value >= 0) ==>
              |s| > 0 && s[|s| - 1] != '_' && forall i :: 0 <= i < |s| ==> !SeparatorAt(s, i)
  {
    match year
    case None => "Total"
    case Some(y) =>
      if y >= 0 && (month.Some? ==> month.value >= 0) then
        YearPartRoundTrip(y, month);
        NoSeparatorInYearPart(y, month);
        YearPart(y, month)
      else YearPart(y, month)
  }

  /** `Financial_Report_{from}_to_{to}.pdf`; for the non-negative bounds the
      pick lists offer, the name reads back as the period it was made
      from, up to the months that play no part. */
  function ExportFileName(p: Period): (name: string)
    ensures NonNegative(p) ==> ParseExportFileName(name) == Some(Effective(p))
  {
    var from := FileNamePart(p.startYear, p.startMonth);
    var to := FileNamePart(p.endYear, p.endMonth);
    StripFrame(from + "_to_" + to);
    if NonNegative(p) then
      SplitSides(from, to);
      "Financial_Report_" + (from + "_to_" + to) + ".pdf"
    else "Financial_Report_" + (from + "_to_" + to) + ".pdf"
  }

  /** The bounds a period really uses: a month whose year is missing plays
      no part in the file name, the caption or the range. */
  function Effective(p: Period): (e: Period)
    ensures e.startYear == p.startYear && e.endYear == p.endYear
    ensures e.startMonth == (if p.startYear.Some? then p.startMonth else None)
    ensures e.endMonth == (if p.endYear.Some? then p.endMonth else None)
  {
    Period(p.startYear, if p.startYear.Some? then p.startMonth else None,
           p.endYear, if p.endYear.Some? then p.endMonth else None)
  }

  /** A period's numbers are never negative (the pick lists offer years
      and months 1-12 only). */
  predicate NonNegative(p: Period) {
    && (p.startYear.Some? ==> p.startYear.value >= 0)
    && (p.startMonth.Some? ==> p.startMonth.value >= 0)
    && (p.endYear.Some? ==> p.endYear.value >= 0)
    && (p.endMonth.Some? ==> p.endMonth.value >= 0)
  }

  /** The first '_' in `s`. */
  function FirstUnderscore(s: string): (r: Option<nat>)
    ensures r.Some? ==> r.value < |s| && s[r.value] == '_'
    ensures r.Some? ==> forall i :: 0 <= i < r.value ==> s[i] != '_'
    ensures r.None? ==> forall i :: 0 <= i < |s| ==> s[i] != '_'
    decreases |s|
  {
    if s == [] then None
    else if s[0] == '_' then Some(0)
    else match FirstUnderscore(s[1..])
      case None => None
      case Some(k) => Some(k + 1)
  }

  /** Reads one side of a file name back. */
  function ParseFileNamePart(s: string): (Option<int>, Option<int>) {
    if s == "Total" then (None, None)
    else match FirstUnderscore(s)
      case None => (None, None)
      case Some(i) =>
        var month := s[i + 1..];
        (Some(DigitsValue(s[..i])), if month == "All" then None else Some(DigitsValue(month)))
  }

  /** A year part gives back the year and month it was made from. */
  lemma {:induction false} YearPartRoundTrip(y: int, month: Option<int>)
    requires y >= 0
    requires month.Some? ==> month.value >= 0
    ensures ParseFileNamePart(YearPart(y, month)) == (Some(y), month)
  {
    var digits := NatToString(y);
    var tail := match month case None => "All" case Some(m) => IntToString(m);
    var s := YearPart(y, month);
    assert s == digits + "_" + tail;
    assert s != "Total" by {
      assert s[0] == digits[0];
    }
    assert s[|digits|] == '_';
    assert FirstUnderscore(s) == Some(|digits|);
    assert s[..|digits|] == digits;
    assert s[|digits| + 1..] == tail;
    NatToStringRoundTrip(y);
    if month.Some? {
      assert tail != "All" by {
        assert '0' <= tail[0] <= '9';
      }
      NatToStringRoundTrip(month.value);
    }
  }

  /** Whether `s` has "_t" at position `i`. */
  predicate SeparatorAt(s: string, i: int) {
    0 <= i && i + 1 < |s| && s[i] == '_' && s[i + 1] == 't'
  }

  /** The first "_t" in `s`: where "_to_" starts in a file name, since a
      side never contains it. */
  function FirstSeparator(s: string): (r: Option<nat>)
    ensures r.Some? ==> SeparatorAt(s, r.value)
    ensures r.Some? ==> forall i :: 0 <= i < r.value ==> !SeparatorAt(s, i)
    ensures r.None? ==> forall i :: 0 <= i < |s| ==> !SeparatorAt(s, i)
    decreases |s|
  {
    if |s| < 2 then None
    else if s[0] == '_' && s[1] == 't' then Some(0)
    else
      assert forall i :: 1 <= i < |s| ==> SeparatorAt(s, i) == SeparatorAt(s[1..], i - 1);
      match FirstSeparator(s[1..])
      case None => None
      case Some(k) => Some(k + 1)
  }

  /** Reads a file name back into the period it names. */
  function ParseExportFileName(name: string): Option<Period> {
    if |name| < 21 || name[..17] != "Financial_Report_" || name[|name| - 4..] != ".pdf" then None
    else ParseSides(name[17..|name| - 4])
  }

  /** Reads "{from}_to_{to}" back, splitting at the first "_t". */
  function ParseSides(middle: string): Option<Period> {
    match FirstSeparator(middle)
    case None => None
    case Some(i) =>
      if i + 4 > |middle| then None
      else
        var (sy, sm) := ParseFileNamePart(middle[..i]);
        var (ey, em) := ParseFileNamePart(middle[i + 4..]);
        Some(Period(sy, sm, ey, em))
  }

  /** The fixed prefix and suffix come off cleanly. */
  lemma StripFrame(middle: string)
    ensures ParseExportFileName("Financial_Report_" + middle + ".pdf") == ParseSides(middle)
  {
    var name := "Financial_Report_" + middle + ".pdf";
    assert name[..17] == "Financial_Report_";
    assert name[|name| - 4..] == ".pdf";
    assert name[17..|name| - 4] == middle;
  }

  /** The sides split apart at the "_to_" when the first side has no "_t"
      and does not end in "_". */
  lemma SplitSides(from: string, to: string)
    requires |from| > 0 && from[|from| - 1] != '_'
    requires forall i :: 0 <= i < |from| ==> !SeparatorAt(from, i)
    ensures ParseSides(from + "_to_" + to) ==
      Some(Period(ParseFileNamePart(from).0, ParseFileNamePart(from).1, ParseFileNamePart(to).0, ParseFileNamePart(to).1))
  {
    var middle := from + "_to_" + to;
    forall i | 0 <= i < |from| ensures !SeparatorAt(middle, i) {
      if i + 1 < |from| {
        assert middle[i] == from[i] && middle[i + 1] == from[i + 1];
        assert !SeparatorAt(from, i);
      } else {
        assert middle[i] == from[|from| - 1];
      }
    }
    assert SeparatorAt(middle, |from|);
    assert FirstSeparator(middle) == Some(|from|);
    assert middle[..|from|] == from;
    assert middle[|from| + 4..] == to;
  }

  /** A year part has no "_t" in it and does not end in "_". */
  lemma NoSeparatorInYearPart(y: int, month: Option<int>)
    requires y >= 0
    requires month.Some? ==> month.value >= 0
    ensures var s := YearPart(y, month); |s| > 0 && s[|s| - 1] != '_' && forall i :: 0 <= i < |s| ==> !SeparatorAt(s, i)
  {
    var digits := NatToString(y);
    var tail := match month case None => "All" case Some(m) => IntToString(m);
    var s := YearPart(y, month);
    assert s == digits + "_" + tail;
    forall i | 0 <= i < |s| ensures !SeparatorAt(s, i) {
      if i < |digits| {
        assert s[i] == digits[i];
      } else if i == |digits| && i + 1 < |s| {
        assert s[i + 1] == tail[0];
      } else if i > |digits| {
        assert s[i] == tail[i - |digits| - 1];
      }
    }
    assert s[|s| - 1] == tail[|tail| - 1];
  }

  /** Two filters that give the same file name report the same range. */
  lemma SameFileNameSameRange(p: Period, q: Period)
    requires NonNegative(p) && NonNegative(q) && Resolvable(p) && Resolvable(q)
    requires ExportFileName(p) == ExportFileName(q)
    ensures Effective(p) == Effective(q)
    ensures GetDateRange(p) == GetDateRange(q)
  {
  }

  // ---------------------------------------------------------------------
  // The view model

  /** The figures and lists the screen shows. */
  datatype Reports = Reports(
    totalOrders: int,
    totalOrderAmount: int,
    totalIncome: int,
    totalSpent: int,
    pendingAmount: int,
    netProfit: int,
    orderReports: seq<OrderReport>,
    paymentReports: seq<PaymentReport>,
    expenseReports: seq<ExpenseReport>,
    categoryExpenseReports: seq<ExpenseTotal>,
    personExpenseReports: seq<ExpenseTotal>)

  /** What `LoadDataAsync` shows for a period: the dashboard's figures,
      NetProfit as income less spending, and the five lists. */
  function LoadedReports(db: AppDbContext, p: Period): (r: Reports)
    requires Resolvable(p)
    reads db
    ensures r.netProfit == r.totalIncome - r.totalSpent
  {
    var summary := GetDashboardSummary(db.orders, db.payments, db.dailySpents, p);
    Reports(
      summary.totalOrders, summary.totalOrderAmount, summary.totalReceivedAmount, summary.totalExpenses,
      summary.totalPendingAmount, summary.totalReceivedAmount - summary.totalExpenses,
      GetMonthlyOrderReports(db.clients, db.orders, p),
      GetMonthlyPaymentReports(db.clients, db.orders, db.payments, p),
      GetMonthlyExpenseReports(db.dailySpents, p),
      GetMonthlyCategoryExpenseSummary(db.dailySpents, p),
      GetMonthlyPersonExpenseSummary(db.dailySpents, p))
  }

  /** The screen's NetProfit is the service's Profit, and its lists add up
      to its own totals. */
  lemma LoadedReportsAgree(db: AppDbContext, p: Period)
    requires Resolvable(p)
    ensures var r := LoadedReports(db, p);
      && r.netProfit == GetDashboardSummary(db.orders, db.payments, db.dailySpents, p).profit
      && Seqs.Sum(r.orderReports, OrderRowAmount) == r.totalOrderAmount
      && Seqs.Sum(r.paymentReports, PaymentRowAmount) == r.totalIncome
      && Seqs.Sum(r.expenseReports, ExpenseRowAmount) == r.totalSpent
      && Seqs.Sum(r.categoryExpenseReports, EntryTotal) == r.totalSpent
      && Seqs.Sum(r.personExpenseReports, EntryTotal) == r.totalSpent
  {
  }

  /** The pick lists: months 1-12 and years no earlier than 1. */
  predicate FromPickLists(p: Period) {
    && (p.startYear.Some? ==> p.startYear.value >= 1)
    && (p.startMonth.Some? ==> 1 <= p.startMonth.value <= 12)
    && (p.endYear.Some? ==> p.endYear.value >= 1)
    && (p.endMonth.Some? ==> 1 <= p.endMonth.value <= 12)
  }

  lemma PickListsResolve(p: Period)
    requires FromPickLists(p)
    ensures Resolvable(p) && NonNegative(p)
  {
  }

  class ReportViewModel {
    var fromYear: Option<int>
    var fromMonth: Option<int>
    var toYear: Option<int>
    var toMonth: Option<int>
    var reports: Reports
    var errorMessage: string

    /** The four bounds as the report service takes them. */
    function Bounds(): Period
      reads this
    {
      Period(fromYear, fromMonth, toYear, toMonth)
    }

    /** The constructor's initial load: no bounds, so all time. */
    constructor (db: AppDbContext)
      ensures Bounds() == Period(None, None, None, None)
      ensures errorMessage == ""
      ensures reports == LoadedReports(db, Bounds())
    {
      fromYear, fromMonth, toYear, toMonth := None, None, None, None;
      errorMessage := "";
      reports := LoadedReports(db, Period(None, None, None, None));
    }

    /** `LoadDataAsync`: shows the reports for the current bounds. */
    method LoadData(db: AppDbContext)
      requires Resolvable(Bounds())
      modifies this
      ensures Bounds() == old(Bounds()) && errorMessage == old(errorMessage)
      ensures reports == LoadedReports(db, Bounds())
    {
      reports := LoadedReports(db, Bounds());
    }

    /** `ApplyFilterAsync`: a rejected filter only sets the message; an
        accepted one clears the message and reloads. */
    method ApplyFilter(db: AppDbContext)
      requires FromPickLists(Bounds())
      modifies this
      ensures Bounds() == old(Bounds())
      ensures FilterError(Bounds()).Some? ==>
        errorMessage == FilterError(Bounds()).value && reports == old(reports)
      ensures FilterError(Bounds()).None? ==>
        errorMessage == "" && reports == LoadedReports(db, Bounds())
    {
      ghost var bounds := Bounds();
      PickListsResolve(bounds);
      if fromMonth.Some? && fromYear.None? {
        errorMessage := "Please select a Start Year.";
        assert FilterError(bounds) == Some(errorMessage);
        return;
      }
      if toYear.Some? && fromYear.None? {
        errorMessage := "Please select a Start Year if an End Year is provided.";
        assert FilterError(bounds) == Some(errorMessage);
        return;
      }
      if fromYear.Some? && toYear.Some? {
        if fromYear.value > toYear.value ||
           (fromYear.value == toYear.value && fromMonth.Some? && toMonth.Some? && fromMonth.value > toMonth.value) {
          errorMessage := "Start period cannot be after end period.";
          assert FilterError(bounds) == Some(errorMessage);
          return;
        }
      }
      assert FilterError(bounds).None?;
      errorMessage := "";
      LoadData(db);
    }

    /** `ClearFilterAsync`: drops all four bounds, clears the message and
        reloads, which shows all time. */
    method ClearFilter(db: AppDbContext)
      modifies this
      ensures Bounds() == Period(None, None, None, None)
      ensures GetDateRange(Bounds()) == AllTime
      ensures errorMessage == ""
      ensures reports == LoadedReports(db, Bounds())
    {
      fromMonth, fromYear, toMonth, toYear := None, None, None, None;
      errorMessage := "";
      LoadData(db);
    }

    /** The name the report is saved under. */
    function FileName(): string
      reads this
    {
      ExportFileName(Bounds())
    }
  }
}
