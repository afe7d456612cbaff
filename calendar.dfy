/** The part of .NET `DateTime` the reports use: proleptic Gregorian dates
    with a time of day, their ordering, `AddMonths` and `AddDays(-1)`. */
module Calendar {
  import Sorting

  /** 100-nanosecond ticks in one day. */
  const TicksPerDay: int := 864_000_000_000

  /** A calendar date and a time of day in ticks since midnight. */
  datatype DateTime = DateTime(year: int, month: int, day: int, ticks: int)

  predicate IsLeapYear(year: int) {
    year % 4 == 0 && (year % 100 != 0 || year % 400 == 0)
  }

  /** `DateTime.DaysInMonth`. */
  function DaysInMonth(year: int, month: int): (n: int)
    requires 1 <= month <= 12
    ensures 28 <= n <= 31
    ensures n == 31 <==> month in {1, 3, 5, 7, 8, 10, 12}
    ensures n == 29 <==> month == 2 && IsLeapYear(year)
    ensures n == 28 <==> month == 2 && !IsLeapYear(year)
  {
    if month == 2 then (if IsLeapYear(year) then 29 else 28)
    else if month in {4, 6, 9, 11} then 30
    else 31
  }

  /** A representable date: month 1-12, a day that month has, a time within the day. */
  predicate Valid(d: DateTime) {
    && d.year >= 1
    && 1 <= d.month <= 12
    && 1 <= d.day <= DaysInMonth(d.year, d.month)
    && 0 <= d.ticks < TicksPerDay
  }

  /** Midnight at the start of the given day (`new DateTime(y, m, d)`). */
  function Midnight(year: int, month: int, day: int): DateTime {
    DateTime(year, month, day, 0)
  }

  /** Chronological order: `a <= b` on `DateTime`. */
  predicate Le(a: DateTime, b: DateTime) {
    || a.year < b.year
    || (a.year == b.year && a.month < b.month)
    || (a.year == b.year && a.month == b.month && a.day < b.day)
    || (a.year == b.year && a.month == b.month && a.day == b.day && a.ticks <= b.ticks)
  }

  /** Reverse chronological order, for `OrderByDescending` on a date. */
  predicate Ge(a: DateTime, b: DateTime) {
    Le(b, a)
  }

  /** `d.AddMonths(n)`: the same day in the month `n` months on, clamped to
      that month's last day; the time of day is kept. */
  function AddMonths(d: DateTime, n: int): (r: DateTime)
    requires Valid(d)
    requires d.year + ((d.month - 1) + n) / 12 >= 1
    ensures Valid(r)
    ensures r.year * 12 + r.month == d.year * 12 + d.month + n
    ensures r.day == if d.day <= DaysInMonth(r.year, r.month) then d.day else DaysInMonth(r.year, r.month)
    ensures r.ticks == d.ticks
  {
    var total := (d.month - 1) + n;
    var year := d.year + total / 12;
    var month := total % 12 + 1;
    var last := DaysInMonth(year, month);
    DateTime(year, month, if d.day <= last then d.day else last, d.ticks)
  }

  /** Whether two moments fall on the same calendar day. */
  predicate SameDay(a: DateTime, b: DateTime) {
    a.year == b.year && a.month == b.month && a.day == b.day
  }

  /** `d.AddDays(-1)`: the day before, at the same time of day. */
  function PreviousDay(d: DateTime): (r: DateTime)
    requires Valid(d)
    requires !(d.year == 1 && d.month == 1 && d.day == 1)
    ensures Valid(r)
    ensures r.ticks == d.ticks
    ensures Le(r, d) && !SameDay(r, d)
    ensures forall e :: Valid(e) && Le(r, e) && Le(e, d) ==> SameDay(e, r) || SameDay(e, d)
  {
    if d.day > 1 then d.(day := d.day - 1)
    else if d.month > 1 then DateTime(d.year, d.month - 1, DaysInMonth(d.year, d.month - 1), d.ticks)
    else DateTime(d.year - 1, 12, 31, d.ticks)
  }

  /** The first of the next month, minus one day, is the month's last day. */
  lemma LastDayOfMonth(year: int, month: int)
    requires year >= 1 && 1 <= month <= 12
    ensures Valid(Midnight(year, month, 1))
    ensures PreviousDay(AddMonths(Midnight(year, month, 1), 1)) == Midnight(year, month, DaysInMonth(year, month))
  {
    var next := AddMonths(Midnight(year, month, 1), 1);
    if month == 12 {
      assert month / 12 == 1 && month % 12 == 0;
      assert next == DateTime(year + 1, 1, 1, 0);
      assert PreviousDay(next) == DateTime(year, 12, 31, 0);
    } else {
      assert month / 12 == 0 && month % 12 == month;
      assert next == DateTime(year, month + 1, 1, 0);
      assert PreviousDay(next) == DateTime(year, month, DaysInMonth(year, month), 0);
    }
  }

  /** `Le` is a total order on dates. */
  lemma LeTotalOrder(a: DateTime, b: DateTime, c: DateTime)
    ensures Le(a, b) || Le(b, a)
    ensures Le(a, b) && Le(b, a) ==> a == b
    ensures Le(a, b) && Le(b, c) ==> Le(a, c)
  {
  }

  /** Chronological order and its reverse are valid sort orders. */
  lemma OrderingsAreTotalPreorders()
    ensures Sorting.TotalPreorder(Le)
    ensures Sorting.TotalPreorder(Ge)
  {
  }
}
