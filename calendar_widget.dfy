/** The month calendar widget: the displayed month, its day grid, today's
    highlight and month-by-month navigation. The widget gets month lengths and
    weekdays from ECMAScript `Date` normalisation; here they come from the
    explicit Gregorian reference. */
module CalendarWidget {
  import Gregorian

  /** A calendar date as `Date` exposes it: full year, month 0..11, day of month. */
  datatype Date = Date(year: int, month: int, day: int)

  predicate ValidDate(d: Date)
  {
    0 <= d.month < 12 && 1 <= d.day <= Gregorian.DaysInMonth(d.year, d.month)
  }

  const MonthNames: seq<string> := ["January", "February", "March", "April", "May", "June",
    "July", "August", "September", "October", "November", "December"]

  /** One cell of the seven-column grid: a leading blank or a day button. */
  datatype Cell = Blank | DayButton(day: int)

  /** `new Date(y, m)` with the year taken as given: a month outside 0..11 is
      carried into the year, and the day is the 1st. */
  function MonthStart(y: int, m: int): (r: Date)
    ensures ValidDate(r) && r.day == 1
    ensures 12 * r.year + r.month == 12 * y + m
  {
    Date(y + m / 12, m % 12, 1)
  }

  /** ECMAScript's MakeFullYear step of the `Date(year, month, …)` constructor:
      a year argument in 0..99 stands for 1900..1999. */
  function ConstructorYear(y: int): (r: int)
    ensures 0 <= y <= 99 ==> r == 1900 + y
    ensures !(0 <= y <= 99) ==> r == y
  {
    if 0 <= y <= 99 then 1900 + y else y
  }

  /** `new Date(y, m)` exactly as the widget calls it, including MakeFullYear. */
  function MonthStartAsWritten(y: int, m: int): (r: Date)
    ensures ValidDate(r) && r.day == 1
    ensures 12 * r.year + r.month == 12 * ConstructorYear(y) + m
  {
    MonthStart(ConstructorYear(y), m)
  }

  /** `previousMonth`: January goes to December of the previous year, any other
      month to the month before; the day resets to the 1st. */
  function PreviousMonthStart(d: Date): (r: Date)
    requires 0 <= d.month < 12
    ensures ValidDate(r) && r.day == 1
    ensures d.month == 0 ==> r.year == d.year - 1 && r.month == 11
    ensures d.month > 0 ==> r.year == d.year && r.month == d.month - 1
  {
    MonthStart(d.year, d.month - 1)
  }

  /** `nextMonth`: December goes to January of the next year, any other month
      to the month after; the day resets to the 1st. */
  function NextMonthStart(d: Date): (r: Date)
    requires 0 <= d.month < 12
    ensures ValidDate(r) && r.day == 1
    ensures d.month == 11 ==> r.year == d.year + 1 && r.month == 0
    ensures d.month < 11 ==> r.year == d.year && r.month == d.month + 1
  {
    MonthStart(d.year, d.month + 1)
  }

  /** Going back a month after going forward, or forward after going back,
      returns to the same year and month. */
  lemma NavigationRoundTrip(d: Date)
    requires 0 <= d.month < 12
    ensures PreviousMonthStart(NextMonthStart(d)) == Date(d.year, d.month, 1)
    ensures NextMonthStart(PreviousMonthStart(d)) == Date(d.year, d.month, 1)
  {
  }

  /** As written, the navigation passes the year through MakeFullYear, so from
      December of year 99 "next" lands in January 2000 and "previous" then
      lands in December 1999, not back in year 99. The month length and the
      first weekday pass the year through the same step: February of year 0
      shows 28 days, though year 0 is a Gregorian leap year, and December 99,
      reached by "previous" from January 100, is drawn with December 1999's
      first weekday (Wednesday) instead of its own (Tuesday). */
  lemma AsWrittenRoundTripFails()
    ensures MonthStartAsWritten(99, 11 + 1) == Date(2000, 0, 1)
    ensures MonthStartAsWritten(2000, 0 - 1) == Date(1999, 11, 1)
    ensures MonthStartAsWritten(99, 11 + 1 - 1) != Date(99, 11, 1)
    ensures MonthStartAsWritten(100, 0 - 1) == Date(99, 11, 1)
    ensures Gregorian.FirstWeekday(ConstructorYear(99), 11) == 3
    ensures Gregorian.FirstWeekday(99, 11) == 2
    ensures Gregorian.DaysInMonth(ConstructorYear(0), 1) == 28
    ensures Gregorian.DaysInMonth(0, 1) == 29
  {
  }

  /** The grid: `blanks` empty cells, then buttons numbered 1..days. */
  function Grid(blanks: nat, days: nat): (cells: seq<Cell>)
    ensures |cells| == blanks + days
    ensures forall i :: 0 <= i < blanks ==> cells[i] == Blank
    ensures forall i :: blanks <= i < |cells| ==> cells[i] == DayButton(i - blanks + 1)
  {
    seq(blanks, _ => Blank) + seq(days, i => DayButton(i + 1))
  }

  /** In the seven-column grid that starts with the month's first weekday as
      blanks, day `d` lands in the column of its real weekday. */
  lemma GridColumnIsWeekday(y: int, m: int, d: int)
    requires 0 <= m < 12 && 1 <= d <= Gregorian.DaysInMonth(y, m)
    ensures (Gregorian.FirstWeekday(y, m) + d - 1) % 7 == Gregorian.Weekday(Gregorian.DaysFromCivil(y, m, d))
  {
    var first := Gregorian.DaysFromCivil(y, m, 1) + 4;
    assert Gregorian.DaysFromCivil(y, m, d) + 4 == first + (d - 1);
    Gregorian.ModShift(first, d - 1);
  }

  /** The widget's state: the date whose month is displayed. */
  class Calendar {
    var current: Date

    ghost predicate Valid()
      reads this
    {
      ValidDate(current)
    }

    /** The widget opens on today's date. */
    constructor (today: Date)
      requires ValidDate(today)
      ensures Valid() && current == today
    {
      current := today;
    }

    /** `daysInMonth`: the length of the displayed month. */
    function DaysInMonth(): (r: int)
      reads this
      requires Valid()
      ensures 28 <= r <= 31
      ensures r == 29 <==> current.month == 1 && Gregorian.IsLeapYear(current.year)
      ensures r == 28 <==> current.month == 1 && !Gregorian.IsLeapYear(current.year)
    {
      Gregorian.DaysInMonth(current.year, current.month)
    }

    /** `firstDayOfMonth`: the weekday (Sunday = 0) of the 1st of the displayed month. */
    function FirstDayOfMonth(): (r: int)
      reads this
      requires Valid()
      ensures 0 <= r <= 6
      ensures (Gregorian.DaysFromCivil(current.year, current.month, 1) + 4 - r) % 7 == 0
    {
      Gregorian.FirstWeekday(current.year, current.month)
    }

    /** The header label: the name of the displayed month. */
    function MonthLabel(): (r: string)
      reads this
      requires Valid()
      ensures r in MonthNames && r == MonthNames[current.month]
    {
      MonthNames[current.month]
    }

    /** The cells under the weekday header row. */
    function Cells(): (cells: seq<Cell>)
      reads this
      requires Valid()
      ensures |cells| == FirstDayOfMonth() + DaysInMonth()
      ensures forall i :: 0 <= i < FirstDayOfMonth() ==> cells[i] == Blank
      ensures forall d :: 1 <= d <= DaysInMonth() ==> cells[FirstDayOfMonth() + d - 1] == DayButton(d)
    {
      Grid(FirstDayOfMonth(), DaysInMonth())
    }

    /** `isToday(day)`: the day is today's date and the displayed month and year are today's. */
    predicate IsToday(day: int, today: Date)
      reads this
      ensures IsToday(day, today) <==> Date(current.year, current.month, day) == today
    {
      day == today.day && current.month == today.month && current.year == today.year
    }

    /** At most one day cell is highlighted, and when today's month is
        displayed, today's cell is. */
    lemma TodayHighlightedOnce(today: Date)
      requires Valid() && ValidDate(today)
      ensures forall d1, d2 :: IsToday(d1, today) && IsToday(d2, today) ==> d1 == d2
      ensures current.year == today.year && current.month == today.month ==>
        1 <= today.day <= DaysInMonth() && IsToday(today.day, today)
    {
    }

    /** `previousMonth`. */
    method PreviousMonth()
      requires Valid()
      modifies this
      ensures Valid()
      ensures current == PreviousMonthStart(old(current))
    {
      current := MonthStart(current.year, current.month - 1);
    }

    /** `nextMonth`. */
    method NextMonth()
      requires Valid()
      modifies this
      ensures Valid()
      ensures current == NextMonthStart(old(current))
    {
      current := MonthStart(current.year, current.month + 1);
    }
  }
}
