/** An explicit proleptic Gregorian calendar: the leap-year rule, month
    lengths and the day of the week. Months are numbered 0..11 and weekdays
    0..6 with Sunday = 0, as ECMAScript's `Date` numbers them. */
module Gregorian {

  /** Every 4th year is a leap year, except centuries, except every 400th year. */
  predicate IsLeapYear(y: int)
  {
    y % 4 == 0 && (y % 100 != 0 || y % 400 == 0)
  }

  /** The number of days in month `m` (0 = January) of year `y`. */
  function DaysInMonth(y: int, m: int): (r: int)
    requires 0 <= m < 12
    ensures 28 <= r <= 31
    ensures r == 29 <==> m == 1 && IsLeapYear(y)
    ensures r == 28 <==> m == 1 && !IsLeapYear(y)
    ensures r == 30 <==> m == 3 || m == 5 || m == 8 || m == 10
  {
    if m == 1 then (if IsLeapYear(y) then 29 else 28)
    else if m == 3 || m == 5 || m == 8 || m == 10 then 30
    else 31
  }

  /** Days from 1970-01-01 to day `d` of month `m` of year `y` (negative before
      1970). Years are counted from March so that the leap day is the last day
      of a counting year; `/` is floor division for the positive divisors here. */
  function DaysFromCivil(y: int, m: int, d: int): int
    requires 0 <= m < 12
  {
    var yy := if m < 2 then y - 1 else y;
    var mp := if m >= 2 then m - 2 else m + 10;
    var doy := (153 * mp + 2) / 5 + d - 1;
    365 * yy + yy / 4 - yy / 100 + yy / 400 + doy - 719468
  }

  /** The civil date of day number `z` (days since 1970-01-01) as (year,
      month 0..11, day): the inverse of `DaysFromCivil`. The day number is
      split into 400-year eras of 146097 days, the year of the era is found
      with its leap days discounted, and the month from the day of the
      March-based year. */
  function CivilFromDays(z: int): (r: (int, int, int))
    ensures 0 <= r.1 < 12 && 1 <= r.2 <= DaysInMonth(r.0, r.1)
    ensures DaysFromCivil(r.0, r.1, r.2) == z
  {
    var zz := z + 719468;
    var era := zz / 146097;
    var doe := zz % 146097;
    YearOfEraBounds(doe);
    var yoe := (doe - doe / 1460 + doe / 36524 - doe / 146096) / 365;
    var doy := doe - (365 * yoe + yoe / 4 - yoe / 100);
    var mp := (5 * doy + 2) / 153;
    var d := doy - (153 * mp + 2) / 5 + 1;
    MonthOfYear(doy);
    var m := if mp < 10 then mp + 2 else mp - 10;
    var y := yoe + 400 * era;
    Assemble(z, era, doe, yoe, doy, mp, d);
    (if m < 2 then y + 1 else y, m, d)
  }

  /** The date `CivilFromDays` assembles from its parts is valid and counts
      back to the day number. */
  lemma Assemble(z: int, era: int, doe: int, yoe: int, doy: int, mp: int, d: int)
    requires z + 719468 == 146097 * era + doe
    requires 0 <= yoe < 400 && doy == doe - (365 * yoe + yoe / 4 - yoe / 100)
    requires 0 <= doy < 366 && (doy == 365 ==> IsLeapYear(yoe + 1))
    requires mp == (5 * doy + 2) / 153 && 0 <= mp < 12 && (153 * mp + 2) / 5 <= doy
    requires d == doy - (153 * mp + 2) / 5 + 1
    ensures var m := if mp < 10 then mp + 2 else mp - 10;
      var y := if m < 2 then yoe + 400 * era + 1 else yoe + 400 * era;
      && 0 <= m < 12 && 1 <= d <= DaysInMonth(y, m)
      && DaysFromCivil(y, m, d) == z
  {
    Reassemble(z, era, doe, yoe, doy, mp, d);
    DayFitsMonth(era, yoe, doy, mp, d);
  }

  /** Within an era, the year found for day `doe` is one of the era's 400 and
      leaves a day of the (March-based) year in 0..365, where day 365 only
      occurs in a year whose February has a leap day. */
  lemma YearOfEraBounds(doe: int)
    requires 0 <= doe < 146097
    ensures var yoe := (doe - doe / 1460 + doe / 36524 - doe / 146096) / 365;
      && 0 <= yoe < 400
      && 0 <= doe - (365 * yoe + yoe / 4 - yoe / 100) < 366
      && (doe - (365 * yoe + yoe / 4 - yoe / 100) == 365 ==> IsLeapYear(yoe + 1))
  {
    if doe < 146096 {
      YearOfCentury(doe, doe / 36524);
    }
  }

  /** `YearOfEraBounds` within century `c` of the era (all but the era's last
      day). Writing the day as `36524c + 1461q + s`, the year of the era is
      `100c + 4q + t` where `t` counts whole years in `s` once a possible
      leap-day carry is removed, and the day of the year is what remains. */
  lemma YearOfCentury(doe: int, c: int)
    requires 0 <= c < 4 && 36524 * c <= doe < 36524 * (c + 1)
    ensures var yoe := (doe - doe / 1460 + doe / 36524 - doe / 146096) / 365;
      && 0 <= yoe < 400
      && 0 <= doe - (365 * yoe + yoe / 4 - yoe / 100) < 366
      && (doe - (365 * yoe + yoe / 4 - yoe / 100) == 365 ==> IsLeapYear(yoe + 1))
  {
    var r := doe - 36524 * c;
    var q, s := r / 1461, r % 1461;
    var carry := if 24 * c + q + s >= 1460 then 1 else 0;
    var t, u := (s - carry) / 365, (s - carry) % 365;
    EraDayParts(doe, c, q, s, carry, t, u);
    YearParts(c, q, t);
    if u + carry == 365 {
      LeapDayYear(doe, c, q, s, carry, t, u);
    }
  }

  /** Day 365 of a counting year (a carried leap day with a full 364 days
      before it) only happens in the last year of a four-year block that does
      not end a century. */
  lemma LeapDayYear(doe: int, c: int, q: int, s: int, carry: int, t: int, u: int)
    requires 0 <= c < 4 && 0 <= s < 1461 && doe == 36524 * c + 1461 * q + s
    requires doe < 36524 * (c + 1) && 0 <= q <= 24
    requires carry == (if 24 * c + q + s >= 1460 then 1 else 0)
    requires s - carry == 365 * t + u && 0 <= u < 365 && 0 <= t <= 3
    requires u + carry == 365
    ensures t == 3 && q <= 23
    ensures IsLeapYear(100 * c + 4 * q + t + 1)
  {
    assert t == 3 && q <= 23;
    var next := 100 * c + 4 * q + 4;
    ModUnique(next, 4, 25 * c + q + 1, 0);
    ModUnique(next, 100, c, 4 * q + 4);
  }

  /** The March-based month of day `doy` of a counting year, and the day
      within it: the month starts no later than the day, and the next month
      starts after it. */
  lemma MonthOfYear(doy: int)
    requires 0 <= doy < 366
    ensures var mp := (5 * doy + 2) / 153;
      && 0 <= mp < 12
      && (153 * mp + 2) / 5 <= doy < (153 * mp + 2) / 5 + 31
  {
    var mp := (5 * doy + 2) / 153;
    assert 153 * mp <= 5 * doy + 2 < 153 * mp + 153;
  }

  /** The parts `CivilFromDays` splits a day number into count the same days
      again under `DaysFromCivil`. */
  lemma Reassemble(z: int, era: int, doe: int, yoe: int, doy: int, mp: int, d: int)
    requires z + 719468 == 146097 * era + doe
    requires 0 <= yoe < 400 && doy == doe - (365 * yoe + yoe / 4 - yoe / 100)
    requires 0 <= mp < 12 && d == doy - (153 * mp + 2) / 5 + 1
    ensures var m := if mp < 10 then mp + 2 else mp - 10;
      var y := yoe + 400 * era;
      DaysFromCivil(if m < 2 then y + 1 else y, m, d) == z
  {
    EraShift(yoe, era);
  }

  /** The day `CivilFromDays` finds lies within its month: for all months but
      February by the March-based month table, and for February because day
      365 of a counting year only occurs before a leap year's March. */
  lemma DayFitsMonth(era: int, yoe: int, doy: int, mp: int, d: int)
    requires 0 <= yoe < 400 && 0 <= doy < 366 && (doy == 365 ==> IsLeapYear(yoe + 1))
    requires mp == (5 * doy + 2) / 153 && 0 <= mp < 12 && (153 * mp + 2) / 5 <= doy
    requires d == doy - (153 * mp + 2) / 5 + 1
    ensures var m := if mp < 10 then mp + 2 else mp - 10;
      var y := yoe + 400 * era;
      d <= DaysInMonth(if m < 2 then y + 1 else y, m)
  {
    if mp < 11 {
      assert 5 * doy + 2 < 153 * (mp + 1);
      assert doy < (153 * (mp + 1) + 2) / 5;
      MarchBasedMonthLength(mp);
    } else if doy == 365 {
      LeapShift(yoe + 1, era);
    }
  }

  /** The leap rule repeats every 400 years. */
  lemma LeapShift(k: int, era: int)
    ensures IsLeapYear(k + 400 * era) <==> IsLeapYear(k)
  {
    var a := k + 400 * era;
    ModUnique(a, 4, k / 4 + 100 * era, k % 4);
    ModUnique(a, 100, k / 100 + 4 * era, k % 100);
    ModUnique(a, 400, k / 400 + era, k % 400);
  }

  /** Day `doe = 36524c + 1461q + s` of an era, with `s` split into `t` years
      of 365 days and `u` days once a leap-day carry is removed: the leap-day
      corrections subtract `25c + q + carry`, add `c` and subtract nothing. */
  lemma EraDayParts(doe: int, c: int, q: int, s: int, carry: int, t: int, u: int)
    requires 0 <= c < 4 && 0 <= s < 1461 && doe == 36524 * c + 1461 * q + s
    requires 36524 * c <= doe < 36524 * (c + 1)
    requires carry == (if 24 * c + q + s >= 1460 then 1 else 0)
    requires s - carry == 365 * t + u && 0 <= u < 365
    ensures 0 <= q <= 24 && 0 <= t <= 3
    ensures (doe - doe / 1460 + doe / 36524 - doe / 146096) / 365 == 100 * c + 4 * q + t
    ensures doe - doe / 1460 + doe / 36524 - doe / 146096 == 365 * (100 * c + 4 * q + t) + u
    ensures u + carry < 366
    ensures doe == 365 * (100 * c + 4 * q + t) + u + 24 * c + q + carry
  {
    assert 0 <= q <= 24;
    assert doe == 1460 * (25 * c + q + carry) + (24 * c + q + s - 1460 * carry);
    assert doe / 1460 == 25 * c + q + carry;
    assert doe / 36524 == c;
    assert doe / 146096 == 0;
    var n := doe - doe / 1460 + doe / 36524 - doe / 146096;
    assert n == 365 * (100 * c + 4 * q + t) + u;
  }

  /** Year `100c + 4q + t` of an era, with `t < 4` and `4q + t < 100`, has
      `25c + q` multiples of 4 and `c` multiples of 100 before it. */
  lemma YearParts(c: int, q: int, t: int)
    requires 0 <= c < 4 && 0 <= q <= 24 && 0 <= t <= 3
    ensures var yoe := 100 * c + 4 * q + t;
      yoe / 4 == 25 * c + q && yoe / 100 == c
  {
    var yoe := 100 * c + 4 * q + t;
    assert yoe == 4 * (25 * c + q) + t;
    assert yoe == 100 * c + (4 * q + t);
  }

  /** Whole eras add whole multiples to the leap-day counts. */
  lemma EraShift(yoe: int, era: int)
    requires 0 <= yoe < 400
    ensures (yoe + 400 * era) / 4 == yoe / 4 + 100 * era
    ensures (yoe + 400 * era) / 100 == yoe / 100 + 4 * era
    ensures (yoe + 400 * era) / 400 == era
  {
  }

  /** The weekday of a day number, with Sunday = 0; day 0 (1970-01-01) was a Thursday. */
  function Weekday(days: int): (r: int)
    ensures 0 <= r < 7
    ensures (days + 4 - r) % 7 == 0
  {
    (days + 4) % 7
  }

  /** The weekday of the first day of month `m` of year `y`. */
  function FirstWeekday(y: int, m: int): (r: int)
    requires 0 <= m < 12
    ensures 0 <= r < 7
  {
    Weekday(DaysFromCivil(y, m, 1))
  }

  /** The month that follows month `m` of year `y`, as (year, month). */
  function FollowingMonth(y: int, m: int): (r: (int, int))
    requires 0 <= m < 12
    ensures 0 <= r.1 < 12
    ensures m < 11 ==> r == (y, m + 1)
    ensures m == 11 ==> r == (y + 1, 0)
  {
    if m == 11 then (y + 1, 0) else (y, m + 1)
  }

  /** 1970-01-01 is day 0, a Thursday. */
  lemma EpochAnchor()
    ensures DaysFromCivil(1970, 0, 1) == 0
    ensures Weekday(DaysFromCivil(1970, 0, 1)) == 4
  {
  }

  /** Counting multiples of `k`: going from `y - 1` to `y` passes one more
      multiple exactly when `y` is one. */
  lemma FloorStep(y: int, k: int)
    requires k == 4 || k == 100 || k == 400
    ensures y / k - (y - 1) / k == if y % k == 0 then 1 else 0
  {
    if k == 4 {
      assert y - 1 == 4 * (y / 4) + (y % 4 - 1);
    } else if k == 100 {
      assert y - 1 == 100 * (y / 100) + (y % 100 - 1);
    } else {
      assert y - 1 == 400 * (y / 400) + (y % 400 - 1);
    }
  }

  /** Centuries are multiples of 4, and multiples of 400 are centuries. */
  lemma DivisorChain(y: int)
    ensures y % 100 == 0 ==> y % 4 == 0
    ensures y % 400 == 0 ==> y % 100 == 0
  {
    if y % 100 == 0 {
      ModUnique(y, 4, 25 * (y / 100), 0);
    }
    if y % 400 == 0 {
      ModUnique(y, 100, 4 * (y / 400), 0);
    }
  }

  /** The day count of the first of the following month exceeds that of the
      first of this month by exactly the length of this month: the day counting
      and the month-length table describe the same calendar. */
  lemma {:induction false} MonthLengthsAgree(y: int, m: int)
    requires 0 <= m < 12
    ensures var (ny, nm) := FollowingMonth(y, m);
      DaysFromCivil(ny, nm, 1) - DaysFromCivil(y, m, 1) == DaysInMonth(y, m)
  {
    if m == 1 {
      FebruaryLength(y);
    } else {
      var (ny, nm) := FollowingMonth(y, m);
      var mp := if m >= 2 then m - 2 else m + 10;
      assert (if nm >= 2 then nm - 2 else nm + 10) == mp + 1;
      assert (if nm < 2 then ny - 1 else ny) == (if m < 2 then y - 1 else y);
      assert DaysInMonth(y, m) == if mp == 1 || mp == 3 || mp == 6 || mp == 8 then 30 else 31;
      assert DaysFromCivil(ny, nm, 1) - DaysFromCivil(y, m, 1) == (153 * (mp + 1) + 2) / 5 - (153 * mp + 2) / 5;
      MarchBasedMonthLength(mp);
    }
  }

  /** February: from 1 February to 1 March of the same year there are 28
      days plus one for each of the leap rule's multiples that `y` is. */
  lemma FebruaryLength(y: int)
    ensures DaysFromCivil(y, 2, 1) - DaysFromCivil(y, 1, 1) == DaysInMonth(y, 1)
  {
    FloorStep(y, 4);
    FloorStep(y, 100);
    FloorStep(y, 400);
    DivisorChain(y);
    assert DaysFromCivil(y, 2, 1) - DaysFromCivil(y, 1, 1)
        == 28 + (y / 4 - (y - 1) / 4) - (y / 100 - (y - 1) / 100) + (y / 400 - (y - 1) / 400);
  }

  /** In the March-based count, month `mp` (0 = March) lasts 30 days for
      April, June, September and November and 31 days otherwise. */
  lemma MarchBasedMonthLength(mp: int)
    requires 0 <= mp < 11
    ensures (153 * (mp + 1) + 2) / 5 - (153 * mp + 2) / 5 == if mp == 1 || mp == 3 || mp == 6 || mp == 8 then 30 else 31
  {
  }

  /** The first weekday of the following month is this month's first weekday
      advanced by the length of this month. */
  lemma {:induction false} FirstWeekdayAdvances(y: int, m: int)
    requires 0 <= m < 12
    ensures var (ny, nm) := FollowingMonth(y, m);
      FirstWeekday(ny, nm) == (FirstWeekday(y, m) + DaysInMonth(y, m)) % 7
  {
    var (ny, nm) := FollowingMonth(y, m);
    MonthLengthsAgree(y, m);
    WeekdayShift(DaysFromCivil(y, m, 1), DaysInMonth(y, m));
  }

  /** The day count of the 1st of month number `n`, counting months as
      12 · year + month. */
  function MonthIndexStart(n: int): int
  {
    DaysFromCivil(n / 12, n % 12, 1)
  }

  /** The next month number starts one month length later. */
  lemma MonthIndexStep(n: int)
    ensures MonthIndexStart(n + 1) == MonthIndexStart(n) + DaysInMonth(n / 12, n % 12)
  {
    MonthLengthsAgree(n / 12, n % 12);
    if n % 12 < 11 {
      ModUnique(n + 1, 12, n / 12, n % 12 + 1);
    } else {
      ModUnique(n + 1, 12, n / 12 + 1, 0);
    }
  }

  /** Month starts increase: every later month starts no earlier than the end
      of month `n1`. */
  lemma {:induction false} MonthStartsIncrease(n1: int, n2: int)
    requires n1 < n2
    ensures MonthIndexStart(n1 + 1) <= MonthIndexStart(n2)
    decreases n2 - n1
  {
    if n1 + 1 < n2 {
      MonthStartsIncrease(n1 + 1, n2);
      MonthIndexStep(n1 + 1);
    }
  }

  /** Valid dates with the same day count are the same date. */
  lemma DaysFromCivilInjective(y1: int, m1: int, d1: int, y2: int, m2: int, d2: int)
    requires 0 <= m1 < 12 && 1 <= d1 <= DaysInMonth(y1, m1)
    requires 0 <= m2 < 12 && 1 <= d2 <= DaysInMonth(y2, m2)
    requires DaysFromCivil(y1, m1, d1) == DaysFromCivil(y2, m2, d2)
    ensures y1 == y2 && m1 == m2 && d1 == d2
  {
    var n1, n2 := 12 * y1 + m1, 12 * y2 + m2;
    DateInMonth(y1, m1, d1, n1);
    DateInMonth(y2, m2, d2, n2);
    SameMonth(n1, n2, d1, d2);
  }

  /** Day `d` of month `m` of year `y` is `d - 1` days after the start of
      month number `12y + m`. */
  lemma DateInMonth(y: int, m: int, d: int, n: int)
    requires 0 <= m < 12 && n == 12 * y + m
    ensures n / 12 == y && n % 12 == m
    ensures DaysFromCivil(y, m, d) == MonthIndexStart(n) + d - 1
  {
    ModUnique(n, 12, y, m);
  }

  /** Days inside two months that fall on the same day count lie in the same month. */
  lemma SameMonth(n1: int, n2: int, d1: int, d2: int)
    requires 1 <= d1 <= DaysInMonth(n1 / 12, n1 % 12) && 1 <= d2 <= DaysInMonth(n2 / 12, n2 % 12)
    requires MonthIndexStart(n1) + d1 == MonthIndexStart(n2) + d2
    ensures n1 == n2 && d1 == d2
  {
    MonthIndexStep(n1);
    MonthIndexStep(n2);
    if n1 < n2 {
      MonthStartsIncrease(n1, n2);
    } else if n2 < n1 {
      MonthStartsIncrease(n2, n1);
    }
  }

  /** `CivilFromDays` recovers every valid date from its day count. */
  lemma CivilRoundTrip(y: int, m: int, d: int)
    requires 0 <= m < 12 && 1 <= d <= DaysInMonth(y, m)
    ensures CivilFromDays(DaysFromCivil(y, m, d)) == (y, m, d)
  {
    var r := CivilFromDays(DaysFromCivil(y, m, d));
    DaysFromCivilInjective(r.0, r.1, r.2, y, m, d);
  }

  /** `n` days later the weekday has advanced by `n`, modulo 7. */
  lemma WeekdayShift(days: int, n: int)
    ensures Weekday(days + n) == (Weekday(days) + n) % 7
  {
    ModShift(days + 4, n);
  }

  /** Adding `n` days commutes with reducing modulo 7. */
  lemma ModShift(d: int, n: int)
    ensures (d + n) % 7 == (d % 7 + n) % 7
  {
    var q, r := d / 7, d % 7;
    var q2, r2 := (r + n) / 7, (r + n) % 7;
    assert d + n == 7 * (q + q2) + r2;
    ModUnique(d + n, 7, q + q2, r2);
  }

  /** Euclidean division by a positive constant has one quotient and one remainder. */
  lemma ModUnique(a: int, m: int, q: int, r: int)
    requires m == 4 || m == 7 || m == 12 || m == 100 || m == 400
    requires a == m * q + r && 0 <= r < m
    ensures a / m == q && a % m == r
  {
    if m == 4 {
      assert a == 4 * q + r;
    } else if m == 7 {
      assert a == 7 * q + r;
    } else if m == 12 {
      assert a == 12 * q + r;
    } else if m == 100 {
      assert a == 100 * q + r;
    } else {
      assert a == 400 * q + r;
    }
  }
}
