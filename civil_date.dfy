/** Calendar days as the program's JavaScript `Date` objects use them in local
    time: a proleptic Gregorian (year, month, day) triple with a 1-based month.
    `setDate(getDate() + n)` normalises an out-of-range day into the
    neighbouring months; `AddDays` is that normalisation, one day at a time.
    `getDay()` numbers the weekdays from 0 (Sunday) to 6 (Saturday). */
module CivilDate {

  datatype Date = Date(year: int, month: int, day: int)

  predicate IsLeapYear(y: int)
  {
    y % 4 == 0 && (y % 100 != 0 || y % 400 == 0)
  }

  function DaysInMonth(y: int, m: int): (n: int)
    requires 1 <= m <= 12
    ensures 28 <= n <= 31
    ensures n == 29 <==> m == 2 && IsLeapYear(y)
  {
    if m == 2 then (if IsLeapYear(y) then 29 else 28)
    else if m == 4 || m == 6 || m == 9 || m == 11 then 30
    else 31
  }

  predicate Valid(d: Date)
  {
    1 <= d.month <= 12 && 1 <= d.day <= DaysInMonth(d.year, d.month)
  }

  /** Chronological order: year, then month, then day. */
  predicate Before(a: Date, b: Date)
  {
    a.year < b.year
    || (a.year == b.year && a.month < b.month)
    || (a.year == b.year && a.month == b.month && a.day < b.day)
  }

  function NextDay(d: Date): (r: Date)
    requires Valid(d)
    ensures Valid(r) && Before(d, r)
  {
    if d.day < DaysInMonth(d.year, d.month) then Date(d.year, d.month, d.day + 1)
    else if d.month < 12 then Date(d.year, d.month + 1, 1)
    else Date(d.year + 1, 1, 1)
  }

  function PrevDay(d: Date): (r: Date)
    requires Valid(d)
    ensures Valid(r) && Before(r, d)
  {
    if d.day > 1 then Date(d.year, d.month, d.day - 1)
    else if d.month > 1 then Date(d.year, d.month - 1, DaysInMonth(d.year, d.month - 1))
    else Date(d.year - 1, 12, 31)
  }

  /** The next day is the very next valid date: no valid date lies strictly
      between a day and its successor. */
  lemma NextDayIsSuccessor(d: Date, e: Date)
    requires Valid(d) && Valid(e) && Before(d, e)
    ensures e == NextDay(d) || Before(NextDay(d), e)
  {
  }

  /** Stepping forward and back are inverse. */
  lemma NextPrevInverse(d: Date)
    requires Valid(d)
    ensures PrevDay(NextDay(d)) == d && NextDay(PrevDay(d)) == d
  {
  }

  /** `setDate(getDate() + n)` on a copy of `d`: the date `n` days later (or
      `-n` days earlier when `n` is negative). */
  function AddDays(d: Date, n: int): (r: Date)
    requires Valid(d)
    ensures Valid(r)
    ensures n > 0 ==> Before(d, r)
    ensures n < 0 ==> Before(r, d)
    decreases if n < 0 then -n else n
  {
    if n == 0 then d
    else if n > 0 then AddDays(NextDay(d), n - 1)
    else AddDays(PrevDay(d), n + 1)
  }

  /** One more day is the next day of the result. */
  lemma {:induction false} AddDaysStep(d: Date, n: int)
    requires Valid(d)
    ensures AddDays(d, n + 1) == NextDay(AddDays(d, n))
    decreases if n < 0 then -n else n
  {
    if n > 0 {
      AddDaysStep(NextDay(d), n - 1);
    } else if n == -1 {
      NextPrevInverse(d);
    } else if n < -1 {
      AddDaysStep(PrevDay(d), n + 1);
    }
  }

  /** Shifting by `a` and then by `b` is shifting by `a + b`. */
  lemma {:induction false} AddDaysAdd(d: Date, a: int, b: int)
    requires Valid(d)
    ensures AddDays(AddDays(d, a), b) == AddDays(d, a + b)
    decreases if b < 0 then -b else b
  {
    var x := AddDays(d, a);
    if b > 0 {
      AddDaysStep(x, b - 1);
      AddDaysAdd(d, a, b - 1);
      AddDaysStep(d, a + b - 1);
    } else if b < 0 {
      AddDaysStep(x, b);
      AddDaysAdd(d, a, b + 1);
      AddDaysStep(d, a + b);
      NextPrevInverse(AddDays(x, b));
      NextPrevInverse(AddDays(d, a + b));
    }
  }

  /** Inside one month, adding days only moves the day of the month. */
  lemma {:induction false} AddDaysWithinMonth(d: Date, k: nat)
    requires Valid(d) && d.day + k <= DaysInMonth(d.year, d.month)
    ensures AddDays(d, k) == Date(d.year, d.month, d.day + k)
  {
    if k > 0 {
      AddDaysWithinMonth(d, k - 1);
      AddDaysStep(d, k - 1);
    }
  }

  /** `addDays(addDays(d, n), -n)` is `d` again. */
  lemma AddDaysInverse(d: Date, n: int)
    requires Valid(d)
    ensures AddDays(AddDays(d, n), -n) == d
  {
    AddDaysAdd(d, n, -n);
  }

  // ---------------------------------------------------------------------
  // Weekdays

  /** Per-month offsets of Sakamoto's day-of-week formula. */
  function MonthOffset(m: int): int
    requires 1 <= m <= 12
  {
    if m == 1 then 0 else if m == 2 then 3 else if m == 3 then 2
    else if m == 4 then 5 else if m == 5 then 0 else if m == 6 then 3
    else if m == 7 then 5 else if m == 8 then 1 else if m == 9 then 4
    else if m == 10 then 6 else if m == 11 then 2 else 4
  }

  /** The days a year contributes to the weekday, counting leap days. */
  function YearTerm(y: int): int
  {
    y + y / 4 - y / 100 + y / 400
  }

  /** Sakamoto's day count before reduction modulo 7; January and February
      count as months of the previous year. */
  function DayCount(d: Date): int
    requires Valid(d)
  {
    var y := if d.month < 3 then d.year - 1 else d.year;
    YearTerm(y) + MonthOffset(d.month) + d.day
  }

  /** `getDay()`: 0 is Sunday, 1 Monday, ..., 6 Saturday. */
  function Weekday(d: Date): (w: int)
    requires Valid(d)
    ensures 0 <= w < 7
  {
    DayCount(d) % 7
  }

  /** 1 January 1970, the epoch of JavaScript's `Date`, was a Thursday; with
      `WeekdayAddDays` this fixes the weekday of every day. */
  lemma WeekdayOfEpoch()
    ensures Weekday(Date(1970, 1, 1)) == 4
  {
  }

  lemma YearTermStep(y: int)
    ensures YearTerm(y) - YearTerm(y - 1) == if IsLeapYear(y) then 2 else 1
  {
    DivStep(y, 4);
    DivStep(y, 100);
    DivStep(y, 400);
    if y % 400 == 0 {
      MultipleOfMultiple(y, 400, 100);
      MultipleOfMultiple(y, 400, 4);
    } else if y % 100 == 0 {
      MultipleOfMultiple(y, 100, 4);
    }
  }

  /** Stepping from `y - 1` to `y` raises `y / k` exactly at multiples of `k`. */
  lemma DivStep(y: int, k: int)
    requires k == 4 || k == 100 || k == 400
    ensures y / k - (y - 1) / k == if y % k == 0 then 1 else 0
  {
  }

  /** A multiple of `k` is a multiple of every divisor `j` of `k`. */
  lemma MultipleOfMultiple(y: int, k: int, j: int)
    requires (k == 400 && (j == 100 || j == 4)) || (k == 100 && j == 4)
    requires y % k == 0
    ensures y % j == 0
  {
    assert y == k * (y / k);
    assert y == j * ((k / j) * (y / k));
  }

  /** The day count of the next day is one more, up to a multiple of 7. */
  lemma DayCountNext(d: Date)
    requires Valid(d)
    ensures (DayCount(NextDay(d)) - DayCount(d) - 1) % 7 == 0
  {
    var k := DayCount(NextDay(d)) - DayCount(d) - 1;
    if d.day < DaysInMonth(d.year, d.month) {
      DayCountWithinMonth(d);
    } else if d.month == 2 {
      DayCountAfterFebruary(d);
    } else if d.month == 12 {
      DayCountAfterDecember(d);
    } else {
      DayCountAfterMonthEnd(d);
    }
    assert k == 0 || k == -28 || k == -35;
  }

  lemma DayCountWithinMonth(d: Date)
    requires Valid(d) && d.day < DaysInMonth(d.year, d.month)
    ensures DayCount(NextDay(d)) == DayCount(d) + 1
  {
  }

  lemma DayCountAfterDecember(d: Date)
    requires Valid(d) && d.month == 12 && d.day == 31
    ensures DayCount(NextDay(d)) - DayCount(d) - 1 == -35
  {
    assert NextDay(d) == Date(d.year + 1, 1, 1);
  }

  lemma DayCountAfterFebruary(d: Date)
    requires Valid(d) && d.month == 2 && d.day == DaysInMonth(d.year, 2)
    ensures DayCount(NextDay(d)) - DayCount(d) - 1 == -28
  {
    assert NextDay(d) == Date(d.year, 3, 1);
    YearTermStep(d.year);
  }

  lemma DayCountAfterMonthEnd(d: Date)
    requires Valid(d) && d.month != 2 && d.month < 12 && d.day == DaysInMonth(d.year, d.month)
    ensures var k := DayCount(NextDay(d)) - DayCount(d) - 1; k == -28 || k == -35
  {
    assert NextDay(d) == Date(d.year, d.month + 1, 1);
    MonthOffsetStep(d.year, d.month);
  }

  /** From the end of a month other than February and December to the first
      of the next, the offsets drop by 28 or 35. */
  lemma MonthOffsetStep(y: int, m: int)
    requires 1 <= m < 12 && m != 2
    ensures var k := MonthOffset(m + 1) - MonthOffset(m) - DaysInMonth(y, m); k == -28 || k == -35
  {
  }

  lemma Mod7Next(a: int, b: int)
    requires (b - a - 1) % 7 == 0
    ensures b % 7 == (a % 7 + 1) % 7
  {
    var k := (b - a - 1) / 7;
    assert b == a + 1 + 7 * k;
  }

  /** The weekday advances by one with each day, wrapping from Saturday to Sunday. */
  lemma WeekdayNext(d: Date)
    requires Valid(d)
    ensures Weekday(NextDay(d)) == (Weekday(d) + 1) % 7
  {
    DayCountNext(d);
    Mod7Next(DayCount(d), DayCount(NextDay(d)));
  }

  /** `n` days later is `n` weekdays later, modulo 7. */
  lemma {:induction false} WeekdayAddDays(d: Date, n: int)
    requires Valid(d)
    ensures Weekday(AddDays(d, n)) == (Weekday(d) + n) % 7
    decreases if n < 0 then -n else n
  {
    if n > 0 {
      var m := n - 1;
      WeekdayAddDays(d, m);
      WeekdayStepForward(d, m);
    } else if n < 0 {
      var m := n + 1;
      WeekdayAddDays(d, m);
      WeekdayStepBack(d, m);
    }
  }

  lemma WeekdayStepForward(d: Date, n: int)
    requires Valid(d)
    requires Weekday(AddDays(d, n)) == (Weekday(d) + n) % 7
    ensures Weekday(AddDays(d, n + 1)) == (Weekday(d) + n + 1) % 7
  {
    AddDaysStep(d, n);
    WeekdayNext(AddDays(d, n));
    Mod7Succ(Weekday(d) + n, Weekday(AddDays(d, n)), Weekday(AddDays(d, n + 1)));
  }

  lemma WeekdayStepBack(d: Date, n: int)
    requires Valid(d)
    requires Weekday(AddDays(d, n)) == (Weekday(d) + n) % 7
    ensures Weekday(AddDays(d, n - 1)) == (Weekday(d) + n - 1) % 7
  {
    AddDaysStep(d, n - 1);
    WeekdayNext(AddDays(d, n - 1));
    Mod7Pred(Weekday(d) + n - 1, Weekday(AddDays(d, n - 1)), Weekday(AddDays(d, n)));
  }

  lemma Mod7Succ(x: int, a: int, b: int)
    requires a == x % 7 && b == (a + 1) % 7
    ensures b == (x + 1) % 7
  {
  }

  lemma Mod7Pred(x: int, w: int, a: int)
    requires 0 <= w < 7 && a == (w + 1) % 7 && a == (x + 1) % 7
    ensures w == x % 7
  {
  }

  /** Days less than a week apart are different days. */
  lemma WithinAWeekDistinct(d: Date, i: int, j: int)
    requires Valid(d) && 0 <= i < 7 && 0 <= j < 7 && i != j
    ensures AddDays(d, i) != AddDays(d, j)
  {
    var a := AddDays(d, i);
    var b := AddDays(d, j);
    WeekdayAddDays(d, i);
    WeekdayAddDays(d, j);
    Mod7Distinct(Weekday(d), i, j, Weekday(a), Weekday(b));
    SameDateSameWeekday(a, b);
  }

  lemma SameDateSameWeekday(a: Date, b: Date)
    requires Valid(a) && Valid(b) && Weekday(a) != Weekday(b)
    ensures a != b
  {
  }

  lemma Mod7Distinct(w: int, i: int, j: int, a: int, b: int)
    requires 0 <= w < 7 && 0 <= i < 7 && 0 <= j < 7 && i != j
    requires a == (w + i) % 7 && b == (w + j) % 7
    ensures a != b
  {
    assert (w + i) % 7 == if w + i < 7 then w + i else w + i - 7;
    assert (w + j) % 7 == if w + j < 7 then w + j else w + j - 7;
  }
}
