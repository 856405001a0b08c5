/** The dashboard's start page (`app/dashboard/page.tsx`): the greeting, the
    count of confirmed appointments in the schedule card, the upcoming age in
    the birthday list and the today/tomorrow switch of the schedule card. Its
    time formatting, status badge and location label are the calendar's
    (`Calendar.FormatTimeSlot`, `Calendar.StatusVariant`,
    `Calendar.LocationLabel`): the page repeats the same definitions. */
module Dashboard {
  import opened Base
  import opened Text
  import opened Types
  import opened CivilDate
  import Calendar

  // ---------------------------------------------------------------------
  // Greeting

  /** `getGreeting`, for the hour of the local clock. */
  function Greeting(hour: int): (g: string)
    ensures g == "Guten Morgen" <==> hour < 12
    ensures g == "Guten Nachmittag" <==> 12 <= hour < 18
    ensures g == "Guten Abend" <==> 18 <= hour
  {
    if hour < 12 then "Guten Morgen"
    else if hour < 18 then "Guten Nachmittag"
    else "Guten Abend"
  }

  /** Over one day the greeting changes exactly twice: at noon and at six. */
  lemma GreetingChangesTwice(hour: int)
    requires 0 <= hour < 23
    ensures Greeting(hour) != Greeting(hour + 1) <==> hour == 11 || hour == 17
  {
  }

  // ---------------------------------------------------------------------
  // Confirmed count

  function IsConfirmed(item: DailyScheduleItem): bool
  {
    item.status == "confirmed"
  }

  /** `confirmedCount`: the schedule items whose status is `"confirmed"`, and
      0 while the schedule is not loaded. */
  function ConfirmedCount(schedule: Option<seq<DailyScheduleItem>>): (n: nat)
    ensures schedule.None? ==> n == 0
    ensures schedule.Some? ==> n <= |schedule.value|
  {
    match schedule
    case None => 0
    case Some(items) => Count(items, IsConfirmed)
  }

  /** The count is the whole schedule exactly when every item is confirmed,
      and zero exactly when none is. */
  lemma ConfirmedCountExtremes(items: seq<DailyScheduleItem>)
    ensures ConfirmedCount(Some(items)) == |items|
      <==> forall i :: 0 <= i < |items| ==> items[i].status == "confirmed"
    ensures ConfirmedCount(Some(items)) == 0
      <==> forall i :: 0 <= i < |items| ==> items[i].status != "confirmed"
  {
    if forall i :: 0 <= i < |items| ==> IsConfirmed(items[i]) {
      FilterKeepsAll(items, IsConfirmed);
    } else {
      var i :| 0 <= i < |items| && !IsConfirmed(items[i]);
      FilterShorter(items, IsConfirmed, i);
    }
    if forall i :: 0 <= i < |items| ==> !IsConfirmed(items[i]) {
      FilterKeepsNone(items, IsConfirmed);
    } else {
      var i :| 0 <= i < |items| && IsConfirmed(items[i]);
      FilterComplete(items, IsConfirmed);
      assert items[i] in Filter(items, IsConfirmed);
    }
  }

  /** One more schedule item raises the count by one exactly when it is
      confirmed. */
  lemma ConfirmedCountSnoc(items: seq<DailyScheduleItem>, item: DailyScheduleItem)
    ensures ConfirmedCount(Some(items + [item]))
      == ConfirmedCount(Some(items)) + (if item.status == "confirmed" then 1 else 0)
  {
    FilterSnoc(items, item, IsConfirmed);
  }

  // ---------------------------------------------------------------------
  // Upcoming age

  /** `new Date(year, dob.getMonth(), dob.getDate())`: the birthday in `year`.
      The constructor normalises like `setDate`, so 29 February in a year
      without it is 1 March; either way the day is in `year`. */
  function BirthdayIn(year: int, dob: Date): (r: Date)
    requires Valid(dob)
    ensures Valid(r) && r.year == year
  {
    var first := Date(year, dob.month, 1);
    BirthdayInSameYear(first, dob.day - 1);
    AddDays(first, dob.day - 1)
  }

  /** Fewer than 31 days past the first of a month is still in its year. */
  lemma BirthdayInSameYear(first: Date, n: int)
    requires Valid(first) && first.day == 1 && 0 <= n < 31
    ensures AddDays(first, n).year == first.year
  {
    if n <= DaysInMonth(first.year, first.month) - 1 {
      AddDaysWithinMonth(first, n);
    } else {
      var m := DaysInMonth(first.year, first.month);
      var next := Date(first.year, first.month + 1, 1);
      AddDaysWithinMonth(first, m - 1);
      AddDaysStep(first, m - 1);
      assert AddDays(first, m) == next;
      AddDaysWithinMonth(next, n - m);
      AddDaysAdd(first, m, n - m);
    }
  }

  /** The birthday is the same month and day, except that 29 February rolls
      over to 1 March outside leap years. */
  lemma BirthdayInYear(year: int, dob: Date)
    requires Valid(dob)
    ensures BirthdayIn(year, dob) ==
      if dob.month == 2 && dob.day == 29 && !IsLeapYear(year) then Date(year, 3, 1)
      else Date(year, dob.month, dob.day)
  {
    var first := Date(year, dob.month, 1);
    if dob.day <= DaysInMonth(year, dob.month) {
      AddDaysWithinMonth(first, dob.day - 1);
    } else {
      AddDaysWithinMonth(first, 27);
      AddDaysStep(first, 27);
    }
  }

  /** `getAge`: the year difference, one less while this year's birthday is
      still ahead, plus one for the age about to be reached. `today` is the
      local calendar day; a date of birth that does not parse gives `NaN`.
      The result is the age turned at the first birthday strictly after
      today, so on the birthday itself it is one more than the age just
      reached. */
  method GetAge(dob: string, today: Date) returns (age: Num)
    requires Valid(today)
    ensures Calendar.ParseDateISO(dob).None? ==> age == NaN
    ensures Calendar.ParseDateISO(dob).Some? ==>
      var d := Calendar.ParseDateISO(dob).value;
      var years := today.year - d.year;
      && (age == Finite(years + 1) <==> !Before(today, BirthdayIn(today.year, d)))
      && (age == Finite(years) <==> Before(today, BirthdayIn(today.year, d)))
      && age.Finite?
      && Before(today, BirthdayIn(d.year + age.value, d))
      && !Before(today, BirthdayIn(d.year + age.value - 1, d))
      && (today == BirthdayIn(today.year, d) ==> age == Finite(years + 1))
  {
    var parsed := Calendar.ParseDateISO(dob);
    if parsed.None? {
      return NaN;
    }
    var d := parsed.value;
    var years := today.year - d.year;
    var birthday := BirthdayIn(today.year, d);
    if Before(today, birthday) {
      years := years - 1;
    }
    age := Finite(years + 1);
    UpcomingAgeIsNextBirthday(d, today, years + 1);
  }

  /** The upcoming age `n` is the age turned at the first birthday strictly
      after today: that birthday is after today and the one before it is
      not. */
  lemma UpcomingAgeIsNextBirthday(d: Date, today: Date, n: int)
    requires Valid(d) && Valid(today)
    requires n == today.year - d.year + (if Before(today, BirthdayIn(today.year, d)) then 0 else 1)
    ensures Before(today, BirthdayIn(d.year + n, d))
    ensures !Before(today, BirthdayIn(d.year + n - 1, d))
  {
    BirthdayInYear(today.year - 1, d);
    BirthdayInYear(today.year, d);
    BirthdayInYear(today.year + 1, d);
  }

  // ---------------------------------------------------------------------
  // Schedule card

  datatype ScheduleTab = TodayTab | TomorrowTab

  /** What `getDailySchedule` is asked for: nothing, the server's default
      day, or an explicit `YYYY-MM-DD` date. */
  datatype ScheduleRequest = NoRequest | DefaultDay | ForDate(date: string)

  /** The schedule card's state: the selected tab and the loaded schedule
      (`None` while loading). */
  class ScheduleCard {
    var scheduleTab: ScheduleTab
    var schedule: Option<seq<DailyScheduleItem>>

    constructor ()
      ensures scheduleTab == TodayTab && schedule == None
    {
      scheduleTab := TodayTab;
      schedule := None;
    }

    /** `handleTabSwitch`. The request for tomorrow is the UTC calendar day
        after `utcToday`, since the date string comes from `toISOString`.
        A real switch empties the card, so no confirmed count is shown until
        the answer arrives. */
    method SwitchTab(tab: ScheduleTab, utcToday: Date) returns (request: ScheduleRequest)
      requires Valid(utcToday)
      modifies this
      ensures tab == old(scheduleTab) ==>
        request == NoRequest && scheduleTab == old(scheduleTab) && schedule == old(schedule)
      ensures tab != old(scheduleTab) ==>
        scheduleTab == tab && schedule == None && ConfirmedCount(schedule) == 0
        && request == (if tab == TomorrowTab then ForDate(Calendar.FormatDateISO(NextDay(utcToday))) else DefaultDay)
    {
      if tab == scheduleTab {
        return NoRequest;
      }
      scheduleTab := tab;
      schedule := None;
      if tab == TomorrowTab {
        request := ForDate(Calendar.FormatDateISO(AddDays(utcToday, 1)));
        assert AddDays(utcToday, 1) == NextDay(utcToday) by {
          AddDaysStep(utcToday, 0);
        }
      } else {
        request := DefaultDay;
      }
    }

    /** The answer to a request: `.then(setSchedule)`, or an empty schedule
        when the call fails (`.catch(() => setSchedule([]))`). */
    method ScheduleArrived(response: Result<seq<DailyScheduleItem>>)
      modifies this
      ensures schedule == Some(if response.Ok? then response.value else [])
      ensures scheduleTab == old(scheduleTab)
    {
      if response.Ok? {
        schedule := Some(response.value);
      } else {
        schedule := Some([]);
      }
    }
  }
}
