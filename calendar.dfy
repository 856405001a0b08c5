/** The dashboard calendar (`app/dashboard/kalender/page.tsx`): its date and
    time helpers, the badge and colour tables, the per-date grouping, the
    day and week loads, and the page state moved by the navigation buttons. */
module Calendar {
  import opened Base
  import opened Text
  import opened CivilDate
  import opened Types

  // ---------------------------------------------------------------------
  // Times and dates as strings

  /** `timeToMinutes`: `const [h, m] = time.split(':').map(Number)` then
      `h * 60 + m`. A missing minutes field is `undefined`, which makes the
      sum NaN. The booking wizard parses its times with the same expression. */
  function TimeToMinutes(time: string): (n: Num)
    ensures n.Finite? ==> n.value >= 0
    ensures ':' !in time ==> n == NaN
  {
    var f := Split(time, ':');
    assert ':' !in time ==> |f| == 1 by {
      if ':' !in time {
        SplitWithoutSeparator(time, ':');
      }
    }
    var h := ToNumber(f[0]);
    var m := if |f| >= 2 then ToNumber(f[1]) else NaN;
    Plus(Times(h, 60), m)
  }

  lemma NoColonInDigits(s: string)
    requires AllDigits(s)
    ensures ':' !in s
  {
    assert forall i :: 0 <= i < |s| ==> s[i] != ':';
  }

  /** The first two `:` fields of `"HH:MM"` or `"HH:MM:..."`. */
  lemma SplitClock(hh: string, mm: string, rest: string)
    requires AllDigits(hh) && AllDigits(mm)
    requires rest == [] || rest[0] == ':'
    ensures var f := Split(hh + ":" + mm + rest, ':'); |f| >= 2 && f[0] == hh && f[1] == mm
  {
    NoColonInDigits(hh);
    NoColonInDigits(mm);
    assert hh + ":" + mm + rest == hh + [':'] + (mm + rest);
    SplitAtFirstSeparator(hh, ':', mm + rest);
    if rest == [] {
      assert mm + rest == mm;
      SplitWithoutSeparator(mm, ':');
    } else {
      assert mm + rest == mm + [':'] + rest[1..];
      SplitAtFirstSeparator(mm, ':', rest[1..]);
    }
  }

  /** `"HH:MM"` and `"HH:MM:SS"` (any digit fields, any trailing `:` fields)
      give `60 * HH + MM`. */
  lemma TimeToMinutesOfClock(hh: string, mm: string, rest: string)
    requires AllDigits(hh) && AllDigits(mm)
    requires rest == [] || rest[0] == ':'
    ensures TimeToMinutes(hh + ":" + mm + rest) == Finite(60 * DigitsValue(hh) + DigitsValue(mm))
  {
    var s := hh + ":" + mm + rest;
    SplitClock(hh, mm, rest);
    TimeToMinutesOfFields(s, hh, mm);
  }

  lemma TimeToMinutesOfFields(s: string, hh: string, mm: string)
    requires AllDigits(hh) && AllDigits(mm)
    requires var f := Split(s, ':'); |f| >= 2 && f[0] == hh && f[1] == mm
    ensures TimeToMinutes(s) == Finite(60 * DigitsValue(hh) + DigitsValue(mm))
  {
    var h, m := ToNumber(hh), ToNumber(mm);
    assert TimeToMinutes(s) == Plus(Times(h, 60), m);
    ClockSum(h, m, DigitsValue(hh), DigitsValue(mm));
  }

  lemma ClockSum(h: Num, m: Num, x: int, y: int)
    requires h == Finite(x) && m == Finite(y)
    ensures Plus(Times(h, 60), m) == Finite(60 * x + y)
  {
  }

  /** `formatTimeSlot` (`time.slice(0, 5)`): the clock time without seconds.
      The dashboard home page and the portal's `formatTime` use the same slice. */
  function FormatTimeSlot(time: string): (r: string)
    ensures |r| <= 5 && |r| <= |time| && r == time[..|r|]
    ensures |time| >= 5 ==> |r| == 5
  {
    Take(time, 5)
  }

  /** Seconds and anything after them are dropped: `"HH:MM:SS"` and
      `"HH:MM"` show the same. */
  lemma FormatTimeSlotDropsSeconds(hhmm: string, rest: string)
    requires |hhmm| == 5
    ensures FormatTimeSlot(hhmm + rest) == hhmm == FormatTimeSlot(hhmm)
  {
    assert (hhmm + rest)[..5] == hhmm;
  }

  /** `formatDateISO`: `${y}-${m}-${day}` with the 1-based month and the day
      padded to two digits. */
  function FormatDateISO(d: Date): (r: string)
    requires Valid(d)
    ensures |r| >= 7
  {
    IntToString(d.year) + "-" + TwoDigits(d.month) + "-" + TwoDigits(d.day)
  }

  /** The ISO string is the year as `String(y)`, a dash, exactly two digits
      with the value of the 1-based month, a dash and exactly two digits with
      the value of the day. */
  lemma FormatDateISOFields(d: Date)
    requires Valid(d)
    ensures var r := FormatDateISO(d);
      && r[|r| - 6] == '-' && r[|r| - 3] == '-'
      && r[..|r| - 6] == IntToString(d.year)
      && |r[|r| - 5..|r| - 3]| == 2 && AllDigits(r[|r| - 5..|r| - 3])
      && DigitsValue(r[|r| - 5..|r| - 3]) == d.month
      && |r[|r| - 2..]| == 2 && AllDigits(r[|r| - 2..])
      && DigitsValue(r[|r| - 2..]) == d.day
  {
    var y, mm, dd := IntToString(d.year), TwoDigits(d.month), TwoDigits(d.day);
    DashedFields(FormatDateISO(d), y, mm, dd, d.month, d.day);
  }

  /** The three parts of `${y}-${m}-${d}` with two-digit `m` and `d` sit at
      fixed distances from the end. */
  lemma DashedFields(r: string, y: string, mm: string, dd: string, m: int, day: int)
    requires r == y + "-" + mm + "-" + dd
    requires |mm| == 2 && AllDigits(mm) && DigitsValue(mm) == m
    requires |dd| == 2 && AllDigits(dd) && DigitsValue(dd) == day
    ensures && r[|r| - 6] == '-' && r[|r| - 3] == '-'
      && r[..|r| - 6] == y
      && |r[|r| - 5..|r| - 3]| == 2 && AllDigits(r[|r| - 5..|r| - 3])
      && DigitsValue(r[|r| - 5..|r| - 3]) == m
      && |r[|r| - 2..]| == 2 && AllDigits(r[|r| - 2..])
      && DigitsValue(r[|r| - 2..]) == day
  {
    assert r[|r| - 5..|r| - 3] == mm && r[|r| - 2..] == dd;
  }

  /** Different days have different ISO strings, so the string is a key for
      the day. */
  lemma FormatDateISOInjective(a: Date, b: Date)
    requires Valid(a) && Valid(b)
    ensures FormatDateISO(a) == FormatDateISO(b) <==> a == b
  {
    if FormatDateISO(a) == FormatDateISO(b) {
      FormatDateISOFields(a);
      FormatDateISOFields(b);
      IntToStringInjective(a.year, b.year);
    }
  }

  /** The value of a date input, `YYYY-MM-DD`, as `new Date(value + 'T12:00:00')`
      reads it: four year digits, two month digits and two day digits naming
      an existing day. */
  function ParseDateISO(s: string): (r: Option<Date>)
    ensures r.Some? ==> Valid(r.value)
  {
    if |s| == 10 && s[4] == '-' && s[7] == '-'
       && AllDigits(s[..4]) && AllDigits(s[5..7]) && AllDigits(s[8..]) then
      var d := Date(DigitsValue(s[..4]), DigitsValue(s[5..7]), DigitsValue(s[8..]));
      if Valid(d) then Some(d) else None
    else None
  }

  lemma {:induction false} NatToStringLength(n: nat)
    ensures 1000 <= n < 10000 ==> |NatToString(n)| == 4
    ensures 100 <= n < 1000 ==> |NatToString(n)| == 3
    ensures 10 <= n < 100 ==> |NatToString(n)| == 2
  {
    if n >= 10 {
      NatToStringLength(n / 10);
    }
  }

  /** Picking the day shown in the date input selects that day again (for
      four-digit years). */
  lemma ParseFormatDateISO(d: Date)
    requires Valid(d) && 1000 <= d.year <= 9999
    ensures ParseDateISO(FormatDateISO(d)) == Some(d)
  {
    NatToStringLength(d.year);
    FormatDateISOFields(d);
    var s := FormatDateISO(d);
    assert |s| == 10;
  }

  // ---------------------------------------------------------------------
  // Weeks

  /** How many days `d` lies after the Monday of its week. */
  function DaysSinceMonday(d: Date): (k: int)
    requires Valid(d)
    ensures 0 <= k < 7
  {
    (Weekday(d) + 6) % 7
  }

  /** The `diff` of `getWeekStart` for weekday `w` moves to Monday, and undoing
      it is the distance from Monday. */
  lemma WeekStartDiff(w: int, diff: int)
    requires 0 <= w < 7 && diff == if w == 0 then -6 else 1 - w
    ensures (w + diff) % 7 == 1 && -diff == (w + 6) % 7
  {
  }

  /** `getWeekStart`: `getDay()` 0 (Sunday) goes back 6 days, any other
      weekday `day` goes back `day - 1` days. The result is the Monday on or
      before `d`, at most six days earlier. */
  function WeekStart(d: Date): (r: Date)
    requires Valid(d)
    ensures Valid(r) && Weekday(r) == 1
    ensures AddDays(r, DaysSinceMonday(d)) == d
  {
    var day := Weekday(d);
    var diff := if day == 0 then -6 else 1 - day;
    MondayOnOrBefore(d, diff);
    AddDays(d, diff)
  }

  /** Going back by `getWeekStart`'s difference lands on a Monday, which
      `DaysSinceMonday(d)` days lead back to `d`. */
  lemma MondayOnOrBefore(d: Date, diff: int)
    requires Valid(d)
    requires diff == if Weekday(d) == 0 then -6 else 1 - Weekday(d)
    ensures Valid(AddDays(d, diff)) && Weekday(AddDays(d, diff)) == 1
    ensures AddDays(AddDays(d, diff), DaysSinceMonday(d)) == d
  {
    WeekdayAddDays(d, diff);
    WeekStartDiff(Weekday(d), diff);
    assert DaysSinceMonday(d) == -diff;
    AddDaysInverse(d, diff);
  }

  lemma MondayDistance(k: int)
    requires 0 <= k < 7
    ensures ((1 + k) % 7 + 6) % 7 == k
  {
  }

  /** The Monday at most six days before `d` is unique. */
  lemma WeekStartUnique(d: Date, m: Date, k: int)
    requires Valid(d) && Valid(m) && Weekday(m) == 1
    requires 0 <= k < 7 && AddDays(m, k) == d
    ensures m == WeekStart(d) && k == DaysSinceMonday(d)
  {
    WeekdayAddDays(m, k);
    assert Weekday(d) == (1 + k) % 7;
    MondayDistance(k);
    assert DaysSinceMonday(d) == k;
    var w := WeekStart(d);
    assert AddDays(w, k) == d;
    AddDaysInverse(m, k);
    AddDaysInverse(w, k);
  }

  /** All seven days of a week have the same week start; in particular the
      week start of a Monday is that Monday. */
  lemma WeekStartOfWeekDay(d: Date, i: int)
    requires Valid(d) && 0 <= i < 7
    ensures WeekStart(AddDays(WeekStart(d), i)) == WeekStart(d)
  {
    WeekStartUnique(AddDays(WeekStart(d), i), WeekStart(d), i);
  }

  /** Moving a week forward or back moves the week start by the same week. */
  lemma WeekStartShift(d: Date, n: int)
    requires Valid(d) && (n == 7 || n == -7)
    ensures WeekStart(AddDays(d, n)) == AddDays(WeekStart(d), n)
  {
    var w := WeekStart(d);
    var k := DaysSinceMonday(d);
    var m := AddDays(w, n);
    WeekdayAddDays(w, n);
    WeekShiftKeepsWeekday(n);
    assert Weekday(m) == 1;
    AddDaysAdd(w, n, k);
    AddDaysAdd(w, k, n);
    assert AddDays(m, k) == AddDays(d, n);
    WeekStartUnique(AddDays(d, n), m, k);
  }

  lemma WeekShiftKeepsWeekday(n: int)
    requires n == 7 || n == -7
    ensures (1 + n) % 7 == 1
  {
  }

  // ---------------------------------------------------------------------
  // Loading

  /** The filter arguments of one `getAppointments` call. */
  datatype Query = Query(date: string, location: Option<string>)

  /** `locationFilter !== 'all' ? locationFilter : undefined`. */
  function LocationParam(filter: string): (r: Option<string>)
    ensures r == None <==> filter == "all"
    ensures r.Some? ==> r.value == filter
  {
    if filter != "all" then Some(filter) else None
  }

  /** The filters of the call for day `d`: its ISO date, which reads back
      as `d`, and the location constraint of the filter. */
  function DayQuery(d: Date, filter: string): (q: Query)
    requires Valid(d)
    ensures 1000 <= d.year <= 9999 ==> ParseDateISO(q.date) == Some(d)
    ensures q.location.None? <==> filter == "all"
  {
    if 1000 <= d.year <= 9999 then
      ParseFormatDateISO(d);
      Query(FormatDateISO(d), LocationParam(filter))
    else
      Query(FormatDateISO(d), LocationParam(filter))
  }

  /** `Array.from({ length: 7 }, (_, i) => ... addDays(weekStart, i) ...)`. */
  function WeekQueries(weekStart: Date, filter: string): (qs: seq<Query>)
    requires Valid(weekStart)
    ensures |qs| == 7
    ensures forall i :: 0 <= i < 7 ==> qs[i] == DayQuery(AddDays(weekStart, i), filter)
  {
    seq(7, i requires 0 <= i < 7 => DayQuery(AddDays(weekStart, i), filter))
  }

  lemma WeekQueriesConsecutive(ws: Date, filter: string, i: int)
    requires Valid(ws) && 0 <= i < 6
    ensures WeekQueries(ws, filter)[i + 1].date == FormatDateISO(NextDay(AddDays(ws, i)))
  {
    AddDaysStep(ws, i);
  }

  lemma WeekQueriesDistinct(ws: Date, filter: string, i: int, j: int)
    requires Valid(ws) && 0 <= i < 7 && 0 <= j < 7 && i != j
    ensures WeekQueries(ws, filter)[i].date != WeekQueries(ws, filter)[j].date
  {
    WithinAWeekDistinct(ws, i, j);
    FormatDateISOInjective(AddDays(ws, i), AddDays(ws, j));
  }

  /** The week load asks for seven pairwise different days starting on the
      week's Monday, the selected day among them. */
  lemma WeekQueriesCoverWeek(d: Date, filter: string)
    requires Valid(d)
    ensures var ws := WeekStart(d); var qs := WeekQueries(ws, filter);
      && Weekday(ws) == 1
      && (forall i, j :: 0 <= i < j < 7 ==> qs[i].date != qs[j].date)
      && qs[DaysSinceMonday(d)].date == FormatDateISO(d)
  {
    var ws := WeekStart(d);
    forall i, j | 0 <= i < j < 7 ensures WeekQueries(ws, filter)[i].date != WeekQueries(ws, filter)[j].date {
      WeekQueriesDistinct(ws, filter, i, j);
    }
  }


  /** The appointments of the week, `results.flat()` in day order; `None`
      when any of the seven calls fails (`Promise.all` rejects). */
  function WeekResults(qs: seq<Query>, fetch: Query -> Result<seq<Appointment>>): (r: Result<seq<seq<Appointment>>>)
    ensures r.Ok? <==> forall i :: 0 <= i < |qs| ==> fetch(qs[i]).Ok?
    ensures r.Ok? ==> |r.value| == |qs| && forall i :: 0 <= i < |qs| ==> r.value[i] == fetch(qs[i]).value
  {
    if qs == [] then Ok([])
    else
      var init := WeekResults(qs[..|qs| - 1], fetch);
      var last := fetch(qs[|qs| - 1]);
      if init.Err? then init
      else if last.Err? then Err(last.message)
      else Ok(init.value + [last.value])
  }

  // ---------------------------------------------------------------------
  // Grouping by date

  /** The key of an appointment's bucket. */
  function DateOf(a: Appointment): string
  {
    a.date
  }

  /** `appointmentsByDate`: `forEach` pushing each loaded appointment into the
      list of its date; nothing while the load is pending. */
  method AppointmentsByDate(appointments: Option<seq<Appointment>>) returns (byDate: map<string, seq<Appointment>>)
    ensures appointments == None ==> byDate == map[]
    ensures appointments.Some? ==>
      && (forall date :: date in byDate ==> byDate[date] == Bucket(appointments.value, DateOf, date))
      && (forall date :: date !in byDate ==> Bucket(appointments.value, DateOf, date) == [])
  {
    if appointments == None {
      return map[];
    }
    byDate := GroupBy(appointments.value, DateOf);
  }

  /** `appointmentsByDate[key] || []`: the day's list, or none for a day
      without appointments. */
  function DayAppointments(byDate: map<string, seq<Appointment>>, key: string): (r: seq<Appointment>)
    ensures key in byDate ==> r == byDate[key]
    ensures key !in byDate ==> r == []
  {
    if key in byDate then byDate[key] else []
  }

  /** Looking up a date in the grouping yields that date's appointments in
      load order. */
  lemma DayAppointmentsIsBucket(appointments: seq<Appointment>, byDate: map<string, seq<Appointment>>, key: string)
    requires forall date :: date in byDate ==> byDate[date] == Bucket(appointments, DateOf, date)
    requires forall date :: date !in byDate ==> Bucket(appointments, DateOf, date) == []
    ensures DayAppointments(byDate, key) == Filter(appointments, HasKey(DateOf, key))
  {
    BucketIsFilter(appointments, DateOf, key);
  }

  /** When each day's result holds only appointments of that day and the days
      differ, the grouping of the concatenated results files each day's result,
      in load order, under that day. */
  lemma {:induction false} GroupedDayResults(qs: seq<Query>, results: seq<seq<Appointment>>, i: int)
    requires |results| == |qs| && 0 <= i < |qs|
    requires forall j, j' :: 0 <= j < |qs| && 0 <= j' < |qs| && j != j' ==> qs[j].date != qs[j'].date
    requires forall j, k :: 0 <= j < |results| && 0 <= k < |results[j]| ==> results[j][k].date == qs[j].date
    ensures Bucket(Flatten(results), DateOf, qs[i].date) == results[i]
  {
    var p := HasKey(DateOf, qs[i].date);
    BucketIsFilter(Flatten(results), DateOf, qs[i].date);
    forall k | 0 <= k < |results[i]| ensures p(results[i][k]) {
      assert DateOf(results[i][k]) == qs[i].date;
    }
    FilterKeepsAll(results[i], p);
    forall j | 0 <= j < |results| && j != i ensures Filter(results[j], p) == [] {
      forall k | 0 <= k < |results[j]| ensures !p(results[j][k]) {
        assert DateOf(results[j][k]) == qs[j].date != qs[i].date;
      }
      FilterKeepsNone(results[j], p);
    }
    FilterFlattenSingle(results, p, i);
  }

  /** The week view: when every one of the seven calls returns only
      appointments of the day it asked for (the query filters on `date`), the
      grouped week shows each day's call result under that day. */
  lemma WeekBucketsAreDayResults(d: Date, filter: string, results: seq<seq<Appointment>>, i: int)
    requires Valid(d) && |results| == 7 && 0 <= i < 7
    requires forall j, k :: 0 <= j < 7 && 0 <= k < |results[j]| ==>
      results[j][k].date == WeekQueries(WeekStart(d), filter)[j].date
    ensures Bucket(Flatten(results), DateOf, WeekQueries(WeekStart(d), filter)[i].date) == results[i]
  {
    var ws := WeekStart(d);
    var qs := WeekQueries(ws, filter);
    forall j, j' | 0 <= j < 7 && 0 <= j' < 7 && j != j' ensures qs[j].date != qs[j'].date {
      WeekQueriesDistinct(ws, filter, j, j');
    }
    GroupedDayResults(qs, results, i);
  }

  /** An appointment is listed under exactly its own date. */
  lemma InOwnDateOnly(appointments: seq<Appointment>, i: int, date: string)
    requires 0 <= i < |appointments|
    ensures appointments[i] in Bucket(appointments, DateOf, date) <==> appointments[i].date == date
  {
    InOwnBucketOnly(appointments, DateOf, i, date);
  }

  // ---------------------------------------------------------------------
  // Status display

  /** `statusVariant`: the badge colour of an appointment status; unknown
      statuses fall back to the default badge. The dashboard home page
      carries an identical copy. */
  function StatusVariant(status: string): (v: BadgeVariant)
    ensures v == Success <==> status == "completed"
    ensures v == Danger <==> status == "cancelled"
    ensures v == Warning <==> status == "no_show"
    ensures v == Default <==> status != "completed" && status != "cancelled" && status != "no_show"
  {
    match status
    case "completed" => Success
    case "confirmed" => Default
    case "cancelled" => Danger
    case "no_show" => Warning
    case _ => Default
  }

  /** Every declared status has its fixed badge. */
  lemma StatusVariantOfStatus(st: AppointmentStatus)
    ensures StatusVariant(StatusName(st)) == match st
      case Confirmed => Default
      case Completed => Success
      case Cancelled => Danger
      case NoShow => Warning
  {
  }

  /** The block styles, written as the background class followed by the
      remaining classes. */
  const DefaultColor := "bg-muted" + " border-border text-foreground"
  const ConfirmedColor := "bg-primary/15" + " border-primary/40 text-foreground"
  const CompletedColor := "bg-success/10" + " border-success/40 text-foreground"
  const CancelledColor := "bg-danger/10" + " border-danger/40 text-foreground line-through opacity-60"
  const NoShowColor := "bg-amber-50" + " border-amber-300 text-foreground opacity-60"

  /** `statusColor`: the block style of an appointment in the day and week
      grids; unknown statuses get the neutral style. The `switch` on the
      status string is a match on its parsed value. */
  function StatusColor(status: string): (c: string)
    ensures |c| > 3
    ensures c == DefaultColor <==> ParseStatus(status).None?
  {
    match ParseStatus(status)
    case Some(Confirmed) => assert ConfirmedColor[3] != DefaultColor[3]; ConfirmedColor
    case Some(Completed) => assert CompletedColor[3] != DefaultColor[3]; CompletedColor
    case Some(Cancelled) => assert CancelledColor[3] != DefaultColor[3]; CancelledColor
    case Some(NoShow) => assert NoShowColor[3] != DefaultColor[3]; NoShowColor
    case None => DefaultColor
  }

  /** The four statuses are drawn in four different styles, which already
      differ in their fourth character. */
  lemma StatusColorDistinct(a: AppointmentStatus, b: AppointmentStatus)
    requires a != b
    ensures StatusColor(StatusName(a)) != StatusColor(StatusName(b))
  {
    assert ParseStatus(StatusName(a)) == Some(a);
    assert ParseStatus(StatusName(b)) == Some(b);
    assert StatusColor(StatusName(a))[3] != StatusColor(StatusName(b))[3];
  }

  /** `locationLabel`: `'kw'` is shown as "KW", every other value as "Neumarkt".
      The dashboard home page carries an identical copy. */
  function LocationLabel(loc: string): (shown: string)
    ensures shown == "KW" <==> loc == "kw"
    ensures shown == "Neumarkt" <==> loc != "kw"
  {
    if loc == "kw" then "KW" else "Neumarkt"
  }

  // ---------------------------------------------------------------------
  // Page state

  datatype View = DayView | WeekView

  /** The distance of one press of the arrow buttons. */
  function NavigationStep(view: View): (n: int)
    ensures n == 7 <==> view.WeekView?
    ensures n == 1 <==> view.DayView?
  {
    if view == WeekView then 7 else 1
  }

  /** Back after forward (or forward after back) returns to the same day. */
  lemma NavigationInverse(d: Date, view: View)
    requires Valid(d)
    ensures AddDays(AddDays(d, NavigationStep(view)), -NavigationStep(view)) == d
    ensures AddDays(AddDays(d, -NavigationStep(view)), NavigationStep(view)) == d
  {
    AddDaysInverse(d, NavigationStep(view));
    AddDaysInverse(d, -NavigationStep(view));
  }

  /** In the week view an arrow press moves the displayed week by one week. */
  lemma WeekNavigationMovesWeek(d: Date)
    requires Valid(d)
    ensures WeekStart(AddDays(d, NavigationStep(WeekView))) == AddDays(WeekStart(d), 7)
    ensures WeekStart(AddDays(d, -NavigationStep(WeekView))) == AddDays(WeekStart(d), -7)
  {
    WeekStartShift(d, 7);
    WeekStartShift(d, -7);
  }

  /** The calendar page's state: the selected day, the view, the location
      filter, the loaded appointments (`null` until the first load) and the
      error banner. */
  class CalendarPage {
    var selectedDate: Date
    var view: View
    var locationFilter: string
    var appointments: Option<seq<Appointment>>
    var error: Option<string>

    ghost predicate Valid()
      reads this
    {
      CivilDate.Valid(selectedDate)
    }

    constructor (today: Date)
      requires CivilDate.Valid(today)
      ensures Valid()
      ensures selectedDate == today && view == DayView && locationFilter == "all"
      ensures appointments == None && error == None
    {
      selectedDate := today;
      view := DayView;
      locationFilter := "all";
      appointments := None;
      error := None;
    }

    /** The left arrow: one day back, or one week back in the week view. */
    method Previous()
      requires Valid()
      modifies this
      ensures Valid()
      ensures selectedDate == AddDays(old(selectedDate), -NavigationStep(view))
      ensures view == old(view) && locationFilter == old(locationFilter)
      ensures appointments == old(appointments) && error == old(error)
    {
      selectedDate := AddDays(selectedDate, -NavigationStep(view));
    }

    /** The right arrow: one day forward, or one week forward in the week view. */
    method Next()
      requires Valid()
      modifies this
      ensures Valid()
      ensures selectedDate == AddDays(old(selectedDate), NavigationStep(view))
      ensures view == old(view) && locationFilter == old(locationFilter)
      ensures appointments == old(appointments) && error == old(error)
    {
      selectedDate := AddDays(selectedDate, NavigationStep(view));
    }

    /** The "Heute" button. */
    method GoToday(today: Date)
      requires CivilDate.Valid(today)
      modifies this
      ensures Valid() && selectedDate == today
      ensures view == old(view) && locationFilter == old(locationFilter)
      ensures appointments == old(appointments) && error == old(error)
    {
      selectedDate := today;
    }

    /** The date input: a well-formed value selects that day. */
    method PickDate(value: string)
      requires Valid()
      modifies this
      ensures Valid()
      ensures selectedDate == if ParseDateISO(value).Some? then ParseDateISO(value).value else old(selectedDate)
      ensures view == old(view) && locationFilter == old(locationFilter)
      ensures appointments == old(appointments) && error == old(error)
    {
      var parsed := ParseDateISO(value);
      if parsed.Some? {
        selectedDate := parsed.value;
      }
    }

    /** The "Tag" and "Woche" buttons. */
    method SetView(v: View)
      modifies this
      ensures view == v && selectedDate == old(selectedDate) && locationFilter == old(locationFilter)
      ensures appointments == old(appointments) && error == old(error)
    {
      view := v;
    }

    /** The location buttons ("Alle", "Neumarkt", "KW"). */
    method SetLocationFilter(filter: string)
      modifies this
      ensures locationFilter == filter && selectedDate == old(selectedDate) && view == old(view)
      ensures appointments == old(appointments) && error == old(error)
    {
      locationFilter := filter;
    }

    /** The load effect that runs after any change of day, view or filter:
        one call for the selected day, or seven for its week concatenated in
        day order. A failure shows its message and keeps the previous list. */
    method Load(fetch: Query -> Result<seq<Appointment>>)
      requires Valid()
      modifies this
      ensures Valid()
      ensures selectedDate == old(selectedDate) && view == old(view) && locationFilter == old(locationFilter)
      ensures view == DayView ==>
        var r := fetch(DayQuery(selectedDate, locationFilter));
        if r.Ok? then appointments == Some(r.value) && error == None
        else appointments == old(appointments) && error == Some(r.message)
      ensures view == WeekView ==>
        var r := WeekResults(WeekQueries(WeekStart(selectedDate), locationFilter), fetch);
        if r.Ok? then appointments == Some(Flatten(r.value)) && error == None
        else appointments == old(appointments) && error == Some(r.message)
    {
      error := None;
      if view == DayView {
        var r := fetch(DayQuery(selectedDate, locationFilter));
        if r.Ok? {
          appointments := Some(r.value);
        } else {
          error := Some(r.message);
        }
      } else {
        var r := WeekResults(WeekQueries(WeekStart(selectedDate), locationFilter), fetch);
        if r.Ok? {
          appointments := Some(Flatten(r.value));
        } else {
          error := Some(r.message);
        }
      }
    }
  }
}
