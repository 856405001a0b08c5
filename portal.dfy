/** The customer portal's appointment list (`app/portal/termine/page.tsx`):
    the fetched appointments are split into upcoming and past ones, the
    upcoming ones are sorted by date and start time, and times are shown
    without seconds. */
module Portal {
  import opened Base
  import opened Text
  import opened Types

  /** `apt.date >= today && apt.status !== "cancelled"`; dates compare as
      strings. */
  function IsUpcoming(today: string): (up: Appointment -> bool)
    ensures forall apt: Appointment :: up(apt) ==> apt.status != Cancelled
    ensures forall apt: Appointment :: apt.date == today && apt.status != Cancelled ==> up(apt)
  {
    StrLessIrreflexive(today);
    (apt: Appointment) => !StrLess(apt.date, today) && apt.status != Cancelled
  }

  /** The `else` branch of the loop: exactly the appointments that are not
      upcoming. */
  function IsPast(today: string): (past: Appointment -> bool)
    ensures forall apt: Appointment :: past(apt) <==> !IsUpcoming(today)(apt)
  {
    (apt: Appointment) => StrLess(apt.date, today) || apt.status == Cancelled
  }

  /** The `for` loop of `loadAppointments`: each appointment is pushed onto
      `upcomingList` or `pastList`. */
  method Partition(appointments: seq<Appointment>, today: string) returns (upcoming: seq<Appointment>, past: seq<Appointment>)
    ensures upcoming == Filter(appointments, IsUpcoming(today))
    ensures past == Filter(appointments, IsPast(today))
  {
    upcoming, past := [], [];
    for i := 0 to |appointments|
      invariant upcoming == Filter(appointments[..i], IsUpcoming(today))
      invariant past == Filter(appointments[..i], IsPast(today))
    {
      var apt := appointments[i];
      PartitionStep(appointments, i, today);
      if !StrLess(apt.date, today) && apt.status != Cancelled {
        upcoming := upcoming + [apt];
      } else {
        past := past + [apt];
      }
    }
    assert appointments[..|appointments|] == appointments;
  }

  /** One more appointment goes to exactly one of the two lists. */
  lemma PartitionStep(appointments: seq<Appointment>, i: int, today: string)
    requires 0 <= i < |appointments|
    ensures var apt := appointments[i];
      var up := !StrLess(apt.date, today) && apt.status != Cancelled;
      && Filter(appointments[..i + 1], IsUpcoming(today)) == Filter(appointments[..i], IsUpcoming(today)) + (if up then [apt] else [])
      && Filter(appointments[..i + 1], IsPast(today)) == Filter(appointments[..i], IsPast(today)) + (if up then [] else [apt])
  {
    assert appointments[..i + 1] == appointments[..i] + [appointments[i]];
    FilterSnoc(appointments[..i], appointments[i], IsUpcoming(today));
    FilterSnoc(appointments[..i], appointments[i], IsPast(today));
  }

  /** Every fetched appointment lands in exactly one list: the two lists
      together are the fetched ones, and an appointment is upcoming exactly
      when it is on or after today and not cancelled. A cancelled future
      appointment is past. */
  lemma PartitionExact(appointments: seq<Appointment>, today: string)
    ensures multiset(Filter(appointments, IsUpcoming(today))) + multiset(Filter(appointments, IsPast(today)))
      == multiset(appointments)
    ensures forall i :: 0 <= i < |appointments| ==>
      ((appointments[i] in Filter(appointments, IsUpcoming(today)))
        <==> !StrLess(appointments[i].date, today) && appointments[i].status != Cancelled)
    ensures forall i :: 0 <= i < |appointments| ==>
      ((appointments[i] in Filter(appointments, IsPast(today)))
        <==> appointments[i] !in Filter(appointments, IsUpcoming(today)))
  {
    FilterPartition(appointments, IsUpcoming(today), IsPast(today));
    var up := Filter(appointments, IsUpcoming(today));
    var past := Filter(appointments, IsPast(today));
    FilterMembers(appointments, IsUpcoming(today));
    FilterMembers(appointments, IsPast(today));
    forall i | 0 <= i < |appointments|
      ensures appointments[i] in up <==> IsUpcoming(today)(appointments[i])
      ensures appointments[i] in past <==> !IsUpcoming(today)(appointments[i])
    {
      if appointments[i] in up {
        var j :| 0 <= j < |up| && up[j] == appointments[i];
      }
      if appointments[i] in past {
        var j :| 0 <= j < |past| && past[j] == appointments[i];
      }
    }
  }

  /** The order of the upcoming list: `a.date.localeCompare(b.date) ||
      a.start_time.localeCompare(b.start_time)` is at most 0. It never
      puts a later date first. */
  predicate UpcomingOrder(a: Appointment, b: Appointment)
    ensures UpcomingOrder(a, b) ==> !StrLess(b.date, a.date)
  {
    if StrLess(a.date, b.date) then
      StrLessAsymmetric(a.date, b.date);
      true
    else
      StrLessIrreflexive(a.date);
      a.date == b.date && !StrLess(b.start_time, a.start_time)
  }

  /** Not after: `b` does not sort before `a` by start time. */
  lemma NotLessTransitive(a: string, b: string, c: string)
    requires !StrLess(b, a) && !StrLess(c, b)
    ensures !StrLess(c, a)
  {
    StrLessTotal(a, b);
    if StrLess(c, a) && StrLess(a, b) {
      StrLessTransitive(c, a, b);
    }
  }

  /** The comparator orders appointments totally and transitively, so
      sorting with it is well defined. */
  lemma UpcomingOrderIsTotalPreorder()
    ensures TotalPreorder(UpcomingOrder)
  {
    forall a, b ensures UpcomingOrder(a, b) || UpcomingOrder(b, a) {
      StrLessTotal(a.date, b.date);
      if StrLess(a.start_time, b.start_time) {
        StrLessAsymmetric(a.start_time, b.start_time);
      }
    }
    forall a, b, c | UpcomingOrder(a, b) && UpcomingOrder(b, c) ensures UpcomingOrder(a, c) {
      if StrLess(a.date, b.date) && StrLess(b.date, c.date) {
        StrLessTransitive(a.date, b.date, c.date);
      } else if a.date == b.date && b.date == c.date {
        NotLessTransitive(a.start_time, b.start_time, c.start_time);
      }
    }
  }

  /** `upcomingList.sort(...)`: the upcoming appointments, nearest first. */
  function SortUpcoming(upcoming: seq<Appointment>): (r: seq<Appointment>)
    ensures multiset(r) == multiset(upcoming)
    ensures forall i, j :: 0 <= i < j < |r| ==> UpcomingOrder(r[i], r[j])
  {
    UpcomingOrderIsTotalPreorder();
    SortBy(upcoming, UpcomingOrder)
  }

  /** In the sorted list, dates never decrease, and on equal dates start
      times never decrease. */
  lemma SortedUpcomingByDateThenTime(upcoming: seq<Appointment>, i: int, j: int)
    requires 0 <= i < j < |SortUpcoming(upcoming)|
    ensures var r := SortUpcoming(upcoming);
      !StrLess(r[j].date, r[i].date)
      && (r[i].date == r[j].date ==> !StrLess(r[j].start_time, r[i].start_time))
  {
    var r := SortUpcoming(upcoming);
    assert UpcomingOrder(r[i], r[j]);
    if StrLess(r[i].date, r[j].date) {
      StrLessAsymmetric(r[i].date, r[j].date);
    } else {
      StrLessIrreflexive(r[i].date);
    }
  }

  /** The sort is stable: appointments on the same date at the same start
      time stay in fetch order. */
  lemma SortUpcomingStable(upcoming: seq<Appointment>, x: Appointment)
    ensures Filter(SortUpcoming(upcoming), EquivTo(UpcomingOrder, x))
      == Filter(upcoming, EquivTo(UpcomingOrder, x))
  {
    UpcomingOrderIsTotalPreorder();
    SortByStable(upcoming, UpcomingOrder, x);
  }

  /** Dates in descending order, the order the query returns. */
  predicate DateDescending(a: Appointment, b: Appointment)
  {
    !StrLess(a.date, b.date)
  }

  /** The past list keeps the fetch order, so a date-descending fetch gives a
      date-descending past list. */
  lemma PastKeepsFetchOrder(appointments: seq<Appointment>, today: string)
    requires SortedBy(appointments, DateDescending)
    ensures SortedBy(Filter(appointments, IsPast(today)), DateDescending)
  {
    FilterKeepsOrder(appointments, IsPast(today), DateDescending);
  }

  /** The page's state. */
  class AppointmentsPage {
    var upcoming: seq<Appointment>
    var past: seq<Appointment>
    var loading: bool
    var noCustomer: bool
    var error: Option<string>

    constructor ()
      ensures upcoming == [] && past == [] && loading && !noCustomer && error == None
    {
      upcoming, past := [], [];
      loading := true;
      noCustomer := false;
      error := None;
    }

    /** `loadAppointments`. The signed-in user's e-mail (or none), the
        customer id found for an e-mail, and the appointments fetched for a
        customer id are the results of the database calls; `Err` is a thrown
        error with its message. Without a user the function returns inside
        the `try`, before `loading` is cleared. */
    method Load(user: Result<Option<string>>,
                findCustomer: string -> Result<Option<string>>,
                fetchAppointments: string -> Result<Option<seq<Appointment>>>,
                today: string)
      modifies this
      ensures user.Ok? && user.value.None? ==>
        upcoming == old(upcoming) && past == old(past) && loading == old(loading)
        && noCustomer == old(noCustomer) && error == old(error)
      ensures user.Err? ==>
        error == Some(user.message) && !loading
        && upcoming == old(upcoming) && past == old(past) && noCustomer == old(noCustomer)
      ensures user.Ok? && user.value.Some? ==>
        var customer := findCustomer(user.value.value);
        && (customer.Err? ==>
              error == Some(customer.message) && !loading
              && upcoming == old(upcoming) && past == old(past) && noCustomer == old(noCustomer))
        && (customer.Ok? && customer.value.None? ==>
              noCustomer && !loading
              && upcoming == old(upcoming) && past == old(past) && error == old(error))
        && (customer.Ok? && customer.value.Some? ==>
              var fetched := fetchAppointments(customer.value.value);
              && !loading && noCustomer == old(noCustomer)
              && (fetched.Err? ==>
                    error == Some(fetched.message) && upcoming == old(upcoming) && past == old(past))
              && (fetched.Ok? && fetched.value.None? ==>
                    error == old(error) && upcoming == old(upcoming) && past == old(past))
              && (fetched.Ok? && fetched.value.Some? ==>
                    error == old(error)
                    && upcoming == SortUpcoming(Filter(fetched.value.value, IsUpcoming(today)))
                    && past == Filter(fetched.value.value, IsPast(today))))
    {
      if user.Err? {
        error := Some(user.message);
        loading := false;
        return;
      }
      if user.value.None? {
        return;
      }
      var customer := findCustomer(user.value.value);
      if customer.Err? {
        error := Some(customer.message);
        loading := false;
        return;
      }
      if customer.value.None? {
        noCustomer := true;
        loading := false;
        return;
      }
      var fetched := fetchAppointments(customer.value.value);
      if fetched.Err? {
        error := Some(fetched.message);
        loading := false;
        return;
      }
      if fetched.value.None? {
        loading := false;
        return;
      }
      var up, pastList := Partition(fetched.value.value, today);
      upcoming := SortUpcoming(up);
      past := pastList;
      loading := false;
    }
  }
}
