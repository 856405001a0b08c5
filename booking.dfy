/** The salon booking wizard (`app/salon/buchen/components/booking-wizard.tsx`):
    the half-hour slot grid, the slot-conflict test against the day's
    appointments, the end time sent with a booking, the treatments offered at
    the salon's location grouped by category, and the wizard's steps and
    selections. */
module Booking {
  import opened Base
  import opened Text
  import opened Types
  import Calendar

  // ---------------------------------------------------------------------
  // Clock strings

  /** `${pad(Math.floor(e / 60))}:${pad(e % 60)}` for `e >= 0`: hours and
      minutes, each at least two digits. Hours are not reduced modulo 24. */
  function ClockLabel(e: nat): (r: string)
    ensures |r| >= 3 && r[|r| - 3] == ':'
    ensures AllDigits(r[|r| - 2..]) && DigitsValue(r[|r| - 2..]) == e % 60
    ensures e < 6000 ==> |r| == 5 && AllDigits(r[..2]) && DigitsValue(r[..2]) == e / 60
  {
    var hh, mm := TwoDigits(e / 60), TwoDigits(e % 60);
    var r := hh + ":" + mm;
    assert r[|r| - 2..] == mm && r[|r| - 3] == ':';
    assert |hh| == 2 ==> r[..2] == hh;
    r
  }

  /** Reading a rendered clock time back gives the minutes it was made from. */
  lemma ClockLabelRoundTrip(e: nat)
    ensures Calendar.TimeToMinutes(ClockLabel(e)) == Finite(e)
  {
    var hh, mm := TwoDigits(e / 60), TwoDigits(e % 60);
    Calendar.TimeToMinutesOfClock(hh, mm, "");
    assert hh + ":" + mm + "" == ClockLabel(e);
    assert 60 * DigitsValue(hh) + DigitsValue(mm) == e;
  }

  /** JavaScript's `%`, whose result takes the sign of the dividend. */
  function JsRem(a: int, b: int): (r: int)
    requires b > 0
    ensures a >= 0 ==> r == a % b
    ensures -b < r < b && (r == 0 || (r < 0 <==> a < 0))
  {
    if a >= 0 then a % b else -((-a) % b)
  }

  /** The end-time expression of `handleBook` for any number: `Math.floor`
      rounds down, `%` truncates, `String` writes a sign, and NaN prints as
      "NaN". */
  function FormatClock(e: Num): (r: string)
    ensures e.Finite? && e.value >= 0 ==> r == ClockLabel(e.value)
  {
    if e.NaN? then "NaN:NaN"
    else PadStart2(IntToString(e.value / 60)) + ":" + PadStart2(IntToString(JsRem(e.value, 60)))
  }

  /** After midnight the hours keep counting: 23:30 plus 60 minutes ends at
      "24:30". */
  lemma EndTimeDoesNotWrap()
    ensures FormatClock(Finite(23 * 60 + 30 + 60)) == "24:30"
  {
    ClockLabelParts(1470, 24, 30);
    TwoDigitsChars(24, '2', '4');
    TwoDigitsChars(30, '3', '0');
    assert ['2', '4'] + (":" + ['3', '0']) == "24:30";
  }

  // ---------------------------------------------------------------------
  // The slot grid

  /** A number below 100 pads to its tens and units digits. */
  lemma TwoDigitsOfSmall(n: nat)
    requires n < 100
    ensures TwoDigits(n) == [DigitChar(n / 10), DigitChar(n % 10)]
  {
    if n < 10 {
      assert NatToString(n) == [DigitChar(n)];
    } else {
      assert NatToString(n / 10) == [DigitChar(n / 10)];
    }
  }

  /** Slot `k` is `h:00` or `h:30` when it lies `60 * h + m` minutes after
      midnight. */
  lemma SlotLabel(k: nat, h: nat, m: nat, tail: string)
    requires 540 + 30 * k == 60 * h + m
    requires (m == 0 && tail == ":00") || (m == 30 && tail == ":30")
    ensures SlotAt(k) == TwoDigits(h) + tail
  {
    ClockLabelParts(540 + 30 * k, h, m);
    MinutesTail(m, tail);
  }

  lemma ClockLabelParts(e: nat, h: nat, m: nat)
    requires e == 60 * h + m && m < 60
    ensures ClockLabel(e) == TwoDigits(h) + (":" + TwoDigits(m))
  {
    DivMod60(e, h, m);
    LabelOfParts(e / 60, e % 60, h, m);
  }

  lemma LabelOfParts(q: nat, r: nat, h: nat, m: nat)
    requires q == h && r == m
    ensures TwoDigits(q) + ":" + TwoDigits(r) == TwoDigits(h) + (":" + TwoDigits(m))
  {
  }

  lemma MinutesTail(m: nat, tail: string)
    requires (m == 0 && tail == ":00") || (m == 30 && tail == ":30")
    ensures ":" + TwoDigits(m) == tail
  {
    TwoDigitsOfSmall(m);
  }

  lemma DivMod60(e: nat, h: nat, m: nat)
    requires e == 60 * h + m && m < 60
    ensures e / 60 == h && e % 60 == m
  {
  }

  /** The `i`-th half-hour slot from 09:00. */
  function SlotAt(i: nat): string
  {
    ClockLabel(540 + 30 * i)
  }

  /** `generateTimeSlots`: `h` from 9 to 19 pushes `h:00`, and `h:30` while
      `h < 19`. The result is the 21 clock times 09:00, 09:30, ..., 19:00. */
  method GenerateTimeSlots() returns (slots: seq<string>)
    ensures |slots| == 21
    ensures forall i :: 0 <= i < 21 ==> slots[i] == SlotAt(i)
  {
    slots := [];
    var h := 9;
    while h <= 19
      invariant 9 <= h <= 20
      invariant |slots| == if h == 20 then 21 else 2 * (h - 9)
      invariant forall i :: 0 <= i < |slots| ==> slots[i] == SlotAt(i)
    {
      var full := TwoDigits(h) + ":00";
      SlotsOfHour(slots, h, full, ":00", 0);
      slots := slots + [full];
      if h < 19 {
        var half := TwoDigits(h) + ":30";
        SlotsOfHour(slots, h, half, ":30", 1);
        slots := slots + [half];
      }
      h := h + 1;
    }
  }

  /** The next slot of hour `h` (its `:00` or its `:30`) extends the grid. */
  lemma SlotsOfHour(slots: seq<string>, h: nat, text: string, tail: string, half: nat)
    requires 9 <= h <= 19 && half <= 1
    requires |slots| == 2 * (h - 9) + half
    requires (half == 0 && tail == ":00") || (half == 1 && tail == ":30")
    requires text == TwoDigits(h) + tail
    requires forall i :: 0 <= i < |slots| ==> slots[i] == SlotAt(i)
    ensures forall i :: 0 <= i < |slots| + 1 ==> (slots + [text])[i] == SlotAt(i)
  {
    SlotLabel(|slots|, h, 30 * half, tail);
    AppendIndexed(slots, text, SlotAt);
  }

  /** Each slot reads back as its minutes: 540 (09:00) plus 30 per slot, so
      the slots strictly increase in time. */
  lemma SlotMinutes(slots: seq<string>)
    requires |slots| == 21
    requires forall i :: 0 <= i < 21 ==> slots[i] == SlotAt(i)
    ensures forall i :: 0 <= i < 21 ==> Calendar.TimeToMinutes(slots[i]) == Finite(540 + 30 * i)
    ensures forall i, j :: 0 <= i < j < 21 ==>
      Calendar.TimeToMinutes(slots[i]).value < Calendar.TimeToMinutes(slots[j]).value
  {
    forall i | 0 <= i < 21 ensures Calendar.TimeToMinutes(slots[i]) == Finite(540 + 30 * i) {
      ClockLabelRoundTrip(540 + 30 * i);
    }
  }

  /** Every slot is a zero-padded `HH:MM` string of five characters. */
  lemma SlotWidth(i: nat)
    requires i < 21
    ensures |SlotAt(i)| == 5 && SlotAt(i)[2] == ':'
  {
    var e := 540 + 30 * i;
    assert e / 60 < 100 && e % 60 < 100;
  }

  /** "19:30" is the clock label of 1170 minutes, which lies past the last
      slot. */
  lemma NineteenThirty(e: nat)
    requires e == 60 * 19 + 30
    ensures ClockLabel(e) == "19:30"
    ensures Calendar.TimeToMinutes(ClockLabel(e)) == Finite(1170)
  {
    ClockLabelRoundTrip(e);
    NineteenThirtyLabel();
  }

  lemma NineteenThirtyLabel()
    ensures ClockLabel(1170) == "19:30"
  {
    ClockLabelParts(1170, 19, 30);
    TwoDigitsChars(19, '1', '9');
    TwoDigitsChars(30, '3', '0');
    assert ['1', '9'] + (":" + ['3', '0']) == "19:30";
  }

  /** Two-digit rendering of a literal hour, spelled out. */
  lemma TwoDigitsChars(n: nat, a: char, b: char)
    requires n < 100 && a == DigitChar(n / 10) && b == DigitChar(n % 10)
    ensures TwoDigits(n) == [a, b]
  {
    TwoDigitsOfSmall(n);
  }

  /** The grid runs from 09:00 to 19:00; there is no 19:30 slot. */
  lemma SlotGridEnds(slots: seq<string>)
    requires |slots| == 21
    requires forall i :: 0 <= i < 21 ==> slots[i] == SlotAt(i)
    ensures slots[0] == "09:00" && slots[20] == "19:00"
    ensures "19:30" !in slots
  {
    SlotGridFirstAndLast();
    SlotMinutes(slots);
    NineteenThirty(1170);
    forall i | 0 <= i < 21
      ensures slots[i] != "19:30"
    {
      assert Calendar.TimeToMinutes(slots[i]) == Finite(540 + 30 * i);
    }
  }

  lemma SlotGridFirstAndLast()
    ensures SlotAt(0) == "09:00" && SlotAt(20) == "19:00"
  {
    SlotOnTheHour(0, 9, '0', '9');
    SlotOnTheHour(20, 19, '1', '9');
  }

  lemma SlotOnTheHour(k: nat, h: nat, a: char, b: char)
    requires 540 + 30 * k == 60 * h && h < 100
    requires a == DigitChar(h / 10) && b == DigitChar(h % 10)
    ensures SlotAt(k) == [a, b, ':', '0', '0']
  {
    SlotLabel(k, h, 0, ":00");
    HourText(h, a, b);
  }

  lemma HourText(h: nat, a: char, b: char)
    requires h < 100 && a == DigitChar(h / 10) && b == DigitChar(h % 10)
    ensures TwoDigits(h) + ":00" == [a, b, ':', '0', '0']
  {
    TwoDigitsChars(h, a, b);
  }

  // ---------------------------------------------------------------------
  // Slot conflicts

  /** `slotStart < aptEnd && slotEnd > aptStart` on JavaScript numbers. */
  predicate Overlaps(slotStart: Num, slotEnd: Num, aptStart: Num, aptEnd: Num)
    ensures Overlaps(slotStart, slotEnd, aptStart, aptEnd) ==>
      slotStart.Finite? && slotEnd.Finite? && aptStart.Finite? && aptEnd.Finite?
  {
    Less(slotStart, aptEnd) && Less(aptStart, slotEnd)
  }

  /** One appointment's test inside `dayAppointments.some(...)`: a cancelled
      appointment never conflicts; otherwise its times are read and compared
      with the slot's. */
  predicate Conflicts(apt: Appointment, slotStart: Num, slotEnd: Num)
    ensures Conflicts(apt, slotStart, slotEnd) ==>
      && apt.status != Cancelled
      && Calendar.TimeToMinutes(apt.start_time).Finite? && Calendar.TimeToMinutes(apt.end_time).Finite?
  {
    && apt.status != Cancelled
    && Overlaps(slotStart, slotEnd, Calendar.TimeToMinutes(apt.start_time), Calendar.TimeToMinutes(apt.end_time))
  }

  /** The test `some` applies to each appointment for the slot `[slotStart, slotEnd)`. */
  function ConflictsWith(slotStart: Num, slotEnd: Num): (test: Appointment -> bool)
    ensures forall apt :: test(apt) ==> apt.status != Cancelled
    ensures slotStart.NaN? || slotEnd.NaN? ==> forall apt :: !test(apt)
  {
    apt => Conflicts(apt, slotStart, slotEnd)
  }

  /** `isSlotBlocked(time)`: without a chosen treatment nothing is blocked;
      otherwise the slot `[start, start + duration)` is blocked when it
      conflicts with some appointment of the day. */
  predicate IsSlotBlocked(treatment: Option<Treatment>, dayAppointments: seq<Appointment>, time: string)
    ensures IsSlotBlocked(treatment, dayAppointments, time) ==>
      treatment.Some? && exists i :: 0 <= i < |dayAppointments| && dayAppointments[i].status != Cancelled
  {
    && treatment.Some?
    && var slotStart := Calendar.TimeToMinutes(time);
       Any(dayAppointments, ConflictsWith(slotStart, Plus(slotStart, Finite(treatment.value.duration_minutes))))
  }

  /** With no treatment chosen, no slot is blocked. */
  lemma NoTreatmentNothingBlocked(dayAppointments: seq<Appointment>, time: string)
    ensures !IsSlotBlocked(None, dayAppointments, time)
  {
  }

  predicate NotCancelled(a: Appointment)
  {
    a.status != Cancelled
  }

  /** Cancelled appointments never block: dropping them all changes no
      slot's state. */
  lemma CancelledNeverBlock(treatment: Option<Treatment>, dayAppointments: seq<Appointment>, time: string)
    ensures IsSlotBlocked(treatment, dayAppointments, time)
        <==> IsSlotBlocked(treatment, Filter(dayAppointments, NotCancelled), time)
  {
    if treatment.Some? {
      var slotStart := Calendar.TimeToMinutes(time);
      var test := ConflictsWith(slotStart, Plus(slotStart, Finite(treatment.value.duration_minutes)));
      AnyFilter(dayAppointments, test, NotCancelled);
    }
  }

  /** Adding an appointment can only block more slots; a blocked slot stays
      blocked. Adding a cancelled one changes nothing. */
  lemma AddingAppointmentOnlyBlocks(treatment: Option<Treatment>, dayAppointments: seq<Appointment>, apt: Appointment, time: string)
    ensures IsSlotBlocked(treatment, dayAppointments, time) ==> IsSlotBlocked(treatment, dayAppointments + [apt], time)
    ensures apt.status == Cancelled ==>
      (IsSlotBlocked(treatment, dayAppointments + [apt], time) <==> IsSlotBlocked(treatment, dayAppointments, time))
  {
    if treatment.Some? {
      var slotStart := Calendar.TimeToMinutes(time);
      var test := ConflictsWith(slotStart, Plus(slotStart, Finite(treatment.value.duration_minutes)));
      AnyAppend(dayAppointments, apt, test);
    }
  }

  /** A slot whose time cannot be read (NaN) is never blocked. */
  lemma UnreadableSlotNeverBlocked(treatment: Option<Treatment>, dayAppointments: seq<Appointment>, time: string)
    requires Calendar.TimeToMinutes(time) == NaN
    ensures !IsSlotBlocked(treatment, dayAppointments, time)
  {
  }

  /** The minutes of an appointment's start and end, when both can be read. */
  predicate HasClockTimes(apt: Appointment)
  {
    Calendar.TimeToMinutes(apt.start_time).Finite? && Calendar.TimeToMinutes(apt.end_time).Finite?
  }

  function StartOf(apt: Appointment): int
    requires HasClockTimes(apt)
  {
    Calendar.TimeToMinutes(apt.start_time).value
  }

  function EndOf(apt: Appointment): int
    requires HasClockTimes(apt)
  {
    Calendar.TimeToMinutes(apt.end_time).value
  }

  /** Minute `x` lies in `[start, end)`. */
  predicate InSpan(x: int, start: int, end: int)
  {
    start <= x < end
  }

  /** For non-empty intervals, the comparison test is exactly "the half-open
      intervals share a minute". */
  lemma OverlapsIffShareMinute(s: int, d: int, a: int, e: int)
    requires d > 0 && a < e
    ensures Overlaps(Finite(s), Finite(s + d), Finite(a), Finite(e))
        <==> exists x :: s <= x < s + d && InSpan(x, a, e)
  {
    if Overlaps(Finite(s), Finite(s + d), Finite(a), Finite(e)) {
      var x := if s < a then a else s;
      assert s <= x < s + d && InSpan(x, a, e);
    }
  }

  /** A live appointment with readable times, ending after it starts,
      conflicts with a slot of positive length exactly when the two share a
      minute. */
  lemma ConflictIffShareMinute(apt: Appointment, s: int, d: int)
    requires HasClockTimes(apt) && StartOf(apt) < EndOf(apt) && d > 0
    ensures Conflicts(apt, Finite(s), Plus(Finite(s), Finite(d)))
        <==> apt.status != Cancelled && exists x :: s <= x < s + d && InSpan(x, StartOf(apt), EndOf(apt))
  {
    OverlapsIffShareMinute(s, d, StartOf(apt), EndOf(apt));
  }

  /** For readable times, a treatment of positive length and appointments
      that end after they start, a slot is blocked exactly when
      `[slotStart, slotStart + duration)` shares a minute with a live
      appointment of the day. */
  lemma BlockedIffShareMinute(treatment: Treatment, dayAppointments: seq<Appointment>, time: string)
    requires Calendar.TimeToMinutes(time).Finite? && treatment.duration_minutes > 0
    requires forall i :: 0 <= i < |dayAppointments| ==>
      HasClockTimes(dayAppointments[i]) && StartOf(dayAppointments[i]) < EndOf(dayAppointments[i])
    ensures var s := Calendar.TimeToMinutes(time).value;
      IsSlotBlocked(Some(treatment), dayAppointments, time)
      <==> exists i :: 0 <= i < |dayAppointments| && dayAppointments[i].status != Cancelled
             && exists x :: s <= x < s + treatment.duration_minutes
                  && InSpan(x, StartOf(dayAppointments[i]), EndOf(dayAppointments[i]))
  {
    var s := Calendar.TimeToMinutes(time).value;
    var d := treatment.duration_minutes;
    var test := ConflictsWith(Finite(s), Plus(Finite(s), Finite(d)));
    forall i | 0 <= i < |dayAppointments|
      ensures test(dayAppointments[i])
          <==> (dayAppointments[i].status != Cancelled
               && exists x :: s <= x < s + d && InSpan(x, StartOf(dayAppointments[i]), EndOf(dayAppointments[i])))
    {
      ConflictIffShareMinute(dayAppointments[i], s, d);
    }
  }

  /** Touching endpoints do not conflict: a slot that starts when an
      appointment ends, or ends when it starts, is free of that appointment. */
  lemma TouchingEndpointsFree(apt: Appointment, slotStart: int, duration: int)
    requires HasClockTimes(apt)
    requires slotStart == EndOf(apt) || slotStart + duration == StartOf(apt)
    ensures !Conflicts(apt, Finite(slotStart), Plus(Finite(slotStart), Finite(duration)))
  {
  }

  // ---------------------------------------------------------------------
  // Treatments

  /** `sessionStorage.getItem("salon_location") || "neumarkt"`. */
  function CurrentLocation(stored: Option<string>): (loc: string)
    ensures stored.Some? && stored.value != "" ==> loc == stored.value
    ensures stored.None? || stored.value == "" ==> loc == "neumarkt"
  {
    if stored.Some? && stored.value != "" then stored.value else "neumarkt"
  }

  /** A treatment is offered when its `available_at` is missing, empty, or
      names the location. */
  function OfferedAt(location: string): Treatment -> bool
  {
    (t: Treatment) => t.available_at.None? || |t.available_at.value| == 0 || location in t.available_at.value
  }

  /** The treatments shown in step 2: the offered ones, in catalogue order.
      A catalogue without location restrictions is shown whole. */
  function OfferedTreatments(all: seq<Treatment>, location: string): (r: seq<Treatment>)
    ensures |r| <= |all|
    ensures (forall i :: 0 <= i < |all| ==> all[i].available_at.None? || |all[i].available_at.value| == 0)
      ==> r == all
  {
    UnrestrictedCatalogueKept(all, location);
    Filter(all, OfferedAt(location))
  }

  /** A catalogue without location restrictions passes the filter whole. */
  lemma UnrestrictedCatalogueKept(all: seq<Treatment>, location: string)
    ensures (forall i :: 0 <= i < |all| ==> all[i].available_at.None? || |all[i].available_at.value| == 0)
      ==> Filter(all, OfferedAt(location)) == all
  {
    if forall i :: 0 <= i < |all| ==> all[i].available_at.None? || |all[i].available_at.value| == 0 {
      FilterKeepsAll(all, OfferedAt(location));
    }
  }

  /** Exactly the offered treatments are listed, each at most as often as in
      the catalogue, and a treatment restricted to other locations is not. */
  lemma OfferedTreatmentsSpec(all: seq<Treatment>, location: string)
    ensures var shown := OfferedTreatments(all, location);
      && (forall i :: 0 <= i < |shown| ==> shown[i] in all && OfferedAt(location)(shown[i]))
      && (forall i :: 0 <= i < |all| && OfferedAt(location)(all[i]) ==> all[i] in shown)
      && multiset(shown) <= multiset(all)
      && (forall i :: 0 <= i < |shown| ==>
            shown[i].available_at.None? || |shown[i].available_at.value| == 0 || location in shown[i].available_at.value)
  {
    var shown := OfferedTreatments(all, location);
    FilterMembers(all, OfferedAt(location));
    FilterSubMultiset(all, OfferedAt(location));
    forall i | 0 <= i < |shown|
      ensures shown[i].available_at.None? || |shown[i].available_at.value| == 0
            || location in shown[i].available_at.value
    {
      assert OfferedAt(location)(shown[i]);
    }
  }

  function CategoryOf(t: Treatment): string
  {
    t.category
  }

  /** `treatmentsByCategory`: a `reduce` pushing each listed treatment into
      the list of its category. */
  method TreatmentsByCategory(treatments: seq<Treatment>) returns (byCategory: map<string, seq<Treatment>>)
    ensures forall c :: c in byCategory ==> byCategory[c] == Bucket(treatments, CategoryOf, c)
    ensures forall c :: c !in byCategory ==> Bucket(treatments, CategoryOf, c) == []
  {
    byCategory := GroupBy(treatments, CategoryOf);
  }

  /** Every listed treatment appears in its own category's list and in no
      other, and each list keeps the listing order. */
  lemma TreatmentInOwnCategoryOnly(treatments: seq<Treatment>, i: int, c: string)
    requires 0 <= i < |treatments|
    ensures treatments[i] in Bucket(treatments, CategoryOf, c) <==> treatments[i].category == c
    ensures Bucket(treatments, CategoryOf, c) == Filter(treatments, HasKey(CategoryOf, c))
  {
    InOwnBucketOnly(treatments, CategoryOf, i, c);
    BucketIsFilter(treatments, CategoryOf, c);
  }

  // ---------------------------------------------------------------------
  // The booking request

  /** The body posted to `salon-book-appointment`. */
  datatype BookingRequest = BookingRequest(
    session_token: string,
    customer_id: string,
    treatment_id: string,
    location: string,
    date: string,
    start_time: string,
    end_time: string,
    duration_minutes: int,
    price_eur: real)

  /** JavaScript truthiness of an optional string: present and non-empty. */
  predicate Truthy(s: Option<string>)
  {
    s.Some? && s.value != ""
  }

  /** The request `handleBook` sends, or `None` when a selection is missing
      (the handler returns at once). The end time is the start plus the
      treatment's duration, rendered as a clock time. */
  function BookRequest(customer: Option<CustomerSearchResult>, treatment: Option<Treatment>,
                       date: Option<string>, time: Option<string>,
                       storedLocation: Option<string>, storedToken: Option<string>): (r: Option<BookingRequest>)
    ensures r.Some? <==> customer.Some? && treatment.Some? && Truthy(date) && Truthy(time)
    ensures r.Some? ==>
      && r.value.customer_id == customer.value.customer.id
      && r.value.treatment_id == treatment.value.id
      && r.value.date == date.value && r.value.start_time == time.value
      && r.value.location == CurrentLocation(storedLocation)
      && r.value.duration_minutes == treatment.value.duration_minutes
      && r.value.price_eur == treatment.value.price_eur
      && r.value.session_token == (if Truthy(storedToken) then storedToken.value else "")
  {
    if customer.None? || treatment.None? || !Truthy(date) || !Truthy(time) then None
    else
      var duration := treatment.value.duration_minutes;
      var endMinutes := Plus(Calendar.TimeToMinutes(time.value), Finite(duration));
      Some(BookingRequest(
        if Truthy(storedToken) then storedToken.value else "",
        customer.value.customer.id,
        treatment.value.id,
        CurrentLocation(storedLocation),
        date.value,
        time.value,
        FormatClock(endMinutes),
        duration,
        treatment.value.price_eur))
  }

  /** For a readable start time and a non-negative duration, the end time
      reads back as start plus duration. */
  lemma BookedEndTime(customer: CustomerSearchResult, treatment: Treatment, date: string, time: string,
                      storedLocation: Option<string>, storedToken: Option<string>)
    requires date != "" && time != ""
    requires Calendar.TimeToMinutes(time).Finite? && treatment.duration_minutes >= 0
    ensures var r := BookRequest(Some(customer), Some(treatment), Some(date), Some(time), storedLocation, storedToken);
      Calendar.TimeToMinutes(r.value.end_time) == Finite(Calendar.TimeToMinutes(time).value + treatment.duration_minutes)
  {
    var start := Calendar.TimeToMinutes(time);
    var r := BookRequest(Some(customer), Some(treatment), Some(date), Some(time), storedLocation, storedToken);
    assert r.value.end_time == FormatClock(Plus(start, Finite(treatment.duration_minutes)));
    EndTimeRoundTrip(start.value, treatment.duration_minutes);
  }

  /** The rendered end of a non-negative start plus a non-negative duration
      reads back as their sum. */
  lemma EndTimeRoundTrip(start: int, duration: int)
    requires start >= 0 && duration >= 0
    ensures Calendar.TimeToMinutes(FormatClock(Plus(Finite(start), Finite(duration)))) == Finite(start + duration)
  {
    var e: nat := start + duration;
    assert Plus(Finite(start), Finite(duration)) == Finite(e);
    assert FormatClock(Finite(e)) == ClockLabel(e);
    ClockLabelRoundTrip(e);
  }

  // ---------------------------------------------------------------------
  // The wizard

  /** The wizard's state: the step (1 customer, 2 treatment, 3 date and time,
      4 confirmation), the four selections, the customer search, the
      treatments listed in step 2 and the day's appointments used for
      blocking slots. */
  class Wizard {
    var step: int
    var customer: Option<CustomerSearchResult>
    var treatment: Option<Treatment>
    var date: Option<string>
    var time: Option<string>
    var searchQuery: string
    var searchResults: seq<CustomerSearchResult>
    var treatments: seq<Treatment>
    var dayAppointments: seq<Appointment>
    var booked: bool

    ghost predicate Valid()
      reads this
    {
      1 <= step <= 4
    }

    constructor ()
      ensures Valid() && step == 1
      ensures customer == None && treatment == None && date == None && time == None
      ensures searchQuery == "" && searchResults == [] && treatments == [] && dayAppointments == [] && !booked
    {
      step := 1;
      customer, treatment, date, time := None, None, None, None;
      searchQuery := "";
      searchResults := [];
      treatments := [];
      dayAppointments := [];
      booked := false;
    }

    /** Typing in the search box. Below two characters the results are
        cleared and nothing is searched; otherwise the search runs (after
        the debounce) and a failure clears the results. */
    method Search(query: string, search: string -> Result<seq<CustomerSearchResult>>)
      requires Valid()
      modifies this
      ensures Valid() && searchQuery == query
      ensures |query| < 2 ==> searchResults == []
      ensures |query| >= 2 ==> searchResults == (if search(query).Ok? then search(query).value else [])
      ensures step == old(step) && customer == old(customer) && treatment == old(treatment)
      ensures date == old(date) && time == old(time)
      ensures treatments == old(treatments) && dayAppointments == old(dayAppointments) && booked == old(booked)
    {
      searchQuery := query;
      if |query| < 2 {
        searchResults := [];
      } else {
        var r := search(query);
        searchResults := if r.Ok? then r.value else [];
      }
    }

    /** Choosing a customer in step 1 moves to step 2. */
    method ChooseCustomer(c: CustomerSearchResult)
      modifies this
      ensures Valid() && step == 2 && customer == Some(c)
      ensures treatment == old(treatment) && date == old(date) && time == old(time)
      ensures searchQuery == old(searchQuery) && searchResults == old(searchResults)
      ensures treatments == old(treatments) && dayAppointments == old(dayAppointments) && booked == old(booked)
    {
      customer := Some(c);
      step := 2;
    }

    /** The effect run on entering step 2: while no treatment is listed,
        the catalogue is fetched (`catalogue` is its answer) and the
        treatments offered at the salon's location are listed. A failed
        fetch lists none. A non-empty list is kept for later visits to
        step 2 and across `resetWizard`. */
    method LoadTreatments(storedLocation: Option<string>, catalogue: Result<seq<Treatment>>)
      requires Valid()
      modifies this
      ensures Valid()
      ensures old(step) == 2 && old(treatments) == [] && catalogue.Ok? ==>
        treatments == OfferedTreatments(catalogue.value, CurrentLocation(storedLocation))
      ensures !(old(step) == 2 && old(treatments) == [] && catalogue.Ok?) ==> treatments == old(treatments)
      ensures step == old(step) && customer == old(customer) && treatment == old(treatment)
      ensures date == old(date) && time == old(time)
      ensures searchQuery == old(searchQuery) && searchResults == old(searchResults)
      ensures dayAppointments == old(dayAppointments) && booked == old(booked)
    {
      if step == 2 && |treatments| == 0 && catalogue.Ok? {
        treatments := OfferedTreatments(catalogue.value, CurrentLocation(storedLocation));
      }
    }

    /** Choosing one of the listed treatments in step 2 moves to step 3. */
    method ChooseTreatment(t: Treatment)
      requires t in treatments
      modifies this
      ensures Valid() && step == 3 && treatment == Some(t)
      ensures customer == old(customer) && date == old(date) && time == old(time)
      ensures searchQuery == old(searchQuery) && searchResults == old(searchResults)
      ensures treatments == old(treatments) && dayAppointments == old(dayAppointments) && booked == old(booked)
    {
      treatment := Some(t);
      step := 3;
    }

    /** Choosing a day selects it and forgets the chosen time. */
    method ChooseDate(d: string)
      requires Valid()
      modifies this
      ensures Valid() && date == Some(d) && time == None
      ensures step == old(step) && customer == old(customer) && treatment == old(treatment)
      ensures searchQuery == old(searchQuery) && searchResults == old(searchResults)
      ensures treatments == old(treatments) && dayAppointments == old(dayAppointments) && booked == old(booked)
    {
      date := Some(d);
      time := None;
    }

    /** The effect run when the date changes: the day's appointments at the
        salon's location, or none when the call fails. */
    method LoadDayAppointments(storedLocation: Option<string>, fetch: Calendar.Query -> Result<seq<Appointment>>)
      requires Valid()
      modifies this
      ensures Valid()
      ensures date.None? ==> dayAppointments == old(dayAppointments)
      ensures date.Some? ==>
        var r := fetch(Calendar.Query(date.value, Some(CurrentLocation(storedLocation))));
        dayAppointments == if r.Ok? then r.value else []
      ensures step == old(step) && customer == old(customer) && treatment == old(treatment)
      ensures date == old(date) && time == old(time)
      ensures searchQuery == old(searchQuery) && searchResults == old(searchResults)
      ensures treatments == old(treatments) && booked == old(booked)
    {
      if date.Some? {
        var r := fetch(Calendar.Query(date.value, Some(CurrentLocation(storedLocation))));
        dayAppointments := if r.Ok? then r.value else [];
      }
    }

    /** Clicking a slot: a free slot becomes the chosen time and moves to
        step 4; a blocked slot changes nothing. */
    method ClickSlot(slot: string)
      requires Valid()
      modifies this
      ensures Valid()
      ensures IsSlotBlocked(treatment, dayAppointments, slot) ==>
        step == old(step) && time == old(time)
      ensures !IsSlotBlocked(treatment, dayAppointments, slot) ==>
        step == 4 && time == Some(slot)
      ensures customer == old(customer) && treatment == old(treatment) && date == old(date)
      ensures searchQuery == old(searchQuery) && searchResults == old(searchResults)
      ensures treatments == old(treatments) && dayAppointments == old(dayAppointments) && booked == old(booked)
    {
      if !IsSlotBlocked(treatment, dayAppointments, slot) {
        time := Some(slot);
        step := 4;
      }
    }

    /** The "Zurueck" button of steps 2, 3 and 4: one step back, keeping the
        selections. */
    method Back()
      requires Valid() && step > 1
      modifies this
      ensures Valid() && step == old(step) - 1
      ensures customer == old(customer) && treatment == old(treatment)
      ensures date == old(date) && time == old(time)
      ensures searchQuery == old(searchQuery) && searchResults == old(searchResults)
      ensures treatments == old(treatments) && dayAppointments == old(dayAppointments) && booked == old(booked)
    {
      step := step - 1;
    }

    /** `handleBook`: with all four selections set, posts the request and
        marks the booking done when the server accepts it; otherwise sends
        nothing and changes nothing. */
    method Book(storedLocation: Option<string>, storedToken: Option<string>, accepted: BookingRequest -> bool)
        returns (sent: Option<BookingRequest>)
      requires Valid()
      modifies this
      ensures Valid()
      ensures sent == BookRequest(customer, treatment, date, time, storedLocation, storedToken)
      ensures booked == (old(booked) || (sent.Some? && accepted(sent.value)))
      ensures step == old(step) && customer == old(customer) && treatment == old(treatment)
      ensures date == old(date) && time == old(time)
      ensures searchQuery == old(searchQuery) && searchResults == old(searchResults)
      ensures treatments == old(treatments) && dayAppointments == old(dayAppointments)
    {
      sent := BookRequest(customer, treatment, date, time, storedLocation, storedToken);
      if sent.Some? && accepted(sent.value) {
        booked := true;
      }
    }

    /** `resetWizard`: back to step 1 with nothing selected and no search. */
    method Reset()
      modifies this
      ensures Valid() && step == 1
      ensures customer == None && treatment == None && date == None && time == None
      ensures searchQuery == "" && searchResults == [] && !booked
      ensures treatments == old(treatments) && dayAppointments == old(dayAppointments)
    {
      step := 1;
      customer, treatment, date, time := None, None, None, None;
      searchQuery := "";
      searchResults := [];
      booked := false;
    }
  }
}
