# Hautschimmer CRM — verified model of the client-side logic

This project models, in Dafny, the logic that the Hautschimmer CRM web
application runs in the browser for a two-location beauty salon (Neumarkt and
KW). It covers:

- **Salon booking wizard.** The half-hour slot grid and the slot-conflict test
  against the day's appointments. The end time sent with a booking. The
  treatments offered at the salon's location, grouped by category. The
  wizard's four steps and its selections.
- **Dashboard calendar.** Date formatting and day stepping. The
  Monday-of-the-week rule. The seven requests of the week view and the
  grouping of appointments by date. The status badge and colour tables. The
  page's navigation state.
- **Customer portal.** The appointment list: the split into upcoming and past
  appointments, and the two-key sort.
- **Dashboard home page.** The greeting, the confirmed count, the age shown
  for upcoming birthdays, and the today/tomorrow schedule tabs.
- **Campaigns.** The aggregates and percentage rendering on the campaign
  list. The four-step campaign wizard: its per-step rules, its segment filter
  and its choice of body.
- **Customer screens.** The customer form: validation, the
  trim-and-null-if-empty payload and the save outcome. The treatment-log
  dialog. The customer list: search or overview, the overview defaults, the
  sort by name, the tag cell and the empty-state title.
- **Toast store.** The module-level list: append and dismiss-by-id, with its
  timers as explicit events.
- **Small helpers.** Avatar initials, the salon PIN filter, and the
  dashboard navigation's active rule and mobile menu.

The program's records (`lib/types.ts`) become datatypes. String unions
become enumerations, each with a wire-name parser. Screens whose state React
updates in place become classes: their handlers are methods with `modifies`
clauses. Everything a handler awaits is a parameter: the database and the
edge functions are functions returning `Result` (a value, or the thrown
error's message), and the clock is an explicit date or hour. JavaScript
semantics are written out where the code relies on them:

- `Number()` of a string, which can give `NaN`;
- truthiness (`x || null`, `x || 0`, `x || ''`);
- `%` with the sign of the dividend;
- `String.prototype.trim` and `split(/\s+/)`;
- `slice`, `padStart` and `startsWith`;
- string comparison with `<`;
- `new Date(y, m, d)` rolling 29 February over into March.

Modules, one per file:

- `base.dfy`: `Base`, the sequence operations the code reaches through array
  methods (filter, some, reduce into buckets, a sort with a comparator,
  `flat`, sums).
- `text.dfy`: `Text`, the string and number semantics listed above.
- `civil_date.dfy`: `CivilDate`, proleptic Gregorian dates as triples, day
  stepping and weekdays.
- `types.dfy`: `Types`, the records and enumerations.
- `booking.dfy`: `Booking`.
- `calendar.dfy`: `Calendar`.
- `portal.dfy`: `Portal`.
- `dashboard.dfy`: `Dashboard`.
- `campaigns.dfy`: `Campaigns`.
- `campaign_form.dfy`: `CampaignWizard`.
- `customer_form.dfy`: `CustomerForm`.
- `treatment_log.dfy`: `TreatmentLog`.
- `customer_list.dfy`: `CustomerList`.
- `toasts.dfy`: `Toasts`.
- `avatar.dfy`: `Avatar`.
- `salon_pin.dfy`: `SalonPin`.
- `nav.dfy`: `Nav`.

## Model

| member | source | states |
|---|---|---|
| Types.ParseLocation | lib/types.ts:185 | accepts exactly the wire names "neumarkt" and "kw" |
| Types.ParseStatus | lib/types.ts:56 | an appointment status is exactly one of confirmed, completed, cancelled, no_show |
| Types.ParseCampaignStatus | lib/types.ts:120 | a campaign status is exactly one of draft, scheduled, sending, sent, cancelled |
| Types.ParseNoteType | lib/types.ts:76 | a note type is exactly one of the five listed names |
| Types.ParseRecordSource | lib/types.ts:77 | a record source is exactly one of manual, telegram, voice, ocr |
| Types.ParseTemplateType | lib/types.ts:107 | a template type is exactly one of the four listed names |
| Types.WireNamesDistinct | lib/types.ts:56 | different enumeration values never share a wire name |
| Booking.GenerateTimeSlots | app/salon/buchen/components/booking-wizard.tsx:43-52 | the loop over `h` from 9 to 19 yields exactly 21 slots, slot `i` being the `i`-th half hour from 09:00 |
| Booking.SlotMinutes | app/salon/buchen/components/booking-wizard.tsx:43-52 | slot `i` reads back as 540 + 30·i minutes, so the slots are strictly increasing |
| Booking.SlotWidth | app/salon/buchen/components/booking-wizard.tsx:46-48 | every slot is a zero-padded five-character `HH:MM` with the colon at position 2 |
| Booking.SlotGridEnds | app/salon/buchen/components/booking-wizard.tsx:42-52 | the grid starts at "09:00", ends at "19:00" and has no "19:30" |
| Booking.NineteenThirty | app/salon/buchen/components/booking-wizard.tsx:47-48 | "19:30" is the label of 1170 minutes and reads back as 1170, past the last slot at 1140 |
| Booking.IsSlotBlocked | app/salon/buchen/components/booking-wizard.tsx:125-140 | a blocked slot needs a chosen treatment and some non-cancelled appointment of the day |
| Booking.Overlaps | app/salon/buchen/components/booking-wizard.tsx:138 | two intervals overlap only when all four bounds are numbers: a NaN bound never overlaps |
| Booking.Conflicts | app/salon/buchen/components/booking-wizard.tsx:132-139 | a conflicting appointment is not cancelled and both of its times read as numbers |
| Booking.ConflictsWith | app/salon/buchen/components/booking-wizard.tsx:132-139 | the test passed to `some` never accepts a cancelled appointment, and accepts nothing for a slot with a NaN bound |
| Booking.NoTreatmentNothingBlocked | app/salon/buchen/components/booking-wizard.tsx:126 | with no treatment selected, no slot is blocked |
| Booking.CancelledNeverBlock | app/salon/buchen/components/booking-wizard.tsx:133 | dropping all cancelled appointments changes no slot's blocked state |
| Booking.AddingAppointmentOnlyBlocks | app/salon/buchen/components/booking-wizard.tsx:132-139 | one more appointment can only block more slots, and a cancelled one blocks nothing new |
| Booking.UnreadableSlotNeverBlocked | app/salon/buchen/components/booking-wizard.tsx:128-138 | a slot time that parses to NaN is never blocked, because every comparison with NaN is false |
| Booking.OverlapsIffShareMinute | app/salon/buchen/components/booking-wizard.tsx:138 | for non-empty intervals, the two comparisons hold iff the half-open intervals share a minute |
| Booking.ConflictIffShareMinute | app/salon/buchen/components/booking-wizard.tsx:133-138 | a live appointment with readable times conflicts iff it shares a minute with the slot |
| Booking.BlockedIffShareMinute | app/salon/buchen/components/booking-wizard.tsx:125-140 | a slot is blocked iff some non-cancelled appointment shares a minute with `[start, start + duration)` |
| Booking.TouchingEndpointsFree | app/salon/buchen/components/booking-wizard.tsx:138 | a slot that starts at an appointment's end, or ends at its start, is free |
| Booking.JsRem | app/salon/buchen/components/booking-wizard.tsx:151 | JavaScript's `%`: the remainder has the dividend's sign and agrees with `%` for non-negative dividends |
| Booking.ClockLabel | app/salon/buchen/components/booking-wizard.tsx:151 | the label ends in a colon and two digits worth `e % 60`; below 100 hours it is five characters whose first two digits are worth `e / 60` |
| Booking.FormatClock | app/salon/buchen/components/booking-wizard.tsx:151 | for non-negative minutes the end time is the zero-padded `floor(e/60):e%60` label |
| Booking.ClockLabelRoundTrip | app/salon/buchen/components/booking-wizard.tsx:151 | a rendered clock label parses back to the minutes it came from |
| Booking.EndTimeDoesNotWrap | app/salon/buchen/components/booking-wizard.tsx:150-151 | hours keep counting past midnight: 23:30 plus 60 minutes renders as "24:30" |
| Booking.CurrentLocation | app/salon/buchen/components/booking-wizard.tsx:103 | the stored location, or "neumarkt" when it is missing or empty |
| Booking.OfferedTreatments | app/salon/buchen/components/booking-wizard.tsx:106-108 | never more treatments than the catalogue; a catalogue without location restrictions is offered whole, in order |
| Booking.OfferedTreatmentsSpec | app/salon/buchen/components/booking-wizard.tsx:106-108 | a treatment is listed iff `available_at` is missing, empty or holds the location, in catalogue order |
| Booking.TreatmentsByCategory | app/salon/buchen/components/booking-wizard.tsx:195-202 | each category maps to exactly the treatments of that category, in list order, and no other category appears |
| Booking.TreatmentInOwnCategoryOnly | app/salon/buchen/components/booking-wizard.tsx:195-202 | a treatment is in a category's list iff that is its category |
| Booking.BookRequest | app/salon/buchen/components/booking-wizard.tsx:143-172 | a request exists iff customer, treatment, date and time are all set; it carries their ids, the date, the start time, the location, the duration, the treatment's price and the stored session token or "" |
| Booking.BookedEndTime | app/salon/buchen/components/booking-wizard.tsx:148-151 | the request's end time is the start's minutes plus the duration, rendered as a clock label |
| Booking.EndTimeRoundTrip | app/salon/buchen/components/booking-wizard.tsx:148-151 | the end time read back is start + duration, with no wrap at midnight |
| Booking.Wizard.constructor | app/salon/buchen/components/booking-wizard.tsx:55-78 | the wizard starts at step 1 with no selections, no search, no treatments and no appointments |
| Booking.Wizard.Search | app/salon/buchen/components/booking-wizard.tsx:81-97 | a query under 2 characters clears the results without searching; otherwise the results are the search's, or empty on failure |
| Booking.Wizard.ChooseCustomer | app/salon/buchen/components/booking-wizard.tsx:268-270 | picking a customer selects it and moves to step 2, keeping the other selections |
| Booking.Wizard.LoadTreatments | app/salon/buchen/components/booking-wizard.tsx:100-114 | on step 2 with no treatment listed, a successful fetch lists the treatments offered at the current location; otherwise the list is kept; nothing else changes |
| Booking.Wizard.ChooseTreatment | app/salon/buchen/components/booking-wizard.tsx:333-336 | picking a listed treatment selects it and moves to step 3 |
| Booking.Wizard.ChooseDate | app/salon/buchen/components/booking-wizard.tsx:391-392 | choosing a date selects it and resets the time to null |
| Booking.Wizard.LoadDayAppointments | app/salon/buchen/components/booking-wizard.tsx:117-123 | with a date, the day's appointments at the current location are loaded, or empty on failure; without a date nothing changes |
| Booking.Wizard.ClickSlot | app/salon/buchen/components/booking-wizard.tsx:416-424 | a blocked slot changes neither the selection nor the step; a free one becomes the time and moves to step 4 |
| Booking.Wizard.Back | app/salon/buchen/components/booking-wizard.tsx:305 | the back buttons of steps 2 to 4 go one step back and keep every selection |
| Booking.Wizard.Book | app/salon/buchen/components/booking-wizard.tsx:142-184 | sends exactly the request above, or nothing when a selection is missing; marks the booking done only when the server accepts it |
| Booking.Wizard.Reset | app/salon/buchen/components/booking-wizard.tsx:186-192 | back to step 1 with all four selections null, no query, no results, not booked; the treatment list and the day's appointments are kept |
| Calendar.TimeToMinutes | app/dashboard/kalender/page.tsx:51-54 | the result is never negative, and it is NaN when the string has no colon |
| Calendar.TimeToMinutesOfClock | app/dashboard/kalender/page.tsx:51-54 | "HH:MM" and "HH:MM:SS" give 60·HH + MM, so seconds do not matter |
| Calendar.FormatTimeSlot | app/dashboard/kalender/page.tsx:35 | the first five characters, or the whole string when it is shorter |
| Calendar.FormatTimeSlotDropsSeconds | app/dashboard/page.tsx:34-37 | "HH:MM:SS" and "HH:MM" show the same; the same slice also serves the portal's `formatTime` (app/portal/termine/page.tsx:101) |
| Calendar.FormatDateISO | app/dashboard/kalender/page.tsx:20-25 | at least seven characters |
| Calendar.FormatDateISOFields | app/dashboard/kalender/page.tsx:20-25 | the string is the year, a dash, two digits worth the 1-based month, a dash, two digits worth the day |
| Calendar.FormatDateISOInjective | app/dashboard/kalender/page.tsx:20-25 | two days have the same ISO string iff they are the same day |
| Calendar.ParseDateISO | app/dashboard/kalender/page.tsx:407 | an accepted date-input value names an existing day |
| Calendar.ParseFormatDateISO | app/dashboard/kalender/page.tsx:407 | parsing the formatted date gives the day back (four-digit years) |
| Calendar.DaysSinceMonday | app/dashboard/kalender/page.tsx:44-45 | the distance back to Monday lies in 0..6 |
| Calendar.WeekStartDiff | app/dashboard/kalender/page.tsx:45 | `diff` (−6 for Sunday, `1 − day` otherwise) lands on Monday and lies in −6..0 |
| Calendar.WeekStart | app/dashboard/kalender/page.tsx:43-49 | the result is a Monday, and the given day lies 0 to 6 days after it |
| Calendar.WeekStartUnique | app/dashboard/kalender/page.tsx:43-49 | the Monday at most six days back is unique |
| Calendar.WeekStartOfWeekDay | app/dashboard/kalender/page.tsx:43-49 | all seven days of a week share the week start |
| Calendar.WeekStartShift | app/dashboard/kalender/page.tsx:384 | moving ±7 days moves the week start by the same week |
| Calendar.LocationParam | app/dashboard/kalender/page.tsx:309 | 'all' sends no location constraint; any other value is passed through |
| Calendar.DayQuery | app/dashboard/kalender/page.tsx:307-310 | the call for a day asks for its ISO date, which reads back as that day, and for no location exactly when the filter is 'all' |
| Calendar.WeekQueries | app/dashboard/kalender/page.tsx:314-320 | seven requests, request `i` for `weekStart + i` with the same location constraint |
| Calendar.WeekQueriesConsecutive | app/dashboard/kalender/page.tsx:314-320 | each request is for the day after the previous one |
| Calendar.WeekQueriesDistinct | app/dashboard/kalender/page.tsx:314-320 | the seven requested days are pairwise different |
| Calendar.WeekQueriesCoverWeek | app/dashboard/kalender/page.tsx:300-320 | the requests start on the selected day's Monday, are for seven distinct days, and include the selected day |
| Calendar.WeekResults | app/dashboard/kalender/page.tsx:321-322 | the week succeeds iff every one of the seven calls succeeds |
| Calendar.AppointmentsByDate | app/dashboard/kalender/page.tsx:331-338 | each date maps to exactly its appointments in load order; nothing is grouped before the first load |
| Calendar.DayAppointments | app/dashboard/kalender/page.tsx:340 | the list grouped under the day, or an empty list for a day with none |
| Calendar.DayAppointmentsIsBucket | app/dashboard/kalender/page.tsx:340 | looking up a day gives that day's appointments in load order, or none |
| Calendar.GroupedDayResults | app/dashboard/kalender/page.tsx:321-338 | grouping the concatenated results of distinct days files each day's result under that day |
| Calendar.WeekBucketsAreDayResults | app/dashboard/kalender/page.tsx:314-338 | in the week view, each day shows exactly the result of the call for that day |
| Calendar.InOwnDateOnly | app/dashboard/kalender/page.tsx:331-338 | an appointment is listed under its own date and no other |
| Calendar.StatusVariant | app/dashboard/kalender/page.tsx:66-81 | completed gives success, cancelled danger, no_show warning, and everything else (confirmed and unknown) default |
| Calendar.StatusVariantOfStatus | app/dashboard/page.tsx:55-70 | each of the four statuses has its fixed badge; the dashboard's copy of the table is the same |
| Calendar.StatusColor | app/dashboard/kalender/page.tsx:83-96 | the neutral style is used iff the status is none of the four |
| Calendar.StatusColorDistinct | app/dashboard/kalender/page.tsx:83-96 | the four statuses get four different styles |
| Calendar.LocationLabel | app/dashboard/page.tsx:87-89 | "KW" iff the location is "kw", otherwise "Neumarkt"; the calendar's copy (app/dashboard/kalender/page.tsx:56-57) is the same |
| Calendar.NavigationStep | app/dashboard/kalender/page.tsx:384 | the arrows move 7 days in the week view and 1 day in the day view |
| Calendar.NavigationInverse | app/dashboard/kalender/page.tsx:384-400 | back after forward returns to the same day |
| Calendar.WeekNavigationMovesWeek | app/dashboard/kalender/page.tsx:384-400 | in the week view an arrow moves the displayed week by exactly one week |
| Calendar.CalendarPage.constructor | app/dashboard/kalender/page.tsx:292-296 | starts on today, day view, all locations, nothing loaded, no error |
| Calendar.CalendarPage.Previous | app/dashboard/kalender/page.tsx:384 | the selected day moves back by the view's step; nothing else changes |
| Calendar.CalendarPage.Next | app/dashboard/kalender/page.tsx:400 | the selected day moves forward by the view's step; nothing else changes |
| Calendar.CalendarPage.GoToday | app/dashboard/kalender/page.tsx:392 | selects today |
| Calendar.CalendarPage.PickDate | app/dashboard/kalender/page.tsx:407 | a well-formed input selects that day; anything else keeps the selection |
| Calendar.CalendarPage.SetView | app/dashboard/kalender/page.tsx:362-369 | switches the view only |
| Calendar.CalendarPage.SetLocationFilter | app/dashboard/kalender/page.tsx:423 | sets the filter only |
| Calendar.CalendarPage.Load | app/dashboard/kalender/page.tsx:302-329 | one call for the day, or the seven week calls concatenated in day order; on failure the message is shown and the list kept |
| CivilDate.AddDays | app/dashboard/kalender/page.tsx:37-41 | moving forward gives a later valid day, moving back an earlier one |
| CivilDate.AddDaysAdd | app/dashboard/kalender/page.tsx:37-41 | moving by `a` and then by `b` is moving by `a + b` |
| CivilDate.AddDaysInverse | app/dashboard/kalender/page.tsx:37-41 | `addDays(addDays(d, n), -n)` is `d` |
| CivilDate.NextDay | app/dashboard/kalender/page.tsx:37-41 | the next calendar day is a valid date after the given one |
| CivilDate.Weekday | app/dashboard/kalender/page.tsx:44 | `getDay()` lies in 0..6 |
| CivilDate.WeekdayOfEpoch | app/dashboard/kalender/page.tsx:44 | 1 January 1970 is a Thursday (4), which with `WeekdayAddDays` fixes every weekday |
| CivilDate.WeekdayAddDays | app/dashboard/kalender/page.tsx:44 | the weekday advances by `n` modulo 7 |
| CivilDate.AddDaysStep | app/dashboard/kalender/page.tsx:37-41 | moving by `n + 1` days is moving by `n` and then to the next calendar day |
| CivilDate.DaysInMonth | app/dashboard/kalender/page.tsx:39 | months have 28 to 31 days, 29 exactly for February of a leap year, which is where `setDate` rolls over |
| Calendar.SplitClock | app/dashboard/kalender/page.tsx:52 | splitting `HH:MM` or `HH:MM:SS…` on ':' gives the hour and the minute fields first |
| Calendar.TimeToMinutesOfFields | app/dashboard/kalender/page.tsx:51-54 | when the first two fields are digit strings, the result is 60 · hours + minutes |
| Text.Trim | app/dashboard/kunden/components/customer-form.tsx:38 | `trim()`: never longer, no white space at either end, empty exactly for a blank string |
| Text.TrimIdempotent | app/dashboard/kunden/components/customer-form.tsx:51-57 | trimming a trimmed value changes nothing |
| Text.ToNumber | app/dashboard/kalender/page.tsx:52 | a finite `Number()` of a field is never negative |
| Text.ToNumberTrims | app/dashboard/kalender/page.tsx:52 | `Number()` trims the field: a blank field is 0, a run of decimal digits is its value, anything else is NaN |
| Text.IntToString | app/dashboard/kalender/page.tsx:21-24 | `String(i)`: the decimal digits of `i`, after a minus sign when it is negative |
| Text.IntToStringInjective | app/dashboard/kalender/page.tsx:21-24 | different years print differently |
| Text.PadStart2 | app/dashboard/kalender/page.tsx:22-23 | `padStart(2, '0')`: at least two characters, the input at the end, zeros before it |
| Text.NatToString | app/dashboard/kalender/page.tsx:22 | `String(n)`: a digit string worth `n`, with no leading zero unless `n` is 0 |
| Text.StrLess | app/portal/termine/page.tsx:72 | string `<` puts a proper prefix first |
| Text.StartsWith | components/layout/dashboard-nav.tsx:71 | `startsWith`: the string is the prefix followed by the rest |
| Text.SplitOnSpaces | components/ui/avatar.tsx:17 | `split(/\s+/)` always yields at least one part |
| Text.Split | app/dashboard/kalender/page.tsx:51 | `split(':')` always yields at least one field |
| Text.SplitFields | app/dashboard/kalender/page.tsx:51 | one field more than there are separators, and no field contains the separator |
| Text.Take | app/dashboard/kalender/page.tsx:35 | `slice(0, n)`: the first `n` characters, or the whole string when it is shorter |
| Text.Plus | app/salon/buchen/components/booking-wizard.tsx:130 | `+` on numbers: NaN iff either side is NaN, otherwise the sum |
| Text.Times | app/dashboard/kalender/page.tsx:52 | `* k`: NaN iff the number is NaN, otherwise the product |
| Text.Less | app/salon/buchen/components/booking-wizard.tsx:138 | `<`: false whenever a side is NaN, and the order of integers otherwise |
| Text.TrimAroundVisible | app/dashboard/kunden/components/treatment-log-modal.tsx:67 | trimming blanks, then a part that starts and ends visibly, then anything, keeps the part and trims only the tail |
| Text.FieldsOfTrimmed | components/ui/avatar.tsx:17 | splitting a trimmed name gives at least one part, and when it gives two or more, the first two are non-empty |
| Portal.IsUpcoming | app/portal/termine/page.tsx:72 | an upcoming appointment is not cancelled, and every live appointment dated today is upcoming |
| Portal.IsPast | app/portal/termine/page.tsx:72-78 | an appointment goes to the past list exactly when it is not upcoming |
| Portal.Partition | app/portal/termine/page.tsx:69-78 | the loop's two lists are the appointments passing the upcoming test and the rest, each in fetch order |
| Portal.PartitionStep | app/portal/termine/page.tsx:72-78 | each appointment is pushed onto exactly one list |
| Portal.PartitionExact | app/portal/termine/page.tsx:72-78 | the two lists together are the fetched appointments; one is upcoming iff its date ≥ today and it is not cancelled |
| Portal.UpcomingOrder | app/portal/termine/page.tsx:81 | the comparator never puts a later date first |
| Portal.UpcomingOrderIsTotalPreorder | app/portal/termine/page.tsx:81 | the date-then-start-time comparator is total and transitive |
| Portal.SortUpcoming | app/portal/termine/page.tsx:81 | the sorted list is a permutation of the upcoming list, ordered by the comparator |
| Portal.SortedUpcomingByDateThenTime | app/portal/termine/page.tsx:81 | dates never decrease, and on equal dates start times never decrease |
| Portal.SortUpcomingStable | app/portal/termine/page.tsx:81 | appointments with the same date and start time keep their fetch order |
| Portal.PastKeepsFetchOrder | app/portal/termine/page.tsx:61-76 | a date-descending fetch gives a date-descending past list |
| Portal.AppointmentsPage.constructor | app/portal/termine/page.tsx:21-26 | empty lists, loading, no error |
| Portal.AppointmentsPage.Load | app/portal/termine/page.tsx:32-91 | without a user nothing changes and loading stays on; an unknown customer sets `noCustomer`; otherwise the lists are the sorted upcoming ones and the past ones; errors keep the lists |
| Dashboard.Greeting | app/dashboard/page.tsx:18-23 | "Guten Morgen" iff hour < 12, "Guten Nachmittag" iff 12 ≤ hour < 18, "Guten Abend" iff hour ≥ 18 |
| Dashboard.GreetingChangesTwice | app/dashboard/page.tsx:18-23 | over a day the greeting changes exactly at 12 and at 18 |
| Dashboard.ConfirmedCount | app/dashboard/page.tsx:295-296 | 0 while the schedule is not loaded, and never more than its length |
| Dashboard.ConfirmedCountExtremes | app/dashboard/page.tsx:295-296 | the count is the whole schedule iff all items are confirmed, and 0 iff none is |
| Dashboard.ConfirmedCountSnoc | app/dashboard/page.tsx:295-296 | one more item adds one exactly when it is confirmed |
| Dashboard.BirthdayIn | app/dashboard/page.tsx:308 | the birthday in a year is a valid day of that year |
| Dashboard.BirthdayInYear | app/dashboard/page.tsx:308 | the birthday in a year has the same month and day, except that 29 February becomes 1 March in a common year |
| Dashboard.GetAge | app/dashboard/page.tsx:304-311 | NaN for an unreadable date; otherwise the year difference plus one, minus one while this year's birthday is still ahead |
| Dashboard.UpcomingAgeIsNextBirthday | app/dashboard/page.tsx:304-311 | the shown age is the one turned at the first birthday strictly after today |
| Dashboard.ScheduleCard.constructor | app/dashboard/page.tsx:247-250 | starts on today's tab with no schedule |
| Dashboard.ScheduleCard.SwitchTab | app/dashboard/page.tsx:277-293 | the same tab does nothing; another tab clears the schedule and requests tomorrow's UTC date or the default day |
| Dashboard.ScheduleCard.ScheduleArrived | app/dashboard/page.tsx:286-291 | the answer becomes the schedule, or an empty schedule on failure |
| Campaigns.CampaignStatusVariant | app/dashboard/kampagnen/page.tsx:27-44 | info, warning, success and danger each come from exactly one status; everything else is default |
| Campaigns.CampaignStatusVariantOfStatus | app/dashboard/kampagnen/page.tsx:27-44 | each of the five statuses has its fixed badge |
| Campaigns.RoundedPercent | app/dashboard/kampagnen/page.tsx:48 | the result is within half a unit of `part / total · 100` |
| Campaigns.RoundedPercentBounds | app/dashboard/kampagnen/page.tsx:48 | a part of the total rounds to 0..100 |
| Campaigns.FormatPercent | app/dashboard/kampagnen/page.tsx:46-49 | a zero total gives "0%"; otherwise the rounded percentage followed by "%" |
| Campaigns.OpenRate | app/dashboard/kampagnen/page.tsx:303-306 | the open rate is shown iff something was sent, as the opened share of the sent ones |
| Campaigns.ClickRate | app/dashboard/kampagnen/page.tsx:311-314 | the click rate is shown iff something was sent, as the clicked share of the sent ones |
| Campaigns.ShownRateIsPercentage | app/dashboard/kampagnen/page.tsx:303-306 | a shown open rate is some k% with 0 ≤ k ≤ 100 |
| Campaigns.TotalSent | app/dashboard/kampagnen/page.tsx:179 | 0 before loading, never more than the number of campaigns |
| Campaigns.TotalOpened | app/dashboard/kampagnen/page.tsx:180 | 0 before loading |
| Campaigns.TotalClicked | app/dashboard/kampagnen/page.tsx:181 | 0 before loading |
| Campaigns.TotalsAppend | app/dashboard/kampagnen/page.tsx:179-181 | one more campaign adds 1 to the sent count iff its status is sent, and adds its own opens and clicks |
| Campaigns.ClickedAtMostOpened | app/dashboard/kampagnen/page.tsx:180-181 | when no campaign has more clicks than opens, neither do the totals |
| CampaignWizard.SegmentFilterOf | app/dashboard/kampagnen/components/campaign-form.tsx:74-76 | a location key iff the filter is not 'all', carrying that value; `email_opt_in: true` iff opt-in only |
| CampaignWizard.BuildSegmentFilter | app/dashboard/kampagnen/components/campaign-form.tsx:74-76 | builds that filter; it is empty iff all locations and no opt-in restriction |
| CampaignWizard.FindTemplate | app/dashboard/kampagnen/components/campaign-form.tsx:51 | a found template has the id and is the first in the list that has it; none is found iff no template has the id |
| CampaignWizard.BodyHtml | app/dashboard/kampagnen/components/campaign-form.tsx:79-82 | custom mode, or no template with the selected id, gives the custom HTML |
| CampaignWizard.BodyOfChosenTemplate | app/dashboard/kampagnen/components/campaign-form.tsx:79-82 | in template mode with unique ids, the body is the chosen template's `body_html` |
| CampaignWizard.SendErrorMessage | app/dashboard/kampagnen/components/campaign-form.tsx:103 | a non-empty error is shown as is, otherwise the fallback text; never empty |
| CampaignWizard.CanProceed | app/dashboard/kampagnen/components/campaign-form.tsx:53-66 | step 1 needs a non-blank name and subject; step 2 a selected template id, or non-blank custom HTML; steps 3 and 4 always pass |
| CampaignWizard.CampaignForm.constructor | app/dashboard/kampagnen/components/campaign-form.tsx:28-43 | step 1, empty fields, template mode, all locations, opt-in only |
| CampaignWizard.CampaignForm.SetName | app/dashboard/kampagnen/components/campaign-form.tsx:157 | sets the name only |
| CampaignWizard.CampaignForm.SetSubject | app/dashboard/kampagnen/components/campaign-form.tsx:163 | sets the subject only |
| CampaignWizard.CampaignForm.SetContentMode | app/dashboard/kampagnen/components/campaign-form.tsx:174-181 | sets the content mode only |
| CampaignWizard.CampaignForm.SelectTemplate | app/dashboard/kampagnen/components/campaign-form.tsx:197 | sets the selected template id only |
| CampaignWizard.CampaignForm.SetCustomHtml | app/dashboard/kampagnen/components/campaign-form.tsx:220 | sets the custom HTML only |
| CampaignWizard.CampaignForm.SetAudience | app/dashboard/kampagnen/components/campaign-form.tsx:243-255 | sets the location filter and the opt-in flag only |
| CampaignWizard.CampaignForm.TemplatesLoaded | app/dashboard/kampagnen/components/campaign-form.tsx:45-49 | loaded templates replace the list; a failure keeps it and raises the error toast |
| CampaignWizard.CampaignForm.Next | app/dashboard/kampagnen/components/campaign-form.tsx:329-330 | moves one step on iff the current step can proceed and is not the last; the form stays valid |
| CampaignWizard.CampaignForm.Back | app/dashboard/kampagnen/components/campaign-form.tsx:323 | step 1 closes the wizard; later steps go one back |
| CampaignWizard.CampaignForm.JumpTo | app/dashboard/kampagnen/components/campaign-form.tsx:124 | only an earlier step can be jumped to |
| CampaignWizard.CampaignForm.Send | app/dashboard/kampagnen/components/campaign-form.tsx:68-115 | inserts a draft with the name, subject, chosen body, template id only in template mode, and the segment filter; from step 4 these are non-blank; the toast follows the insert and send outcome |
| CustomerForm.With | app/dashboard/kunden/components/customer-form.tsx:32 | the updated field takes the value and every other field keeps its own |
| CustomerForm.OrEmpty | app/dashboard/kunden/components/customer-form.tsx:22-28 | a missing value shows as the empty string |
| CustomerForm.InitialFields | app/dashboard/kunden/components/customer-form.tsx:21-29 | a new customer starts with empty fields; an existing one with its names and, for email, phone, date of birth, location and notes, its value or "" when absent |
| CustomerForm.NullIfEmpty | app/dashboard/kunden/components/customer-form.tsx:53-57 | the empty string becomes null, anything else stays |
| CustomerForm.PayloadOf | app/dashboard/kunden/components/customer-form.tsx:50-59 | names are trimmed; email, phone and notes are null iff blank, else trimmed; birth date and location are null iff empty and not trimmed; the id is present only when editing |
| CustomerForm.TidyRoundTrip | app/dashboard/kunden/components/customer-form.tsx:24-57 | a stored value that is trimmed and never empty survives showing and saving unchanged |
| CustomerForm.UnchangedFormSavesSameCustomer | app/dashboard/kunden/components/customer-form.tsx:21-59 | saving a tidy customer's form untouched sends back exactly its stored values and id |
| CustomerForm.UnchangedDetails | app/dashboard/kunden/components/customer-form.tsx:26-59 | untouched birth date, location and id come back unchanged |
| CustomerForm.UnchangedNames | app/dashboard/kunden/components/customer-form.tsx:22-52 | untouched trimmed names come back unchanged |
| CustomerForm.UnchangedContacts | app/dashboard/kunden/components/customer-form.tsx:24-57 | untouched tidy email, phone and notes come back unchanged |
| CustomerForm.ValidationErrors | app/dashboard/kunden/components/customer-form.tsx:36-41 | an error for a name iff it is blank, with its message, and for nothing else |
| CustomerForm.Form.constructor | app/dashboard/kunden/components/customer-form.tsx:18-29 | fields from the customer, no errors, editing iff the customer has an id |
| CustomerForm.Form.Update | app/dashboard/kunden/components/customer-form.tsx:31-34 | sets the field; its error is cleared to "" only if one is shown |
| CustomerForm.Form.Validate | app/dashboard/kunden/components/customer-form.tsx:36-42 | the errors are recomputed; valid iff both names are non-blank iff there are no errors |
| CustomerForm.Form.Submit | app/dashboard/kunden/components/customer-form.tsx:44-76 | nothing is sent when invalid; otherwise the normalised payload is sent and the toast is "Kundin aktualisiert" or "Neue Kundin angelegt" on success, the server's error or the fallback otherwise |
| TreatmentLog.LinkableAppointments | app/dashboard/kunden/components/treatment-log-modal.tsx:46-52 | on success exactly the confirmed or completed appointments, at most as often as loaded; none on failure |
| TreatmentLog.LinkableKeepsLoadOrder | app/dashboard/kunden/components/treatment-log-modal.tsx:46-52 | the linkable appointments keep the load order: any order the loaded list has, they have too |
| TreatmentLog.LogPayloadOf | app/dashboard/kunden/components/treatment-log-modal.tsx:65-77 | trimmed notes, the note type, source manual; the appointment only when chosen; the follow-up only when requested with a date |
| TreatmentLog.LogPayloadIgnoresUnsentInput | app/dashboard/kunden/components/treatment-log-modal.tsx:65-77 | a follow-up date typed with the box unticked is not sent, and white space around the notes does not change the record |
| TreatmentLog.BuildPayload | app/dashboard/kunden/components/treatment-log-modal.tsx:65-77 | adding the optional entries one by one builds exactly that record |
| TreatmentLog.LogModal.constructor | app/dashboard/kunden/components/treatment-log-modal.tsx:28-35 | the default form and no appointments |
| TreatmentLog.LogModal.Open | app/dashboard/kunden/components/treatment-log-modal.tsx:37-54 | opening resets the form and loads the linkable appointments |
| TreatmentLog.LogModal.SetNotes | app/dashboard/kunden/components/treatment-log-modal.tsx:114 | sets the notes only |
| TreatmentLog.LogModal.SetNoteType | app/dashboard/kunden/components/treatment-log-modal.tsx:100 | sets the note type only |
| TreatmentLog.LogModal.SetAppointment | app/dashboard/kunden/components/treatment-log-modal.tsx:124 | sets the linked appointment only |
| TreatmentLog.LogModal.SetFollowUpNeeded | app/dashboard/kunden/components/treatment-log-modal.tsx:140 | sets the follow-up flag only |
| TreatmentLog.LogModal.SetFollowUpDate | app/dashboard/kunden/components/treatment-log-modal.tsx:155 | sets the follow-up date only |
| TreatmentLog.LogModal.Submit | app/dashboard/kunden/components/treatment-log-modal.tsx:56-91 | blank notes only raise "Bitte Notizen eingeben"; otherwise exactly that record is sent, and success closes with "Behandlung dokumentiert" |
| CustomerList.EmptyTitle | app/dashboard/kunden/components/customer-list.tsx:94 | "Keine Ergebnisse" iff the query is non-empty, otherwise "Noch keine Kundinnen" |
| CustomerList.UsesSearch | app/dashboard/kunden/components/customer-list.tsx:39 | the search is used iff the query is not blank |
| CustomerList.BlankQueryTitledAsSearch | app/dashboard/kunden/components/customer-list.tsx:39-94 | a whitespace-only query loads the overview yet is titled "Keine Ergebnisse" |
| CustomerList.VisibleQuerySearches | app/dashboard/kunden/components/customer-list.tsx:39-94 | a query with a visible character searches and is titled "Keine Ergebnisse" |
| CustomerList.NumberOrZero | app/dashboard/kunden/components/customer-list.tsx:47 | a missing total is 0 |
| CustomerList.AmountOrZero | app/dashboard/kunden/components/customer-list.tsx:50 | a missing revenue is 0 |
| CustomerList.DateOrNull | app/dashboard/kunden/components/customer-list.tsx:48-49 | a missing or empty date is null |
| CustomerList.FromOverview | app/dashboard/kunden/components/customer-list.tsx:44-53 | the customer is kept, totals default to 0, dates to null, similarity is 1 |
| CustomerList.MapOverview | app/dashboard/kunden/components/customer-list.tsx:44-53 | every row is mapped, in order |
| CustomerList.ByNameIsTotalPreorder | app/dashboard/kunden/components/customer-list.tsx:54-59 | a consistent collation orders the rows consistently by "last first" |
| CustomerList.NameKey | app/dashboard/kunden/components/customer-list.tsx:54-56 | the key is the last name, one space, then the first name |
| CustomerList.ByName | app/dashboard/kunden/components/customer-list.tsx:54-59 | only the name key decides the order: rows with equal keys compare alike with every other row |
| CustomerList.SortedOverview | app/dashboard/kunden/components/customer-list.tsx:44-59 | a permutation of the mapped rows, ordered by the "last first" key |
| CustomerList.SortedOverviewStable | app/dashboard/kunden/components/customer-list.tsx:54-59 | rows whose name keys collate as equal keep their overview order |
| CustomerList.ListView.constructor | app/dashboard/kunden/components/customer-list.tsx:33-34 | empty and loading |
| CustomerList.ListView.Load | app/dashboard/kunden/components/customer-list.tsx:36-67 | a non-blank query uses the search, a blank one the sorted overview; any failure gives an empty list; loading ends |
| CustomerList.TagCellOf | app/dashboard/kunden/components/customer-list.tsx:148-157 | the first three tags (all when fewer); a badge "+k" with k = count − 3 iff there are more than three; a dash iff there are none |
| CustomerList.TagCellCountsAll | app/dashboard/kunden/components/customer-list.tsx:148-157 | the shown tags plus the badge's k account for every tag |
| Toasts.Dismissed | hooks/use-toast.ts:21 | the kept toasts have another id and were shown; every toast with another id is kept |
| Toasts.DismissAbsent | hooks/use-toast.ts:20-23 | dismissing an id that is not shown changes nothing |
| Toasts.DismissKeepsOrder | hooks/use-toast.ts:20-23 | taking a toast out keeps the others in their order |
| Toasts.ShowThenDismiss | hooks/use-toast.ts:43-52 | showing a toast with a fresh id and then dismissing it restores the list |
| Toasts.DismissTwice | hooks/use-toast.ts:20-23 | dismissing is idempotent |
| Toasts.ToastStore.constructor | hooks/use-toast.ts:13-14 | an empty list, no hook registered, no timers |
| Toasts.ToastStore.Mount | hooks/use-toast.ts:16-18 | the hook starts from the current list and follows it from then on |
| Toasts.ToastStore.Show | hooks/use-toast.ts:43-52 | appends the toast at the end and schedules its removal; a registered hook sees the new list |
| Toasts.ToastStore.ShowDefault | hooks/use-toast.ts:25-37 | without a variant the toast is an info toast; the hook's `toast` does the same append |
| Toasts.ToastStore.Dismiss | hooks/use-toast.ts:20-23 | every toast with the id goes, the rest stay in order |
| Toasts.ToastStore.TimerFires | hooks/use-toast.ts:49-52 | a firing timer dismisses its own id and is gone |
| Avatar.GetInitials | components/ui/avatar.tsx:16-20 | the initials are the upper-casing of one or two characters |
| Avatar.InitialsOfFieldsOfName | components/ui/avatar.tsx:16-19 | the initials are read from the parts of the trimmed name, of which there is at least one and whose first two are non-empty when there are two |
| Avatar.InitialsOfTwoWords | components/ui/avatar.tsx:16-18 | two or more words give the first characters of the first two, whatever white space surrounds or separates them and whatever follows |
| Avatar.FieldsOfTwoWords | components/ui/avatar.tsx:17 | splitting on white space runs yields the two words as the first two parts |
| Avatar.InitialsOfOneWord | components/ui/avatar.tsx:19 | one word, with any white space around it, gives its first character |
| Avatar.InitialsOfBlankName | components/ui/avatar.tsx:17-19 | an empty or blank name gives "?" |
| Avatar.AvatarFace | components/ui/avatar.tsx:30-38 | the photo iff a non-empty source is given, otherwise the initials |
| SalonPin.DigitsOnly | app/salon/page.tsx:26 | the result has decimal digits only |
| SalonPin.DigitsOnlyPerCharacter | app/salon/page.tsx:26 | a digit stays and anything else goes, character by character, so digits keep their order |
| SalonPin.DigitsOnlyKeepsDigitStrings | app/salon/page.tsx:26 | the filter changes a string iff it has a non-digit, so it never truncates |
| SalonPin.DigitsOnlyIdempotent | app/salon/page.tsx:26 | filtering twice is filtering once |
| SalonPin.FourCharactersIffFourDigits | app/salon/page.tsx:24-32 | with the four-character cap, the PIN has four characters iff four digits were typed |
| SalonPin.PinPage.constructor | app/salon/page.tsx:6 | an empty PIN |
| SalonPin.PinPage.Change | app/salon/page.tsx:24-26 | the PIN becomes the digits of the typed value, at most four of them |
| SalonPin.PinPage.CanSubmit | app/salon/page.tsx:32 | the button is enabled only for a PIN of exactly four digits |
| SalonPin.PinPage.Submit | app/salon/page.tsx:8-11 | the default submission is prevented and nothing else happens |
| Nav.IsActive | components/layout/dashboard-nav.tsx:69-72 | an active entry's `href` is a prefix of the path |
| Nav.OneEntryActiveInSection | components/layout/dashboard-nav.tsx:69-72 | on a path that starts with a section's href, that entry alone is active and "Heute" is not; `/dashboard/kundenX` activates "Kunden" |
| Nav.OnlyRootActiveOnRoot | components/layout/dashboard-nav.tsx:70 | on `/dashboard` only "Heute" is active |
| Nav.MobileMenu.constructor | components/layout/dashboard-nav.tsx:67 | the menu starts closed |
| Nav.MobileMenu.Toggle | components/layout/dashboard-nav.tsx:87 | the hamburger flips the menu |
| Nav.MobileMenu.Close | components/layout/dashboard-nav.tsx:104 | the overlay and every link close the menu |
| Base.Filter | app/dashboard/page.tsx:296 | `filter` is never longer than its input |
| Base.Any | app/salon/buchen/components/booking-wizard.tsx:132 | `some` holds iff some member passes the test |
| Base.Count | app/dashboard/page.tsx:296 | `filter(p).length` is at most the length, and 0 iff no element passes `p` |
| Base.SumOf | app/dashboard/kampagnen/page.tsx:180-181 | the `reduce` sum is non-negative over non-negative terms and 0 over zero terms |
| Base.Flatten | app/dashboard/kalender/page.tsx:322 | `flat()` holds every element of every part and nothing else |
| Base.FilterMembers | app/dashboard/kunden/components/treatment-log-modal.tsx:49 | the kept elements are input elements that pass the test, and every input element that passes is kept |
| Base.FilterSubMultiset | app/dashboard/kunden/components/treatment-log-modal.tsx:49 | nothing is kept more often than it occurs |
| Base.GroupBy | app/dashboard/kalender/page.tsx:331-338 | the `reduce` into buckets maps each present key to exactly its elements in input order, and an absent key has none |
| Base.SortBy | app/portal/termine/page.tsx:81 | `sort` with a consistent comparator gives a permutation of the input ordered by the comparator |
| Base.SortByStable | app/portal/termine/page.tsx:81 | `sort` is stable: the elements ranked equal to any element keep their input order |

## Left out

- I/O is not modelled. The database, the edge functions, authentication, `fetch` and `sessionStorage` are parameters or `Result`s. Their internals are not part of this model.
- Timers and debouncing are events, not time. The 300 ms search debounce fires at once in `Booking.Wizard.Search`. A toast's 5000 ms timer is the explicit event `TimerFires`.
- Races between overlapping asynchronous effects are out, because each handler runs to completion in the model.
- Calendar.WeekResults: when several of the seven calls fail, the model shows the first failing day's message. `Promise.all` rejects with whichever failure happens first in time, which the model has no notion of.
- The `saving`, `sending`, `booking` and `treatmentsLoading` flags are out. They only disable buttons while a call is pending.
- Floating point is replaced by exact arithmetic. Prices and revenues are exact reals. `Calendar.TimeToMinutes` reads integer fields only. In the model, `Number()` of a string with a sign, a decimal point, an exponent, a `0x`/`0b`/`0o` prefix or `Infinity` gives NaN, where JavaScript reads a number.
- Campaigns.RoundedPercent: exact rational half-up rounding. `Math.round` of the floating-point quotient can differ, e.g. 29/200 gives 14 rather than 15.
- `localeCompare(…, 'de')` is an abstract comparator (`collate`) in `CustomerList`, assumed to be a total preorder. The portal's sort uses `StrLess`, which compares characters one by one. It is code-point order, while JavaScript's `<` compares UTF-16 code units. The two agree, and match `localeCompare`, on the digit-and-dash strings of ISO dates and `HH:MM` times.
- Strings are sequences of Unicode scalar values (Dafny's `char`), while JavaScript strings are sequences of UTF-16 code units. Results differ only for characters above U+FFFF. For such a character, `length`, `slice`, `maxLength` and the search's two-character minimum count it once rather than twice. `Avatar.GetInitials` takes the whole character where `parts[0][0]` takes a lone surrogate.
- `toUpperCase` is an abstract parameter `upper` of `Avatar.GetInitials`, because the model has no Unicode case mapping. `Avatar.InitialsOfBlankName` assumes that it leaves "?" alone.
- Array sorts are modelled on values (`Base.SortBy`), not in place.
- Time zones are out, because the model's dates are plain calendar days. `toISOString()` takes the UTC day, so the portal's `today` and the dashboard's tomorrow are inputs (`today`, `utcToday`). `new Date(dob)` is modelled as a strict `YYYY-MM-DD` reading (`Calendar.ParseDateISO`), and other date formats give NaN.
- `getNext14Days`, `formatDateHeader`, `formatBirthday`, `formatEur` and `formatDate` (booking wizard, calendar, dashboard, portal) are left out. They use locale-dependent `toLocaleDateString` and `Intl` formatting.
- Booking.BlockedIffShareMinute: stated for a treatment of positive duration and appointments whose start precedes their end. On empty intervals the comparison test and interval intersection differ.
- Calendar.CalendarPage.PickDate: a malformed input keeps the selected day. The page would build an invalid `Date`, which the model cannot represent.
- A thrown value that is not an `Error` gets a fallback message: the calendar's "Fehler beim Laden" and the portal's default text. The model's `Err` always carries a message, so these fallbacks are not modelled.
- Object key order in segment filters and payloads is out, because records have no order.
- `PostgrestError` versus `Error` in the campaign wizard's `catch` is out. An insert failure is `Err(message)` and shows its message.
- Booking toasts are out: the treatments-load failure and the booking success or failure messages. `Booking.Wizard.Book` returns whether the booking was accepted.
- The dashboard's initial `Promise.all` load of stats, schedule and birthdays is out. Only the tab switch and its answer are modelled.
- The status labels (`statusLabel`), `statusBorderColor` on the dashboard, the customer list's location label map and the portal's location labels are out. They are presentation-only lookups.
- `tags` being `null` in the customer list is out, because `Customer.tags` is a sequence that is empty when absent.
- The portal's "show past" toggle is out, because it only hides a list.
- Nav: `handleLogout` is out, because it is a network call followed by a redirect.
- The portal and salon navigation bars are out. Each repeats the `startsWith` rule of `Nav`.
