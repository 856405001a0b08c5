/** The dialog that documents a treatment for a customer
    (`app/dashboard/kunden/components/treatment-log-modal.tsx`): the form is
    reset and the customer's linkable appointments are loaded on opening,
    blank notes are refused, and the record sent carries only the optional
    parts that were filled in. */
module TreatmentLog {
  import opened Base
  import opened Text
  import opened Types
  import opened Toasts

  /** The dialog's form. The note type comes from a select of the five note
      types. */
  datatype LogForm = LogForm(
    notes: string,
    note_type: NoteType,
    appointment_id: string,
    follow_up_needed: bool,
    follow_up_date: string)

  /** The form on opening: no notes, a treatment note, no appointment, no
      follow-up. */
  const DefaultForm := LogForm("", TreatmentNote, "", false, "")

  /** Only confirmed and completed appointments can be linked. */
  predicate IsLinkable(a: Appointment)
  {
    a.status == Confirmed || a.status == Completed
  }

  /** The appointments offered for linking: the loaded ones that are
      confirmed or completed, in load order; none when loading fails. */
  function LinkableAppointments(loaded: Result<seq<Appointment>>): (r: seq<Appointment>)
    ensures loaded.Err? ==> r == []
    ensures loaded.Ok? ==> forall a :: a in r <==> a in loaded.value && IsLinkable(a)
    ensures loaded.Ok? ==> multiset(r) <= multiset(loaded.value)
  {
    if loaded.Err? then []
    else
      var kept := Filter(loaded.value, IsLinkable);
      FilterMembers(loaded.value, IsLinkable);
      FilterSubMultiset(loaded.value, IsLinkable);
      assert forall a :: a in kept ==> IsLinkable(a) by {
        forall a | a in kept ensures IsLinkable(a) {
          var i :| 0 <= i < |kept| && kept[i] == a;
        }
      }
      assert forall a :: a in loaded.value && IsLinkable(a) ==> a in kept by {
        forall a | a in loaded.value && IsLinkable(a) ensures a in kept {
          var i :| 0 <= i < |loaded.value| && loaded.value[i] == a;
        }
      }
      kept
  }

  /** The linkable appointments keep the load order: any order the loaded
      list is in, they are in too. */
  lemma LinkableKeepsLoadOrder(loaded: seq<Appointment>, le: (Appointment, Appointment) -> bool)
    requires SortedBy(loaded, le)
    ensures SortedBy(LinkableAppointments(Ok(loaded)), le)
  {
    FilterKeepsOrder(loaded, IsLinkable, le);
  }

  /** `treatment_details` of the record. */
  datatype FollowUp = FollowUp(follow_up_needed: bool, follow_up_date: string)

  /** The record sent to the logging function. */
  datatype LogPayload = LogPayload(
    customer_id: string,
    notes: string,
    note_type: string,
    source: RecordSource,
    appointment_id: Option<string>,
    treatment_details: Option<FollowUp>)

  /** The record `handleSubmit` sends for a form: the customer, the trimmed
      notes, the note type and the manual source; the appointment only when
      one is chosen; the follow-up only when it is requested with a date. */
  function LogPayloadOf(form: LogForm, customerId: string): (p: LogPayload)
    ensures p.customer_id == customerId && p.notes == Trim(form.notes)
    ensures p.note_type == NoteTypeName(form.note_type) && p.source == Manual
    ensures p.appointment_id.Some? <==> form.appointment_id != ""
    ensures p.appointment_id.Some? ==> p.appointment_id.value == form.appointment_id
    ensures p.treatment_details.Some? <==> form.follow_up_needed && form.follow_up_date != ""
    ensures p.treatment_details.Some? ==>
      p.treatment_details.value == FollowUp(true, form.follow_up_date)
  {
    LogPayload(customerId, Trim(form.notes), NoteTypeName(form.note_type), Manual,
      if form.appointment_id != "" then Some(form.appointment_id) else None,
      if form.follow_up_needed && form.follow_up_date != "" then Some(FollowUp(true, form.follow_up_date)) else None)
  }

  /** A date typed while the follow-up box is unticked is not sent, and
      white space around the notes does not change the record. */
  lemma LogPayloadIgnoresUnsentInput(form: LogForm, customerId: string, date: string, pre: string, post: string)
    requires IsBlank(pre) && IsBlank(post)
    requires !form.follow_up_needed
    ensures LogPayloadOf(form.(follow_up_date := date), customerId) == LogPayloadOf(form, customerId)
    ensures form.notes != [] && !IsSpace(form.notes[0]) && !IsSpace(form.notes[|form.notes| - 1]) ==>
      LogPayloadOf(form.(notes := pre + form.notes + post), customerId) == LogPayloadOf(form, customerId)
  {
    if form.notes != [] && !IsSpace(form.notes[0]) && !IsSpace(form.notes[|form.notes| - 1]) {
      TrimAroundVisible(pre, form.notes, post);
      TrimEndOfBlank(post);
      assert form.notes + [] == form.notes;
      TrimOfTrimmed(form.notes);
    }
  }

  /** `payload` of `handleSubmit`: the fixed part first, then the optional
      entries added one by one. */
  method BuildPayload(form: LogForm, customerId: string) returns (p: LogPayload)
    ensures p == LogPayloadOf(form, customerId)
  {
    p := LogPayload(customerId, Trim(form.notes), NoteTypeName(form.note_type), Manual, None, None);
    if form.appointment_id != "" {
      p := p.(appointment_id := Some(form.appointment_id));
    }
    if form.follow_up_needed && form.follow_up_date != "" {
      p := p.(treatment_details := Some(FollowUp(true, form.follow_up_date)));
    }
  }

  /** The answer of the logging function: `{ ok, error? }`. */
  datatype LogResponse = LogResponse(ok: bool, error: Option<string>)

  const NotesMissing := "Bitte Notizen eingeben"
  const Documented := "Behandlung dokumentiert"
  const SaveFailed := "Fehler beim Speichern"

  /** The dialog's state while it is mounted. */
  class LogModal {
    var form: LogForm
    var openAppointments: seq<Appointment>

    constructor ()
      ensures form == DefaultForm && openAppointments == []
    {
      form := DefaultForm;
      openAppointments := [];
    }

    /** The effect that runs when the dialog opens: the form is reset and the
        customer's appointments are loaded (`load` answers for a customer id
        with the appointments or a failure). */
    method Open(customerId: string, load: string -> Result<seq<Appointment>>)
      modifies this
      ensures form == DefaultForm
      ensures openAppointments == LinkableAppointments(load(customerId))
    {
      form := DefaultForm;
      openAppointments := LinkableAppointments(load(customerId));
    }

    method SetNotes(v: string)
      modifies this
      ensures form == old(form).(notes := v) && openAppointments == old(openAppointments)
    {
      form := form.(notes := v);
    }

    method SetNoteType(t: NoteType)
      modifies this
      ensures form == old(form).(note_type := t) && openAppointments == old(openAppointments)
    {
      form := form.(note_type := t);
    }

    /** The appointment select; `""` is its empty placeholder choice. */
    method SetAppointment(id: string)
      modifies this
      ensures form == old(form).(appointment_id := id) && openAppointments == old(openAppointments)
    {
      form := form.(appointment_id := id);
    }

    /** The follow-up checkbox; unticking it keeps the date typed so far. */
    method SetFollowUpNeeded(needed: bool)
      modifies this
      ensures form == old(form).(follow_up_needed := needed) && openAppointments == old(openAppointments)
    {
      form := form.(follow_up_needed := needed);
    }

    method SetFollowUpDate(date: string)
      modifies this
      ensures form == old(form).(follow_up_date := date) && openAppointments == old(openAppointments)
    {
      form := form.(follow_up_date := date);
    }

    /** `handleSubmit`: blank notes only raise a toast and call nothing.
        Otherwise the record is sent; `logTreatment` answers with the
        function's answer or fails (`Err`). The outcome is a toast and, on
        success, closing the dialog. */
    method Submit(customerId: string, logTreatment: LogPayload -> Result<LogResponse>)
      returns (payload: Option<LogPayload>, close: bool, toast: (string, ToastVariant))
      ensures IsBlank(form.notes) ==> payload.None? && !close && toast == (NotesMissing, ToastError)
      ensures !IsBlank(form.notes) ==>
        && payload.Some?
        && payload == Some(LogPayloadOf(form, customerId)) && payload.value.notes != ""
        && var answer := logTreatment(payload.value);
        && (answer.Err? ==> !close && toast == (SaveFailed, ToastError))
        && (answer.Ok? && answer.value.ok ==> close && toast == (Documented, ToastSuccess))
        && (answer.Ok? && !answer.value.ok ==>
              !close && toast == (if answer.value.error.Some? && answer.value.error.value != ""
                                  then answer.value.error.value else SaveFailed, ToastError))
    {
      if Trim(form.notes) == "" {
        return None, false, (NotesMissing, ToastError);
      }
      var p := BuildPayload(form, customerId);
      payload := Some(p);
      var answer := logTreatment(p);
      if answer.Err? {
        return payload, false, (SaveFailed, ToastError);
      }
      if answer.value.ok {
        close := true;
        toast := (Documented, ToastSuccess);
      } else {
        close := false;
        var message := if answer.value.error.Some? && answer.value.error.value != "" then answer.value.error.value else SaveFailed;
        toast := (message, ToastError);
      }
    }
  }
}
