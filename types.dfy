/** The records the screens work with, as declared in `lib/types.ts`, with
    only the fields the modelled logic reads. String-literal unions become
    enumerations; each has its wire name and a parser that accepts exactly the
    wire names. Optional (`| null`) fields become `Option`. */
module Types {
  import opened Base

  // ---------------------------------------------------------------------
  // Enumerations

  datatype Location = Neumarkt | Kw

  function LocationName(l: Location): string
  {
    match l
    case Neumarkt => "neumarkt"
    case Kw => "kw"
  }

  /** Reads a location from its wire name; anything else is not a location. */
  function ParseLocation(s: string): (r: Option<Location>)
    ensures forall l :: r == Some(l) <==> LocationName(l) == s
  {
    if s == "neumarkt" then Some(Neumarkt)
    else if s == "kw" then Some(Kw)
    else None
  }

  datatype AppointmentStatus = Confirmed | Completed | Cancelled | NoShow

  function StatusName(st: AppointmentStatus): string
  {
    match st
    case Confirmed => "confirmed"
    case Completed => "completed"
    case Cancelled => "cancelled"
    case NoShow => "no_show"
  }

  function ParseStatus(s: string): (r: Option<AppointmentStatus>)
    ensures forall st :: r == Some(st) <==> StatusName(st) == s
  {
    if s == "confirmed" then Some(Confirmed)
    else if s == "completed" then Some(Completed)
    else if s == "cancelled" then Some(Cancelled)
    else if s == "no_show" then Some(NoShow)
    else None
  }

  datatype CampaignStatus = Draft | Scheduled | Sending | Sent | CampaignCancelled

  function CampaignStatusName(st: CampaignStatus): string
  {
    match st
    case Draft => "draft"
    case Scheduled => "scheduled"
    case Sending => "sending"
    case Sent => "sent"
    case CampaignCancelled => "cancelled"
  }

  function ParseCampaignStatus(s: string): (r: Option<CampaignStatus>)
    ensures forall st :: r == Some(st) <==> CampaignStatusName(st) == s
  {
    if s == "draft" then Some(Draft)
    else if s == "scheduled" then Some(Scheduled)
    else if s == "sending" then Some(Sending)
    else if s == "sent" then Some(Sent)
    else if s == "cancelled" then Some(CampaignCancelled)
    else None
  }

  datatype NoteType = TreatmentNote | ConsultationNote | FollowUpNote | GeneralNote | ConsentFormNote

  function NoteTypeName(t: NoteType): string
  {
    match t
    case TreatmentNote => "treatment"
    case ConsultationNote => "consultation"
    case FollowUpNote => "follow_up"
    case GeneralNote => "general"
    case ConsentFormNote => "consent_form"
  }

  function ParseNoteType(s: string): (r: Option<NoteType>)
    ensures forall t :: r == Some(t) <==> NoteTypeName(t) == s
  {
    if s == "treatment" then Some(TreatmentNote)
    else if s == "consultation" then Some(ConsultationNote)
    else if s == "follow_up" then Some(FollowUpNote)
    else if s == "general" then Some(GeneralNote)
    else if s == "consent_form" then Some(ConsentFormNote)
    else None
  }

  datatype RecordSource = Manual | Telegram | Voice | Ocr

  function RecordSourceName(src: RecordSource): string
  {
    match src
    case Manual => "manual"
    case Telegram => "telegram"
    case Voice => "voice"
    case Ocr => "ocr"
  }

  function ParseRecordSource(s: string): (r: Option<RecordSource>)
    ensures forall src :: r == Some(src) <==> RecordSourceName(src) == s
  {
    if s == "manual" then Some(Manual)
    else if s == "telegram" then Some(Telegram)
    else if s == "voice" then Some(Voice)
    else if s == "ocr" then Some(Ocr)
    else None
  }

  datatype TemplateType = Transactional | Marketing | Aftercare | Reminder

  function TemplateTypeName(t: TemplateType): string
  {
    match t
    case Transactional => "transactional"
    case Marketing => "marketing"
    case Aftercare => "aftercare"
    case Reminder => "reminder"
  }

  function ParseTemplateType(s: string): (r: Option<TemplateType>)
    ensures forall t :: r == Some(t) <==> TemplateTypeName(t) == s
  {
    if s == "transactional" then Some(Transactional)
    else if s == "marketing" then Some(Marketing)
    else if s == "aftercare" then Some(Aftercare)
    else if s == "reminder" then Some(Reminder)
    else None
  }

  /** Distinct values of each enumeration have distinct wire names, so a value
      is exactly one of the listed alternatives. */
  lemma WireNamesDistinct()
    ensures forall a, b :: LocationName(a) == LocationName(b) ==> a == b
    ensures forall a, b :: StatusName(a) == StatusName(b) ==> a == b
    ensures forall a, b :: CampaignStatusName(a) == CampaignStatusName(b) ==> a == b
    ensures forall a, b :: NoteTypeName(a) == NoteTypeName(b) ==> a == b
    ensures forall a, b :: RecordSourceName(a) == RecordSourceName(b) ==> a == b
    ensures forall a, b :: TemplateTypeName(a) == TemplateTypeName(b) ==> a == b
  {
    forall a, b | LocationName(a) == LocationName(b) ensures a == b {
      assert ParseLocation(LocationName(a)) == Some(a);
    }
    forall a, b | StatusName(a) == StatusName(b) ensures a == b {
      assert ParseStatus(StatusName(a)) == Some(a);
    }
    forall a, b | CampaignStatusName(a) == CampaignStatusName(b) ensures a == b {
      assert ParseCampaignStatus(CampaignStatusName(a)) == Some(a);
    }
    forall a, b | NoteTypeName(a) == NoteTypeName(b) ensures a == b {
      assert ParseNoteType(NoteTypeName(a)) == Some(a);
    }
    forall a, b | RecordSourceName(a) == RecordSourceName(b) ensures a == b {
      assert ParseRecordSource(RecordSourceName(a)) == Some(a);
    }
    forall a, b | TemplateTypeName(a) == TemplateTypeName(b) ensures a == b {
      assert ParseTemplateType(TemplateTypeName(a)) == Some(a);
    }
  }

  /** The colour variants of the status badge. */
  datatype BadgeVariant = Default | Success | Warning | Danger | Info

  // ---------------------------------------------------------------------
  // Records

  datatype Customer = Customer(
    id: string,
    first_name: string,
    last_name: string,
    email: Option<string>,
    phone: Option<string>,
    date_of_birth: Option<string>,
    location: Option<Location>,
    tags: seq<string>,
    notes: Option<string>,
    sms_opt_in: bool,
    email_opt_in: bool)

  /** A customer row with the aggregates the search and the overview add. */
  datatype CustomerSearchResult = CustomerSearchResult(
    customer: Customer,
    total_appointments: int,
    last_appointment_date: Option<string>,
    next_appointment_date: Option<string>,
    total_revenue: real,
    similarity: real)

  /** A catalogue treatment. `available_at` may be absent in the stored row
      although the declaration makes it a list. */
  datatype Treatment = Treatment(
    id: string,
    name: string,
    category: string,
    price_eur: real,
    duration_minutes: int,
    available_at: Option<seq<string>>)

  datatype Appointment = Appointment(
    id: string,
    customer_id: string,
    treatment_id: Option<string>,
    location: Location,
    date: string,
    start_time: string,
    end_time: string,
    duration_minutes: int,
    status: AppointmentStatus)

  datatype PatientRecord = PatientRecord(
    appointment_id: Option<string>,
    customer_id: string,
    notes: Option<string>,
    follow_up_needed: bool,
    follow_up_date: Option<string>,
    note_type: NoteType,
    source: RecordSource)

  datatype EmailTemplate = EmailTemplate(
    id: string,
    name: string,
    subject: string,
    body_html: Option<string>,
    template_type: TemplateType)

  datatype Campaign = Campaign(
    id: string,
    name: string,
    subject: string,
    body_html: Option<string>,
    template_id: Option<string>,
    status: CampaignStatus,
    total_recipients: int,
    total_sent: int,
    total_opened: int,
    total_clicked: int)

  /** A row of the daily schedule view: status and location arrive as plain
      strings there. */
  datatype DailyScheduleItem = DailyScheduleItem(
    appointment_id: string,
    customer_name: string,
    treatment_name: string,
    date: string,
    start_time: string,
    end_time: string,
    duration_minutes: int,
    status: string,
    location: string)
}
