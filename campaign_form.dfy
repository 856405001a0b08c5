/** The four-step campaign wizard of
    `app/dashboard/kampagnen/components/campaign-form.tsx`: basic data
    (name, subject), content (a template or custom HTML), audience
    (location and opt-in filter), preview and send. The step only advances
    past a step whose fields are filled in, and each field can only be
    edited on its own step, so every step before the current one stays
    complete; the campaign that is sent therefore always has a name, a
    subject and content. */
module CampaignWizard {
  import opened Base
  import opened Text
  import opened Types
  import opened Toasts

  datatype ContentMode = TemplateMode | CustomMode

  /** The audience of a campaign: a `location` entry when one location is
      chosen, an `email_opt_in: true` entry when only customers who opted in
      are addressed. */
  datatype SegmentFilter = SegmentFilter(location: Option<string>, email_opt_in: Option<bool>)

  /** The filter for a location choice (`"all"` or a location's wire name)
      and the opt-in checkbox. */
  function SegmentFilterOf(locationFilter: string, onlyOptIn: bool): (f: SegmentFilter)
    ensures f.location.Some? <==> locationFilter != "all"
    ensures f.location.Some? ==> f.location.value == locationFilter
    ensures f.email_opt_in.Some? <==> onlyOptIn
    ensures f.email_opt_in.Some? ==> f.email_opt_in.value
  {
    SegmentFilter(if locationFilter != "all" then Some(locationFilter) else None,
                  if onlyOptIn then Some(true) else None)
  }

  /** `segmentFilter` of `handleSend`: an empty object that gets its entries
      one by one. */
  method BuildSegmentFilter(locationFilter: string, onlyOptIn: bool) returns (f: SegmentFilter)
    ensures f == SegmentFilterOf(locationFilter, onlyOptIn)
    ensures f == SegmentFilter(None, None) <==> locationFilter == "all" && !onlyOptIn
  {
    f := SegmentFilter(None, None);
    if locationFilter != "all" {
      f := f.(location := Some(locationFilter));
    }
    if onlyOptIn {
      f := f.(email_opt_in := Some(true));
    }
  }

  /** `templates.find((t) => t.id === id)`: the first template with that id. */
  function FindTemplate(templates: seq<EmailTemplate>, id: string): (r: Option<EmailTemplate>)
    ensures r.Some? ==> r.value.id == id && r.value in templates
    ensures r.Some? ==> exists i :: 0 <= i < |templates| && templates[i] == r.value &&
                                    (forall j :: 0 <= j < i ==> templates[j].id != id)
    ensures r.None? <==> forall i :: 0 <= i < |templates| ==> templates[i].id != id
  {
    if templates == [] then None
    else if templates[0].id == id then Some(templates[0])
    else
      var r := FindTemplate(templates[1..], id);
      if r.Some? then FirstInTail(templates, id, r.value); r else r
  }

  /** A first match in the tail of a list whose head does not match is a
      first match in the whole list. */
  lemma FirstInTail(templates: seq<EmailTemplate>, id: string, t: EmailTemplate)
    requires templates != [] && templates[0].id != id
    requires exists i :: 0 <= i < |templates| - 1 && templates[1..][i] == t &&
                         (forall j :: 0 <= j < i ==> templates[1..][j].id != id)
    ensures exists i :: 0 <= i < |templates| && templates[i] == t &&
                        (forall j :: 0 <= j < i ==> templates[j].id != id)
  {
    var i :| 0 <= i < |templates| - 1 && templates[1..][i] == t &&
             (forall j :: 0 <= j < i ==> templates[1..][j].id != id);
    assert templates[i + 1] == t;
    forall j | 0 <= j < i + 1
      ensures templates[j].id != id
    {
      if j > 0 { assert templates[j] == templates[1..][j - 1]; }
    }
  }

  predicate UniqueIds(templates: seq<EmailTemplate>)
  {
    forall i, j :: 0 <= i < j < |templates| ==> templates[i].id != templates[j].id
  }

  /** `bodyHtml` of `handleSend`: the selected template's HTML in template
      mode when the template is among the loaded ones, the custom HTML
      otherwise. */
  function BodyHtml(mode: ContentMode, templates: seq<EmailTemplate>, selectedTemplateId: string,
                    customHtml: string): (body: Option<string>)
    ensures mode == CustomMode ==> body == Some(customHtml)
    ensures FindTemplate(templates, selectedTemplateId).None? ==> body == Some(customHtml)
  {
    var selected := FindTemplate(templates, selectedTemplateId);
    if mode == TemplateMode && selected.Some? then selected.value.body_html else Some(customHtml)
  }

  /** With distinct template ids, choosing a loaded template in template mode
      sends exactly that template's HTML. */
  lemma BodyOfChosenTemplate(templates: seq<EmailTemplate>, i: int, customHtml: string)
    requires UniqueIds(templates) && 0 <= i < |templates|
    ensures BodyHtml(TemplateMode, templates, templates[i].id, customHtml) == templates[i].body_html
  {
    var found := FindTemplate(templates, templates[i].id);
    assert found.Some?;
    var j :| 0 <= j < |templates| && templates[j] == found.value;
    assert i == j;
  }

  /** The row inserted into `campaigns`. */
  datatype CampaignInsert = CampaignInsert(
    name: string,
    subject: string,
    body_html: Option<string>,
    template_id: Option<string>,
    segment_filter: SegmentFilter,
    status: CampaignStatus)

  /** The answer of the sending function: `{ ok, error? }`. */
  datatype SendResponse = SendResponse(ok: bool, error: Option<string>)

  /** `result.error || 'Senden fehlgeschlagen'`: an empty error counts as
      none. */
  function SendErrorMessage(error: Option<string>): (m: string)
    ensures m != ""
    ensures error.Some? && error.value != "" ==> m == error.value
  {
    if error.Some? && error.value != "" then error.value else "Senden fehlgeschlagen"
  }

  const SentMessage := "Kampagne wird gesendet!"
  const TemplatesFailedMessage := "Templates konnten nicht geladen werden"

  /** `canProceed` on step `s`: step 1 needs a name and a subject that are
      not blank, step 2 a chosen template id in template mode or custom HTML
      that is not blank, steps 3 and 4 nothing. */
  function CanProceed(s: int, name: string, subject: string, mode: ContentMode,
                      selectedTemplateId: string, customHtml: string): (ok: bool)
    ensures s == 1 ==> (ok <==> !IsBlank(name) && !IsBlank(subject))
    ensures s == 2 && mode == TemplateMode ==> (ok <==> selectedTemplateId != "")
    ensures s == 2 && mode == CustomMode ==> (ok <==> !IsBlank(customHtml))
    ensures s != 1 && s != 2 ==> ok
  {
    if s == 1 then |Trim(name)| > 0 && |Trim(subject)| > 0
    else if s == 2 then
      (if mode == TemplateMode then |selectedTemplateId| > 0 else |Trim(customHtml)| > 0)
    else true
  }

  /** The wizard is on one of its four steps, and every step before it can
      proceed: the first has a name and a subject, the second a chosen
      template or custom HTML. */
  predicate StepsDone(step: int, name: string, subject: string, mode: ContentMode,
                      selectedTemplateId: string, customHtml: string)
  {
    && 1 <= step <= 4
    && (step > 1 ==> !IsBlank(name) && !IsBlank(subject))
    && (step > 2 ==> if mode == TemplateMode then selectedTemplateId != "" else !IsBlank(customHtml))
  }

  /** Moving on from a step that can proceed keeps every earlier step
      complete. */
  lemma ProceedKeepsStepsDone(step: int, name: string, subject: string, mode: ContentMode,
                              selectedTemplateId: string, customHtml: string)
    requires StepsDone(step, name, subject, mode, selectedTemplateId, customHtml)
    requires step < 4 && CanProceed(step, name, subject, mode, selectedTemplateId, customHtml)
    ensures StepsDone(step + 1, name, subject, mode, selectedTemplateId, customHtml)
  {
  }

  class CampaignForm {
    var step: int
    var templates: seq<EmailTemplate>
    var name: string
    var subject: string
    var contentMode: ContentMode
    var selectedTemplateId: string
    var customHtml: string
    var locationFilter: string
    var onlyOptIn: bool

    /** The wizard is on one of its four steps, and every earlier step is
        complete. */
    predicate Valid()
      reads this
    {
      StepsDone(step, name, subject, contentMode, selectedTemplateId, customHtml)
    }

    /** `canProceed()` on the current step. */
    predicate CanProceedHere()
      reads this
    {
      CanProceed(step, name, subject, contentMode, selectedTemplateId, customHtml)
    }

    constructor ()
      ensures Valid()
      ensures step == 1 && templates == [] && name == "" && subject == ""
      ensures contentMode == TemplateMode && selectedTemplateId == "" && customHtml == ""
      ensures locationFilter == "all" && onlyOptIn
    {
      step := 1;
      templates := [];
      name, subject := "", "";
      contentMode := TemplateMode;
      selectedTemplateId, customHtml := "", "";
      locationFilter := "all";
      onlyOptIn := true;
    }

    /** The name input, shown on step 1 only. */
    method SetName(v: string)
      requires Valid() && step == 1
      modifies this
      ensures Valid()
      ensures name == v
      ensures step == old(step) && subject == old(subject) && templates == old(templates)
      ensures contentMode == old(contentMode) && selectedTemplateId == old(selectedTemplateId)
      ensures customHtml == old(customHtml) && locationFilter == old(locationFilter) && onlyOptIn == old(onlyOptIn)
    {
      name := v;
    }

    /** The subject input, shown on step 1 only. */
    method SetSubject(v: string)
      requires Valid() && step == 1
      modifies this
      ensures Valid()
      ensures subject == v
      ensures step == old(step) && name == old(name) && templates == old(templates)
      ensures contentMode == old(contentMode) && selectedTemplateId == old(selectedTemplateId)
      ensures customHtml == old(customHtml) && locationFilter == old(locationFilter) && onlyOptIn == old(onlyOptIn)
    {
      subject := v;
    }

    /** The two content buttons, shown on step 2 only. */
    method SetContentMode(mode: ContentMode)
      requires Valid() && step == 2
      modifies this
      ensures Valid()
      ensures contentMode == mode
      ensures step == old(step) && name == old(name) && subject == old(subject) && templates == old(templates)
      ensures selectedTemplateId == old(selectedTemplateId)
      ensures customHtml == old(customHtml) && locationFilter == old(locationFilter) && onlyOptIn == old(onlyOptIn)
    {
      contentMode := mode;
    }

    /** A click on a template card, shown on step 2 only. */
    method SelectTemplate(id: string)
      requires Valid() && step == 2
      modifies this
      ensures Valid()
      ensures selectedTemplateId == id
      ensures step == old(step) && name == old(name) && subject == old(subject) && templates == old(templates)
      ensures contentMode == old(contentMode)
      ensures customHtml == old(customHtml) && locationFilter == old(locationFilter) && onlyOptIn == old(onlyOptIn)
    {
      selectedTemplateId := id;
    }

    /** The HTML text area, shown on step 2 only. */
    method SetCustomHtml(v: string)
      requires Valid() && step == 2
      modifies this
      ensures Valid()
      ensures customHtml == v
      ensures step == old(step) && name == old(name) && subject == old(subject) && templates == old(templates)
      ensures contentMode == old(contentMode) && selectedTemplateId == old(selectedTemplateId)
      ensures locationFilter == old(locationFilter) && onlyOptIn == old(onlyOptIn)
    {
      customHtml := v;
    }

    /** The location buttons and the opt-in checkbox, shown on step 3 only. */
    method SetAudience(location: string, optIn: bool)
      requires Valid() && step == 3
      modifies this
      ensures Valid()
      ensures locationFilter == location && onlyOptIn == optIn
      ensures step == old(step) && name == old(name) && subject == old(subject) && templates == old(templates)
      ensures contentMode == old(contentMode) && selectedTemplateId == old(selectedTemplateId)
      ensures customHtml == old(customHtml)
    {
      locationFilter := location;
      onlyOptIn := optIn;
    }

    /** The template list arrives; a failed load only shows an error toast,
        returned here as its message and variant. */
    method TemplatesLoaded(response: Result<seq<EmailTemplate>>) returns (toast: Option<(string, ToastVariant)>)
      requires Valid()
      modifies this
      ensures Valid()
      ensures response.Ok? ==> templates == response.value && toast == None
      ensures response.Err? ==> templates == old(templates) && toast == Some((TemplatesFailedMessage, ToastError))
      ensures step == old(step) && name == old(name) && subject == old(subject)
      ensures contentMode == old(contentMode) && selectedTemplateId == old(selectedTemplateId)
      ensures customHtml == old(customHtml) && locationFilter == old(locationFilter) && onlyOptIn == old(onlyOptIn)
    {
      if response.Ok? {
        templates := response.value;
        toast := None;
      } else {
        toast := Some((TemplatesFailedMessage, ToastError));
      }
    }

    /** "Weiter": one step on, but only below step 4 and only when the
        current step is complete (otherwise the button is disabled). */
    method Next()
      requires Valid()
      modifies this
      ensures Valid()
      ensures old(step) < 4 && old(CanProceedHere()) ==> step == old(step) + 1
      ensures !(old(step) < 4 && old(CanProceedHere())) ==> step == old(step)
      ensures name == old(name) && subject == old(subject) && templates == old(templates)
      ensures contentMode == old(contentMode) && selectedTemplateId == old(selectedTemplateId)
      ensures customHtml == old(customHtml) && locationFilter == old(locationFilter) && onlyOptIn == old(onlyOptIn)
    {
      if step < 4 && CanProceedHere() {
        ProceedKeepsStepsDone(step, name, subject, contentMode, selectedTemplateId, customHtml);
        step := step + 1;
      }
    }

    /** "Zurueck" goes one step back; on step 1 the button is "Abbrechen" and
        closes the wizard instead. */
    method Back() returns (close: bool)
      requires Valid()
      modifies this
      ensures Valid()
      ensures close <==> old(step) == 1
      ensures step == if old(step) == 1 then 1 else old(step) - 1
      ensures name == old(name) && subject == old(subject) && templates == old(templates)
      ensures contentMode == old(contentMode) && selectedTemplateId == old(selectedTemplateId)
      ensures customHtml == old(customHtml) && locationFilter == old(locationFilter) && onlyOptIn == old(onlyOptIn)
    {
      if step == 1 {
        return true;
      }
      step := step - 1;
      close := false;
    }

    /** A click on the step indicator's button `s` jumps there only when `s`
        is an earlier step. */
    method JumpTo(s: int)
      requires Valid() && 1 <= s <= 4
      modifies this
      ensures Valid()
      ensures step == if s < old(step) then s else old(step)
      ensures name == old(name) && subject == old(subject) && templates == old(templates)
      ensures contentMode == old(contentMode) && selectedTemplateId == old(selectedTemplateId)
      ensures customHtml == old(customHtml) && locationFilter == old(locationFilter) && onlyOptIn == old(onlyOptIn)
    {
      if s < step {
        step := s;
      }
    }

    /** `handleSend`: the campaign row is inserted as a draft and then sent.
        `insert` answers with the new row's id or the thrown error's message,
        `sendCampaign` with the function's answer or the thrown error's
        message. The outcome is a toast and, on success, `onCreated`. On
        step 4 the inserted row has a name, a subject and content. */
    method Send(insert: CampaignInsert -> Result<string>,
                sendCampaign: string -> Result<SendResponse>)
      returns (payload: CampaignInsert, created: bool, toast: (string, ToastVariant))
      ensures payload.name == name && payload.subject == subject
      ensures payload.body_html == BodyHtml(contentMode, templates, selectedTemplateId, customHtml)
      ensures payload.template_id == if contentMode == TemplateMode then Some(selectedTemplateId) else None
      ensures payload.segment_filter == SegmentFilterOf(locationFilter, onlyOptIn)
      ensures payload.status == Draft
      ensures Valid() && step == 4 ==>
        !IsBlank(payload.name) && !IsBlank(payload.subject)
        && (payload.template_id.Some? ==> payload.template_id.value != "")
        && (payload.template_id.None? ==> payload.body_html.Some? && !IsBlank(payload.body_html.value))
      ensures insert(payload).Err? ==> !created && toast == (insert(payload).message, ToastError)
      ensures insert(payload).Ok? ==>
        var answer := sendCampaign(insert(payload).value);
        && (answer.Err? ==> !created && toast == (answer.message, ToastError))
        && (answer.Ok? && !answer.value.ok ==> !created && toast == (SendErrorMessage(answer.value.error), ToastError))
        && (answer.Ok? && answer.value.ok ==> created && toast == (SentMessage, ToastSuccess))
    {
      var segment := BuildSegmentFilter(locationFilter, onlyOptIn);
      var body := BodyHtml(contentMode, templates, selectedTemplateId, customHtml);
      payload := CampaignInsert(name, subject, body,
        if contentMode == TemplateMode then Some(selectedTemplateId) else None,
        segment, Draft);
      var inserted := insert(payload);
      if inserted.Err? {
        return payload, false, (inserted.message, ToastError);
      }
      var answer := sendCampaign(inserted.value);
      if answer.Err? {
        return payload, false, (answer.message, ToastError);
      }
      if !answer.value.ok {
        return payload, false, (SendErrorMessage(answer.value.error), ToastError);
      }
      created := true;
      toast := (SentMessage, ToastSuccess);
    }
  }
}
