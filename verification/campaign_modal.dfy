/** The campaign editor (`src/components/modals/CampaignModal.tsx`): its form,
    loading a campaign into it, the step and button list edits, and what a
    submit dispatches to the store. Date text conversions are parameters:
    `toInput` stands for `toISOString().slice(0, 16)` and `fromInput` for
    `new Date(text)`. */
module CampaignModal {
  import opened Wrappers
  import opened Seqs
  import opened Text
  import opened Types
  import opened Patches
  import opened AppContext

  datatype CampaignForm = CampaignForm(
    name: string,
    description: string,
    targetCategory: Category,
    steps: seq<CampaignStep>,
    scheduledDate: string,
    hasRemarketingFlow: bool)

  /** The form of a new campaign. */
  const BlankForm := CampaignForm("", "", NotBought, [], "", false)

  /** The form filled from an existing campaign: a missing date shows as an
      empty field and a missing `hasRemarketingFlow` as unchecked. */
  function LoadCampaign(c: Campaign, toInput: Timestamp -> string): (r: CampaignForm)
    ensures r.name == c.name && r.description == c.description
    ensures r.targetCategory == c.targetCategory && r.steps == c.steps
    ensures r.hasRemarketingFlow <==> c.hasRemarketingFlow == Some(true)
    ensures c.scheduledDate.None? ==> r.scheduledDate == ""
    ensures c.scheduledDate.Some? ==> r.scheduledDate == toInput(c.scheduledDate.value)
  {
    CampaignForm(c.name, c.description, c.targetCategory, c.steps,
                 if c.scheduledDate.Some? then toInput(c.scheduledDate.value) else "",
                 c.hasRemarketingFlow.GetOr(false))
  }

  /** What a submit dispatches: a new campaign for `addCampaign` (which then
      sets its id, status and counters), or an update of the edited one. */
  datatype Submission = Create(campaign: Campaign) | Change(id: string, patch: CampaignPatch)

  /** The date the form's text stands for: an empty field is no date. */
  function FormDate(text: string, fromInput: string -> Timestamp): (r: Option<Timestamp>)
    ensures r.None? <==> text == ""
  {
    if text == "" then None else Some(fromInput(text))
  }

  /** `handleSubmit`: every form field is sent, with the date text converted;
      an edited campaign is updated under its own id, otherwise a new one is
      created. */
  function Submit(form: CampaignForm, editing: Option<Campaign>, fromInput: string -> Timestamp): (r: Submission)
    ensures r.Change? <==> editing.Some?
    ensures r.Change? ==> r.id == editing.value.id
  {
    var date := FormDate(form.scheduledDate, fromInput);
    if editing.Some? then
      Change(editing.value.id,
             CampaignPatch(None, Some(form.name), Some(form.description), Some(form.targetCategory),
                           Some(form.steps), Some(date), None, None, None, Some(Some(form.hasRemarketingFlow)), None))
    else
      Create(Campaign("", form.name, form.description, form.targetCategory, form.steps, date,
                      Draft, 0, 0, Some(form.hasRemarketingFlow), None))
  }

  /** Hands a submission to the store; `newId` is the id a creation draws. */
  function Dispatch(s: Store, sub: Submission, newId: string): Store {
    match sub
    case Create(c) => AddCampaign(s, c, newId)
    case Change(id, p) => UpdateCampaign(s, id, p)
  }

  /** Submitting a new campaign appends a draft carrying the form's fields,
      with no counters, no back-reference, and no date when the field was
      empty. */
  lemma SubmitNewCampaign(s: Store, form: CampaignForm, fromInput: string -> Timestamp, newId: string)
    ensures var r := Dispatch(s, Submit(form, None, fromInput), newId);
            |r.campaigns| == |s.campaigns| + 1 && r.campaigns[..|s.campaigns|] == s.campaigns
            && var c := r.campaigns[|s.campaigns|];
               c.id == newId && c.name == form.name && c.description == form.description
               && c.targetCategory == form.targetCategory && c.steps == form.steps
               && (c.scheduledDate.None? <==> form.scheduledDate == "")
               && c.status == Draft && c.sentCount == 0 && c.openCount == 0
               && c.hasRemarketingFlow == Some(form.hasRemarketingFlow) && c.remarketingFlowId.None?
  {
  }

  /** An edit stores every form field, the date as the field reads (none when
      it was cleared), and a set `hasRemarketingFlow`; the id, status,
      counters and back-reference stay. */
  lemma EditTouchesFormFieldsOnly(form: CampaignForm, c: Campaign, fromInput: string -> Timestamp)
    ensures var sub := Submit(form, Some(c), fromInput);
            sub.Change? && sub.patch.ApplyTo(c)
              == c.(name := form.name, description := form.description, targetCategory := form.targetCategory,
                    steps := form.steps, scheduledDate := FormDate(form.scheduledDate, fromInput),
                    hasRemarketingFlow := Some(form.hasRemarketingFlow))
  {
  }

  /** Clearing the date field of a dated campaign and saving unschedules it. */
  lemma ClearingDateUnschedules(form: CampaignForm, c: Campaign, fromInput: string -> Timestamp)
    requires form.scheduledDate == ""
    ensures Submit(form, Some(c), fromInput).patch.ApplyTo(c).scheduledDate.None?
  {
  }

  /** Saving an undated campaign without touching the form changes nothing but
      a missing `hasRemarketingFlow`, which becomes `false`; its status,
      counters and back-reference are never part of the update. */
  lemma LoadThenSubmitKeepsCampaign(c: Campaign, toInput: Timestamp -> string, fromInput: string -> Timestamp)
    requires c.scheduledDate.None?
    ensures var sub := Submit(LoadCampaign(c, toInput), Some(c), fromInput);
            sub.Change? && sub.patch.ApplyTo(c) == c.(hasRemarketingFlow := Some(c.hasRemarketingFlow == Some(true)))
  {
  }

  /** Saving a dated campaign without touching the form stores the date that
      the rendered text reads back as. */
  lemma LoadThenSubmitRereadsDate(c: Campaign, toInput: Timestamp -> string, fromInput: string -> Timestamp)
    requires c.scheduledDate.Some? && toInput(c.scheduledDate.value) != ""
    ensures var sub := Submit(LoadCampaign(c, toInput), Some(c), fromInput);
            sub.Change? && sub.patch.ApplyTo(c).scheduledDate == Some(fromInput(toInput(c.scheduledDate.value)))
  {
  }

  // ----- Steps -----

  /** The step `addStep` appends: an empty text message with no delay. */
  function NewStep(id: string): CampaignStep {
    CampaignStep(id, CampaignStepType.Message, "", None, None, None, Some(0), None)
  }

  /** `addStep`: appends one new step and keeps the others. */
  function AddStep(form: CampaignForm, stepId: string): (r: CampaignForm)
    ensures r.steps == form.steps + [NewStep(stepId)]
    ensures r == form.(steps := r.steps)
  {
    form.(steps := form.steps + [NewStep(stepId)])
  }

  /** `updateStep(i, u)`: merges `u` into step `i` only. */
  function UpdateStep(form: CampaignForm, i: int, u: CampaignStepPatch): (r: CampaignForm)
    ensures |r.steps| == |form.steps|
    ensures 0 <= i < |form.steps| ==> r.steps[i] == u.ApplyTo(form.steps[i])
    ensures forall j :: 0 <= j < |form.steps| && j != i ==> r.steps[j] == form.steps[j]
    ensures r == form.(steps := r.steps)
  {
    form.(steps := ReplaceAt(form.steps, i, (st: CampaignStep) => u.ApplyTo(st)))
  }

  /** `removeStep(i)`: drops exactly step `i`, keeping the order of the rest. */
  function RemoveStep(form: CampaignForm, i: int): (r: CampaignForm)
    ensures 0 <= i < |form.steps| ==> r.steps == form.steps[..i] + form.steps[i + 1..]
    ensures !(0 <= i < |form.steps|) ==> r == form
    ensures r == form.(steps := r.steps)
  {
    form.(steps := RemoveAt(form.steps, i))
  }

  /** Removing the step just added gives the form back. */
  lemma RemoveStepUndoesAdd(form: CampaignForm, stepId: string)
    ensures RemoveStep(AddStep(form, stepId), |form.steps|) == form
  {
    var steps := form.steps + [NewStep(stepId)];
    assert steps[..|form.steps|] == form.steps;
    assert steps[|form.steps| + 1..] == [];
  }

  /** The file picker of a step: a chosen file's URL and name go into it. */
  function AttachFile(form: CampaignForm, i: int, url: string, fileName: string): (r: CampaignForm)
    ensures |r.steps| == |form.steps|
    ensures 0 <= i < |form.steps| ==>
              r.steps[i] == form.steps[i].(mediaUrl := Some(url), fileName := Some(fileName))
    ensures forall j :: 0 <= j < |form.steps| && j != i ==> r.steps[j] == form.steps[j]
  {
    UpdateStep(form, i, NoCampaignStepChange.(mediaUrl := Some(Some(url)), fileName := Some(Some(fileName))))
  }

  /** The file types the picker of a media kind accepts; any other kind
      accepts nothing in particular. */
  function AcceptType(kind: string): (r: string)
    ensures kind == "audio" ==> r == "audio/*"
    ensures kind == "image" ==> r == "image/*"
    ensures kind == "video" ==> r == "video/*"
    ensures kind == "pdf" ==> r == ".pdf"
    ensures r == "" <==> kind != "audio" && kind != "image" && kind != "video" && kind != "pdf"
  {
    if kind == "audio" then "audio/*"
    else if kind == "image" then "image/*"
    else if kind == "video" then "video/*"
    else if kind == "pdf" then ".pdf"
    else ""
  }

  /** Among campaign step kinds, exactly the text and button steps have no
      file picker. */
  lemma AcceptTypeOfStepKinds(k: CampaignStepType)
    ensures AcceptType(k.Key()) == "" <==> k == CampaignStepType.Message || k == Buttons
  {
  }

  // ----- Buttons -----

  /** The buttons of a step; a step without any has the empty list. */
  function ButtonsOf(step: CampaignStep): seq<Button> {
    step.buttons.GetOr([])
  }

  /** `addButton`: appends one button with empty text to step `si`, treating
      missing buttons as none. The step must exist. */
  function AddButton(form: CampaignForm, si: int, buttonId: string): (r: CampaignForm)
    requires 0 <= si < |form.steps|
    ensures |r.steps| == |form.steps|
    ensures r.steps[si] == form.steps[si].(buttons := Some(ButtonsOf(form.steps[si]) + [Button(buttonId, "")]))
    ensures forall j :: 0 <= j < |form.steps| && j != si ==> r.steps[j] == form.steps[j]
  {
    var buttons := ButtonsOf(form.steps[si]) + [Button(buttonId, "")];
    UpdateStep(form, si, NoCampaignStepChange.(buttons := Some(Some(buttons))))
  }

  /** `updateButton`: sets the text of button `bi` of step `si`, keeping its
      id and every other button. The step must exist. */
  function UpdateButton(form: CampaignForm, si: int, bi: int, text: string): (r: CampaignForm)
    requires 0 <= si < |form.steps|
    ensures |r.steps| == |form.steps|
    ensures r.steps[si].buttons.Some?
    ensures var before := ButtonsOf(form.steps[si]);
            var after := r.steps[si].buttons.value;
            |after| == |before|
            && (0 <= bi < |before| ==> after[bi] == Button(before[bi].id, text))
            && (forall j :: 0 <= j < |before| && j != bi ==> after[j] == before[j])
    ensures r.steps[si] == form.steps[si].(buttons := r.steps[si].buttons)
    ensures forall j :: 0 <= j < |form.steps| && j != si ==> r.steps[j] == form.steps[j]
  {
    var buttons := ReplaceAt(ButtonsOf(form.steps[si]), bi, (b: Button) => b.(text := text));
    UpdateStep(form, si, NoCampaignStepChange.(buttons := Some(Some(buttons))))
  }

  /** `removeButton`: drops exactly button `bi` of step `si`. The step must
      exist. */
  function RemoveButton(form: CampaignForm, si: int, bi: int): (r: CampaignForm)
    requires 0 <= si < |form.steps|
    ensures |r.steps| == |form.steps|
    ensures r.steps[si].buttons.Some?
    ensures var before := ButtonsOf(form.steps[si]);
            r.steps[si].buttons.value == if 0 <= bi < |before| then before[..bi] + before[bi + 1..] else before
    ensures r.steps[si] == form.steps[si].(buttons := r.steps[si].buttons)
    ensures forall j :: 0 <= j < |form.steps| && j != si ==> r.steps[j] == form.steps[j]
  {
    var buttons := RemoveAt(ButtonsOf(form.steps[si]), bi);
    UpdateStep(form, si, NoCampaignStepChange.(buttons := Some(Some(buttons))))
  }

  /** Removing the button just added gives the step its buttons back (a step
      that had none now has an explicit empty list). */
  lemma RemoveButtonUndoesAdd(form: CampaignForm, si: int, buttonId: string)
    requires 0 <= si < |form.steps|
    ensures var added := AddButton(form, si, buttonId);
            RemoveButton(added, si, |ButtonsOf(form.steps[si])|).steps[si]
            == form.steps[si].(buttons := Some(ButtonsOf(form.steps[si])))
  {
    var before := ButtonsOf(form.steps[si]);
    var after := before + [Button(buttonId, "")];
    var added := AddButton(form, si, buttonId);
    assert ButtonsOf(added.steps[si]) == after;
    assert after[..|before|] + after[|before| + 1..] == before;
  }

  // ----- Inputs -----

  /** The delay field: `parseInt(text) || 0`. */
  function DelayInput(text: string): (r: int)
    ensures ParseInt(text).None? ==> r == 0
    ensures ParseInt(text).Some? ==> r == ParseInt(text).value
  {
    ParseIntOr(text, 0)
  }

  /** A typed number of seconds is read back as that number, with either
      sign: the field's `min="0"` is not enforced here. */
  lemma DelayInputReadsNumbers(n: nat)
    ensures DelayInput(NatToString(n)) == n
    ensures DelayInput("-" + NatToString(n)) == -(n as int)
  {
    ParseIntOfNatToString(n);
    assert ParseInt(NatToString(n)) == Some(n as int);
    assert ParseInt("-" + NatToString(n)) == Some(-(n as int));
  }

  /** An empty delay field reads as 0. */
  lemma EmptyDelayIsZero()
    ensures DelayInput("") == 0
  {
    assert TrimStart("") == "";
    assert DigitPrefix("", 10) == "";
  }
}
