/** The remarketing flow editor (`src/components/modals/RemarketingFlowModal.tsx`):
    its form, loading a flow into it, the trigger and step list edits, linking
    a campaign, the number fields, and what a submit dispatches. */
module RemarketingFlowModal {
  import opened Wrappers
  import opened Seqs
  import opened Text
  import opened Types
  import opened Patches
  import opened AppContext
  import CampaignsTab
  import CampaignModal
  import Links

  datatype FlowForm = FlowForm(
    name: string,
    description: string,
    isActive: bool,
    triggers: seq<string>,
    steps: seq<FlowStep>,
    abandonmentTime: int,
    campaignId: string,
    targetCategory: Category)

  /** The minutes of silence after which a contact counts as abandoned,
      when nothing else is given. */
  const DefaultAbandonmentTime := 30

  /** The form of a new flow: active, one empty trigger, no campaign yet. */
  const BlankForm := FlowForm("", "", true, [""], [], DefaultAbandonmentTime, "", NotBought)

  /** `abandonmentTime || 30`: a missing or zero time reads as the default. */
  function AbandonmentOrDefault(t: Option<int>): (r: int)
    ensures r != 0
    ensures t.Some? && t.value != 0 ==> r == t.value
    ensures t.None? || t == Some(0) ==> r == DefaultAbandonmentTime
  {
    if t.Some? && t.value != 0 then t.value else DefaultAbandonmentTime
  }

  /** The form filled from an existing flow: a flow without triggers shows one
      empty trigger, and the abandonment time falls back to the default. */
  function LoadFlow(f: RemarketingFlow): (r: FlowForm)
    ensures |r.triggers| >= 1
    ensures |f.triggers| > 0 ==> r.triggers == f.triggers
    ensures |f.triggers| == 0 ==> r.triggers == [""]
    ensures r.abandonmentTime == AbandonmentOrDefault(f.abandonmentTime)
    ensures r.name == f.name && r.description == f.description && r.isActive == f.isActive
    ensures r.steps == f.steps && r.campaignId == f.campaignId && r.targetCategory == f.targetCategory
  {
    FlowForm(f.name, f.description, f.isActive, if |f.triggers| > 0 then f.triggers else [""],
             f.steps, AbandonmentOrDefault(f.abandonmentTime), f.campaignId, f.targetCategory)
  }

  /** A trigger that survives submit: not empty once trimmed. */
  function NotBlank(): string -> bool {
    (t: string) => Trim(t) != ""
  }

  /** The triggers a submit keeps: exactly those with a character that is not
      whitespace, every copy of them, untrimmed and in their order. */
  function KeptTriggers(triggers: seq<string>): (r: seq<string>)
    ensures forall t :: t in r <==> t in triggers && exists i :: 0 <= i < |t| && !IsWhitespace(t[i])
    ensures forall t :: multiset(r)[t] == if exists i :: 0 <= i < |t| && !IsWhitespace(t[i]) then multiset(triggers)[t] else 0
    ensures IsSubseq(r, triggers)
  {
    forall t: string ensures Trim(t) != "" <==> exists i :: 0 <= i < |t| && !IsWhitespace(t[i]) {
      TrimEmptyIffBlank(t);
    }
    FilterIsSubseq(triggers, NotBlank());
    FilterCounts(triggers, NotBlank());
    Filter(triggers, NotBlank())
  }

  /** What a submit dispatches: a new flow for `addRemarketingFlow` (which then
      sets its id), or an update of the edited one. */
  datatype Submission = Create(flow: RemarketingFlow) | Change(id: string, patch: RemarketingFlowPatch)

  /** `handleSubmit`: every form field is sent with the blank triggers
      dropped; an edited flow is updated under its own id, otherwise a new one
      is created. */
  function Submit(form: FlowForm, editing: Option<RemarketingFlow>): (r: Submission)
    ensures r.Change? <==> editing.Some?
    ensures r.Change? ==> r.id == editing.value.id
  {
    var triggers := KeptTriggers(form.triggers);
    if editing.Some? then
      Change(editing.value.id,
             RemarketingFlowPatch(None, Some(form.name), Some(form.description), Some(form.isActive),
                                  Some(form.steps), Some(triggers), Some(Some(form.abandonmentTime)),
                                  Some(form.campaignId), Some(form.targetCategory)))
    else
      Create(RemarketingFlow("", form.name, form.description, form.isActive, form.steps, triggers,
                             Some(form.abandonmentTime), form.campaignId, form.targetCategory))
  }

  /** Hands a submission to the store; `newId` is the id a creation draws. */
  function Dispatch(s: Store, sub: Submission, newId: string): Store {
    match sub
    case Create(f) => AddRemarketingFlow(s, f, newId)
    case Change(id, p) => UpdateRemarketingFlow(s, id, p)
  }

  /** Submitting a new flow appends one flow carrying the form's fields and
      the kept triggers after the existing flows, and links it from the
      chosen campaign. */
  lemma SubmitNewFlow(s: Store, form: FlowForm, newId: string, i: int)
    requires 0 <= i < |s.campaigns| && form.campaignId != "" && s.campaigns[i].id == form.campaignId
    ensures var r := Dispatch(s, Submit(form, None), newId);
            |r.remarketingFlows| == |s.remarketingFlows| + 1
            && r.remarketingFlows[..|s.remarketingFlows|] == s.remarketingFlows
            && var f := r.remarketingFlows[|s.remarketingFlows|];
               f.id == newId && f.name == form.name && f.description == form.description
               && f.isActive == form.isActive && f.steps == form.steps
               && f.campaignId == form.campaignId && f.targetCategory == form.targetCategory
               && f.triggers == KeptTriggers(form.triggers) && f.abandonmentTime == Some(form.abandonmentTime)
               && r.campaigns[i].remarketingFlowId == Some(newId)
  {
  }

  /** An edit stores every form field, with the blank triggers dropped and
      the abandonment time set; only the id stays. */
  lemma EditTouchesFormFieldsOnly(form: FlowForm, f: RemarketingFlow)
    ensures var sub := Submit(form, Some(f));
            sub.Change? && sub.patch.ApplyTo(f)
              == f.(name := form.name, description := form.description, isActive := form.isActive,
                    steps := form.steps, triggers := KeptTriggers(form.triggers),
                    abandonmentTime := Some(form.abandonmentTime), campaignId := form.campaignId,
                    targetCategory := form.targetCategory)
  {
  }

  /** Editing a flow and moving it to another campaign leaves the back-
      references alone: the old campaign keeps pointing at it and the new one
      does not learn of it. */
  lemma EditingDoesNotRelink(s: Store, form: FlowForm, f: RemarketingFlow)
    ensures Dispatch(s, Submit(form, Some(f)), "").campaigns == s.campaigns
  {
  }

  /** Choosing a campaign in the select and submitting a new flow for it,
      from a consistent store and under a fresh id: the flow is created with
      that campaign's target category, the campaign points back at it, and
      the links stay consistent. */
  lemma SelectThenCreateLinks(s: Store, form: FlowForm, i: int, newId: string)
    requires Links.Consistent(s) && Links.FreshFlowId(s, newId)
    requires 0 <= i < |s.campaigns| && s.campaigns[i].id != ""
    requires forall j :: 0 <= j < i ==> s.campaigns[j].id != s.campaigns[i].id
    ensures var r := Dispatch(s, Submit(SelectCampaign(form, s.campaigns, s.campaigns[i].id), None), newId);
            Links.Consistent(r)
            && r.campaigns[i].remarketingFlowId == Some(newId)
            && Links.Linked(r.remarketingFlows, newId, s.campaigns[i].id)
            && r.remarketingFlows[|s.remarketingFlows|].targetCategory == s.campaigns[i].targetCategory
  {
    var picked := SelectCampaign(form, s.campaigns, s.campaigns[i].id);
    var sub := Submit(picked, None);
    Links.AddRemarketingFlowKeepsLinks(s, sub.flow, newId);
    SubmitNewFlow(s, picked, newId, i);
    var r := Dispatch(s, sub, newId);
    assert r.remarketingFlows[|s.remarketingFlows|] in r.remarketingFlows;
  }

  // ----- Triggers -----

  /** `addTrigger`: appends one empty trigger. */
  function AddTrigger(form: FlowForm): (r: FlowForm)
    ensures r.triggers == form.triggers + [""]
    ensures r == form.(triggers := r.triggers)
  {
    form.(triggers := form.triggers + [""])
  }

  /** `updateTrigger(i, v)`: replaces trigger `i` only. */
  function UpdateTrigger(form: FlowForm, i: int, value: string): (r: FlowForm)
    ensures |r.triggers| == |form.triggers|
    ensures 0 <= i < |form.triggers| ==> r.triggers[i] == value
    ensures forall j :: 0 <= j < |form.triggers| && j != i ==> r.triggers[j] == form.triggers[j]
    ensures r == form.(triggers := r.triggers)
  {
    form.(triggers := ReplaceAt(form.triggers, i, (_: string) => value))
  }

  /** `removeTrigger(i)`: drops exactly trigger `i`, keeping the order of the
      rest. */
  function RemoveTrigger(form: FlowForm, i: int): (r: FlowForm)
    ensures 0 <= i < |form.triggers| ==> r.triggers == form.triggers[..i] + form.triggers[i + 1..]
    ensures !(0 <= i < |form.triggers|) ==> r == form
    ensures r == form.(triggers := r.triggers)
  {
    form.(triggers := RemoveAt(form.triggers, i))
  }

  /** The remove control is shown only while there is more than one trigger. */
  predicate OffersRemoveTrigger(form: FlowForm) {
    |form.triggers| > 1
  }

  /** The edits the form offers never leave it without a trigger: adding and
      retyping keep the count, and removal is offered only above one. */
  lemma TriggerEditsKeepOne(form: FlowForm, i: int, value: string)
    requires |form.triggers| >= 1
    ensures |AddTrigger(form).triggers| >= 1
    ensures |UpdateTrigger(form, i, value).triggers| >= 1
    ensures OffersRemoveTrigger(form) ==> |RemoveTrigger(form, i).triggers| >= 1
  {
  }

  /** Removing the trigger just added gives the form back. */
  lemma RemoveTriggerUndoesAdd(form: FlowForm)
    ensures RemoveTrigger(AddTrigger(form), |form.triggers|) == form
  {
    var t := form.triggers + [""];
    assert t[..|form.triggers|] + t[|form.triggers| + 1..] == form.triggers;
  }

  // ----- Steps -----

  /** The step `addStep` appends: an empty text message with no delay. */
  function NewStep(id: string): FlowStep {
    FlowStep(id, FlowStepType.Message, "", None, None, None, None, None, Some(0))
  }

  /** `addStep`: appends one new step and keeps the others. */
  function AddStep(form: FlowForm, stepId: string): (r: FlowForm)
    ensures r.steps == form.steps + [NewStep(stepId)]
    ensures r == form.(steps := r.steps)
  {
    form.(steps := form.steps + [NewStep(stepId)])
  }

  /** `updateStep(i, u)`: merges `u` into step `i` only. */
  function UpdateStep(form: FlowForm, i: int, u: FlowStepPatch): (r: FlowForm)
    ensures |r.steps| == |form.steps|
    ensures 0 <= i < |form.steps| ==> r.steps[i] == u.ApplyTo(form.steps[i])
    ensures forall j :: 0 <= j < |form.steps| && j != i ==> r.steps[j] == form.steps[j]
    ensures r == form.(steps := r.steps)
  {
    form.(steps := ReplaceAt(form.steps, i, (st: FlowStep) => u.ApplyTo(st)))
  }

  /** `removeStep(i)`: drops exactly step `i`, keeping the order of the rest. */
  function RemoveStep(form: FlowForm, i: int): (r: FlowForm)
    ensures 0 <= i < |form.steps| ==> r.steps == form.steps[..i] + form.steps[i + 1..]
    ensures !(0 <= i < |form.steps|) ==> r == form
    ensures r == form.(steps := r.steps)
  {
    form.(steps := RemoveAt(form.steps, i))
  }

  /** Removing the step just added gives the form back. */
  lemma RemoveStepUndoesAdd(form: FlowForm, stepId: string)
    ensures RemoveStep(AddStep(form, stepId), |form.steps|) == form
  {
    var steps := form.steps + [NewStep(stepId)];
    assert steps[..|form.steps|] + steps[|form.steps| + 1..] == form.steps;
  }

  /** The file types the picker of a flow media kind accepts; flows have no
      document steps, so `pdf` accepts nothing in particular. */
  function AcceptType(kind: string): (r: string)
    ensures kind == "audio" ==> r == "audio/*"
    ensures kind == "image" ==> r == "image/*"
    ensures kind == "video" ==> r == "video/*"
    ensures r == "" <==> kind != "audio" && kind != "image" && kind != "video"
  {
    if kind == "audio" then "audio/*"
    else if kind == "image" then "image/*"
    else if kind == "video" then "video/*"
    else ""
  }

  /** The flow picker agrees with the campaign picker on every kind the flow
      picker knows. */
  lemma AcceptTypesAgree(kind: string)
    requires kind != "pdf"
    ensures AcceptType(kind) == CampaignModal.AcceptType(kind)
  {
  }

  // ----- Campaign and number fields -----

  /** Choosing a campaign in the select: the form takes its id and a copy of
      the first such campaign's target category, or `not_bought` when no
      campaign has that id. */
  function SelectCampaign(form: FlowForm, campaigns: seq<Campaign>, campaignId: string): (r: FlowForm)
    ensures r == form.(campaignId := campaignId, targetCategory := r.targetCategory)
    ensures (forall c :: c in campaigns ==> c.id != campaignId) ==> r.targetCategory == NotBought
    ensures forall i :: 0 <= i < |campaigns| && campaigns[i].id == campaignId
                        && (forall j :: 0 <= j < i ==> campaigns[j].id != campaignId)
                        ==> r.targetCategory == campaigns[i].targetCategory
  {
    var found := FindFirst(campaigns, CampaignsTab.CampaignIdIs(campaignId));
    assert found.None? ==> forall c :: c in campaigns ==> c.id != campaignId;
    form.(campaignId := campaignId, targetCategory := if found.Some? then found.value.targetCategory else NotBought)
  }

  /** The abandonment field: `parseInt(text) || 30`. */
  function AbandonmentInput(text: string): (r: int)
    ensures r != 0
    ensures ParseInt(text).None? ==> r == DefaultAbandonmentTime
    ensures ParseInt(text) == Some(0) ==> r == DefaultAbandonmentTime
    ensures ParseInt(text).Some? && ParseInt(text).value != 0 ==> r == ParseInt(text).value
  {
    ParseIntOr(text, DefaultAbandonmentTime)
  }

  /** A typed positive number of minutes is read back as that number, and a
      typed 0 becomes the default. */
  lemma AbandonmentInputReadsNumbers(n: nat)
    ensures n > 0 ==> AbandonmentInput(NatToString(n)) == n
    ensures AbandonmentInput(NatToString(0)) == DefaultAbandonmentTime
  {
    ParseIntOfNatToString(n);
    ParseIntOfNatToString(0);
  }
}
