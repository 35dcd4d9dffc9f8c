/** The remarketing flow list (`src/components/tabs/RemarketingFlowsTab.tsx`):
    pausing and resuming a flow, its labels, and which campaigns a new flow
    can be linked to. */
module RemarketingFlowsTab {
  import opened Wrappers
  import opened Seqs
  import opened Types
  import opened Patches
  import opened AppContext
  import CampaignsTab
  import Links

  /** The update `toggleFlowStatus` dispatches. */
  function TogglePatch(isActive: bool): RemarketingFlowPatch {
    NoRemarketingFlowChange.(isActive := Some(!isActive))
  }

  /** `toggleFlowStatus(id, a)`: every flow with this id becomes active
      exactly when `a` (the state shown) was false; nothing else changes. */
  function ToggleFlowStatus(s: Store, flowId: string, isActive: bool): (r: Store)
    ensures |r.remarketingFlows| == |s.remarketingFlows|
    ensures forall i :: 0 <= i < |s.remarketingFlows| ==>
              r.remarketingFlows[i] == if s.remarketingFlows[i].id == flowId
                                       then s.remarketingFlows[i].(isActive := !isActive)
                                       else s.remarketingFlows[i]
    ensures r == s.(remarketingFlows := r.remarketingFlows)
  {
    UpdateRemarketingFlow(s, flowId, TogglePatch(isActive))
  }

  /** Toggling a flow shown in state `a`, then toggling it again from the new
      state, restores the store. */
  lemma ToggleTwiceRestores(s: Store, flowId: string, isActive: bool)
    requires forall f :: f in s.remarketingFlows && f.id == flowId ==> f.isActive == isActive
    ensures ToggleFlowStatus(ToggleFlowStatus(s, flowId, isActive), flowId, !isActive) == s
  {
    var r := ToggleFlowStatus(ToggleFlowStatus(s, flowId, isActive), flowId, !isActive);
    forall i | 0 <= i < |s.remarketingFlows|
      ensures r.remarketingFlows[i] == s.remarketingFlows[i]
    {
      assert s.remarketingFlows[i] in s.remarketingFlows;
    }
  }

  /** Pausing or resuming a flow touches neither its id nor its owner, so the
      campaign links stay consistent. */
  lemma ToggleKeepsLinks(s: Store, flowId: string, isActive: bool)
    requires Links.Consistent(s)
    ensures Links.Consistent(ToggleFlowStatus(s, flowId, isActive))
  {
    Links.UpdateRemarketingFlowKeepsLinks(s, flowId, TogglePatch(isActive));
  }

  /** The label of a flow step kind. */
  function StepKindLabel(k: FlowStepType): (r: string)
    ensures |r| > 0
  {
    match k
    case Message => "Mensagem"
    case Audio => "Áudio"
    case Image => "Foto"
    case Video => "Vídeo"
    case AiResponse => "Resposta com IA"
    case Menu => "Menu de Opções"
  }

  /** No two flow step kinds share a label. */
  lemma StepKindLabelsDistinct(k: FlowStepType, j: FlowStepType)
    ensures k != j ==> StepKindLabel(k) != StepKindLabel(j)
  {
  }

  /** `getStepTypeName` on the raw type string: a known kind gets its label,
      and any other string is shown as it is. */
  function StepTypeName(t: string): (r: string)
    ensures forall k: FlowStepType :: k.Key() == t ==> r == StepKindLabel(k)
    ensures (forall k: FlowStepType :: k.Key() != t) ==> r == t
  {
    match FlowStepTypeOfKey(t)
    case Some(k) => StepKindLabel(k)
    case None => t
  }

  /** The text shown when a flow's campaign is gone. */
  const MissingCampaign := "Campanha não encontrada"

  /** `getCampaignName`: the name of the first campaign with this id, or the
      missing-campaign text when there is none. */
  function CampaignName(campaigns: seq<Campaign>, campaignId: string): (r: string)
    ensures (forall c :: c in campaigns ==> c.id != campaignId) ==> r == MissingCampaign
    ensures forall i :: 0 <= i < |campaigns| && campaigns[i].id == campaignId
                        && (forall j :: 0 <= j < i ==> campaigns[j].id != campaignId)
                        ==> r == campaigns[i].name
  {
    var found := FindFirst(campaigns, CampaignsTab.CampaignIdIs(campaignId));
    assert found.None? ==> forall c :: c in campaigns ==> c.id != campaignId;
    if found.Some? then found.value.name else MissingCampaign
  }

  /** With campaign ids unique, a campaign's own id shows its name. */
  lemma CampaignNameOfOwner(campaigns: seq<Campaign>, c: Campaign)
    requires c in campaigns
    requires forall a, b :: a in campaigns && b in campaigns && a.id == b.id ==> a == b
    ensures CampaignName(campaigns, c.id) == c.name
  {
    var k :| 0 <= k < |campaigns| && campaigns[k] == c;
    var first := FindIndex(campaigns, CampaignsTab.CampaignIdIs(c.id));
    assert CampaignsTab.CampaignIdIs(c.id)(campaigns[k]);
    assert campaigns[first] in campaigns;
  }

  /** Once a campaign is deleted, its id shows the missing-campaign text. */
  lemma DeletedCampaignIsMissing(s: Store, id: string)
    ensures CampaignName(DeleteCampaign(s, id).campaigns, id) == MissingCampaign
  {
  }

  /** `getCategoryName` on the raw category string: a known key gets the
      category's label, and any other string is shown as it is. */
  function CategoryName(key: string): (r: string)
    ensures forall c: Category :: c.Key() == key ==> r == CampaignsTab.CategoryName(c)
    ensures (forall c: Category :: c.Key() != key) ==> r == key
  {
    match CategoryOfKey(key)
    case Some(c) => CampaignsTab.CategoryName(c)
    case None => key
  }

  /** Campaigns whose `hasRemarketingFlow` flag is set. */
  function Linkable(): Campaign -> bool {
    (c: Campaign) => c.hasRemarketingFlow == Some(true)
  }

  /** `availableCampaigns` (also the editor's campaign choices): exactly the
      campaigns whose flag is set, every copy, in store order. */
  function AvailableCampaigns(campaigns: seq<Campaign>): (r: seq<Campaign>)
    ensures forall c :: c in r <==> c in campaigns && c.hasRemarketingFlow == Some(true)
    ensures forall c :: multiset(r)[c] == if c.hasRemarketingFlow == Some(true) then multiset(campaigns)[c] else 0
    ensures IsSubseq(r, campaigns)
  {
    FilterIsSubseq(campaigns, Linkable());
    FilterCounts(campaigns, Linkable());
    Filter(campaigns, Linkable())
  }

  /** "Novo Fluxo" is disabled when no campaign can take a flow. */
  predicate NewFlowDisabled(campaigns: seq<Campaign>) {
    |AvailableCampaigns(campaigns)| == 0
  }

  /** The button is disabled exactly when no campaign has the flag set. */
  lemma NewFlowDisabledIffNoneLinkable(campaigns: seq<Campaign>)
    ensures NewFlowDisabled(campaigns) <==> forall i :: 0 <= i < |campaigns| ==> campaigns[i].hasRemarketingFlow != Some(true)
  {
    var r := AvailableCampaigns(campaigns);
    if |r| > 0 {
      assert r[0] in r;
    } else {
      forall i | 0 <= i < |campaigns| ensures campaigns[i].hasRemarketingFlow != Some(true) {
        assert campaigns[i] in campaigns;
      }
    }
  }
}
