/** The campaign list (`src/components/tabs/CampaignsTab.tsx`): sending a
    campaign, the audience count, the labels it shows, and which controls a
    campaign's status enables. */
module CampaignsTab {
  import opened Wrappers
  import opened Seqs
  import opened Types
  import opened Patches
  import opened AppContext
  import Links

  /** The campaign with this id, as `campaigns.find` sees it. */
  function CampaignIdIs(id: string): Campaign -> bool {
    (c: Campaign) => c.id == id
  }

  /** `handleSendCampaign`: an unknown id changes nothing; otherwise the user
      is asked to confirm (`confirmed`), and a confirmed send marks every
      campaign with this id as sent, with a snapshot of how many clients are in
      the found campaign's target category. The status is not consulted. */
  function SendCampaign(s: Store, campaignId: string, confirmed: bool): (r: Store)
    ensures var found := FindFirst(s.campaigns, CampaignIdIs(campaignId));
            found.None? || !confirmed ==> r == s
    ensures var found := FindFirst(s.campaigns, CampaignIdIs(campaignId));
            found.Some? && confirmed ==>
              |r.campaigns| == |s.campaigns|
              && (forall i :: 0 <= i < |s.campaigns| ==>
                    r.campaigns[i] == if s.campaigns[i].id == campaignId
                                      then s.campaigns[i].(status := CampaignStatus.Sent,
                                                           sentCount := TargetCount(s.clients, found.value.targetCategory))
                                      else s.campaigns[i])
              && r == s.(campaigns := r.campaigns)
  {
    var found := FindFirst(s.campaigns, CampaignIdIs(campaignId));
    if found.None? then s
    else
      var target := TargetCount(s.clients, found.value.targetCategory);
      if confirmed then UpdateCampaign(s, campaignId, SentPatch(target))
      else s
  }

  /** The update a confirmed send dispatches. */
  function SentPatch(target: nat): CampaignPatch {
    NoCampaignChange.(status := Some(CampaignStatus.Sent), sentCount := Some(target))
  }

  /** Sending the campaign at index `i` (the first with its id) leaves it
      sent, counting exactly its audience, whatever status it had before: an
      already sent campaign is sent again with a fresh count. */
  lemma SendMarksCampaignSent(s: Store, i: int)
    requires 0 <= i < |s.campaigns|
    requires forall j :: 0 <= j < i ==> s.campaigns[j].id != s.campaigns[i].id
    ensures var r := SendCampaign(s, s.campaigns[i].id, true);
            r.campaigns[i] == s.campaigns[i].(status := CampaignStatus.Sent, sentCount := TargetCount(s.clients, s.campaigns[i].targetCategory))
            && ShowsCounts(r.campaigns[i]) && !OffersSendNow(r.campaigns[i])
  {
    var id := s.campaigns[i].id;
    assert CampaignIdIs(id)(s.campaigns[i]);
    assert FindIndex(s.campaigns, CampaignIdIs(id)) == i;
  }

  /** Sending only touches campaigns, so the links between campaigns and
      flows stay consistent. */
  lemma SendKeepsLinks(s: Store, campaignId: string, confirmed: bool)
    requires Links.Consistent(s)
    ensures Links.Consistent(SendCampaign(s, campaignId, confirmed))
  {
    var found := FindFirst(s.campaigns, CampaignIdIs(campaignId));
    if found.Some? && confirmed {
      var target := TargetCount(s.clients, found.value.targetCategory);
      Links.UpdateCampaignKeepsLinks(s, campaignId, SentPatch(target));
    }
  }

  /** `getTargetCount` (also the editor's): how many clients a campaign for
      the category reaches, that is the number of positions in the client
      list holding a client of the category; none exactly when no client is
      in it. */
  function TargetCount(clients: seq<Client>, cat: Category): (r: nat)
    ensures r <= |clients|
    ensures r == |Audience(clients, cat)|
    ensures r == 0 <==> forall i :: 0 <= i < |clients| ==> clients[i].category != cat
  {
    EmptyAudience(clients, cat);
    CountIsAudienceSize(clients, cat);
    CountCategory(clients, cat)
  }

  /** The positions of the clients in the category. */
  function Audience(clients: seq<Client>, cat: Category): set<int> {
    set i | 0 <= i < |clients| && clients[i].category == cat
  }

  /** Counting the category counts its positions, one per client. */
  lemma CountIsAudienceSize(clients: seq<Client>, cat: Category)
    ensures CountCategory(clients, cat) == |Audience(clients, cat)|
  {
    FilterCountIsPositions(clients, InCategory(cat));
    assert Audience(clients, cat) == Positions(clients, InCategory(cat));
  }

  /** A category has no clients exactly when no client is in it. */
  lemma EmptyAudience(clients: seq<Client>, cat: Category)
    ensures CountCategory(clients, cat) == 0 <==> forall i :: 0 <= i < |clients| ==> clients[i].category != cat
  {
    var matching := Filter(clients, InCategory(cat));
    if |matching| > 0 {
      assert matching[0] in matching;
    } else {
      forall i | 0 <= i < |clients| ensures clients[i].category != cat {
        assert clients[i] in clients;
      }
    }
  }

  /** "Enviar Agora" is offered for drafts only. */
  predicate OffersSendNow(c: Campaign) {
    c.status == Draft
  }

  /** The sent and open counters are shown for sent campaigns only. */
  predicate ShowsCounts(c: Campaign) {
    c.status == CampaignStatus.Sent
  }

  /** No status both offers sending and shows counters. */
  lemma SendNowAndCountsExclusive(c: Campaign)
    ensures !(OffersSendNow(c) && ShowsCounts(c))
  {
  }

  /** The category labels: every category has one. */
  function CategoryName(c: Category): (r: string)
    ensures |r| > 0
  {
    match c
    case NotBought => "Não Comprou"
    case BoughtCorreios => "Comprou via Correios"
    case BoughtLogz => "Comprou via Logz"
    case CompletedPurchases => "Compras Completas"
  }

  /** The status labels: every status has one. */
  function StatusText(st: CampaignStatus): (r: string)
    ensures |r| > 0
  {
    match st
    case Draft => "Rascunho"
    case Scheduled => "Agendada"
    case Sent => "Enviada"
  }

  /** The label of a campaign step kind. */
  function StepKindLabel(k: CampaignStepType): (r: string)
    ensures |r| > 0
  {
    match k
    case Message => "Mensagem"
    case Audio => "Áudio"
    case Image => "Imagem"
    case Video => "Vídeo"
    case Pdf => "PDF"
    case Buttons => "Botões"
  }

  /** No two categories, statuses or step kinds share a label, so a label
      identifies what it names. */
  lemma LabelsDistinct(c: Category, d: Category, st: CampaignStatus, t: CampaignStatus,
                       k: CampaignStepType, j: CampaignStepType)
    ensures c != d ==> CategoryName(c) != CategoryName(d)
    ensures st != t ==> StatusText(st) != StatusText(t)
    ensures k != j ==> StepKindLabel(k) != StepKindLabel(j)
  {
  }

  /** `getStepTypeName` on the raw type string: a known kind gets its label,
      and any other string is shown as it is. */
  function StepTypeName(t: string): (r: string)
    ensures forall k: CampaignStepType :: k.Key() == t ==> r == StepKindLabel(k)
    ensures (forall k: CampaignStepType :: k.Key() != t) ==> r == t
  {
    match CampaignStepTypeOfKey(t)
    case Some(k) => StepKindLabel(k)
    case None => t
  }
}
