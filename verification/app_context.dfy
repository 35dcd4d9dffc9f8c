/** The in-memory store behind the panel (`src/contexts/AppContext.tsx`). Each
    handler is one atomic transition from a `Store` to the next; ids the source
    draws at random, and the current time, are parameters. */
module AppContext {
  import opened Wrappers
  import opened Seqs
  import opened Types
  import opened Patches

  /** The one password the login accepts. */
  const AdminPassword := "admin123"

  datatype Store = Store(
    isAuthenticated: bool,
    clients: seq<Client>,
    messages: seq<Message>,
    botFlows: seq<BotFlow>,
    remarketingFlows: seq<RemarketingFlow>,
    campaigns: seq<Campaign>,
    botConfig: BotConfig,
    statistics: Statistics,
    publicChatUrl: string)

  /** The configuration a session starts with. */
  const InitialBotConfig := BotConfig("Assistente Virtual", None, None, true, true, true, true, true)

  /** The statistics a session starts with. */
  const InitialStatistics := Statistics(0, 0, 0, 0.0, 0.0, 0)

  // ----- Authentication -----

  /** Signs in when the password is the admin password; a wrong password
      leaves the store as it was (it does not sign an open session out). */
  function Login(s: Store, password: string): (r: (Store, bool))
    ensures r.1 <==> password == AdminPassword
    ensures r.1 ==> r.0.isAuthenticated && r.0 == s.(isAuthenticated := true)
    ensures !r.1 ==> r.0 == s
  {
    if password == AdminPassword then (s.(isAuthenticated := true), true) else (s, false)
  }

  function Logout(s: Store): (r: Store)
    ensures !r.isAuthenticated
    ensures r == s.(isAuthenticated := false)
  {
    s.(isAuthenticated := false)
  }

  // ----- Clients -----

  /** Clients in one category. */
  function InCategory(cat: Category): Client -> bool {
    (c: Client) => c.category == cat
  }

  /** Clients with one status. */
  function HasStatus(st: ClientStatus): Client -> bool {
    (c: Client) => c.status == st
  }

  /** The records a delete keeps, and the flows a campaign owns: named so that
      every statement about a filter speaks of the same predicate. */
  function ClientIdIsNot(id: string): Client -> bool {
    (c: Client) => c.id != id
  }

  function NotAddressedTo(clientId: string): Message -> bool {
    (m: Message) => m.clientId != clientId
  }

  function BotFlowIdIsNot(id: string): BotFlow -> bool {
    (f: BotFlow) => f.id != id
  }

  function FlowIdIs(id: string): RemarketingFlow -> bool {
    (f: RemarketingFlow) => f.id == id
  }

  function FlowIdIsNot(id: string): RemarketingFlow -> bool {
    (f: RemarketingFlow) => f.id != id
  }

  function OwnedBy(campaignId: string): RemarketingFlow -> bool {
    (f: RemarketingFlow) => f.campaignId == campaignId
  }

  function CampaignIdIsNot(id: string): Campaign -> bool {
    (c: Campaign) => c.id != id
  }

  /** Appends `client` under the new id. */
  function AddClient(s: Store, client: Client, id: string): (r: Store)
    ensures r.clients == s.clients + [client.(id := id)]
    ensures r == s.(clients := r.clients)
  {
    s.(clients := s.clients + [client.(id := id)])
  }

  /** Merges `p` into every client with this id; the others, and the order,
      stay as they were. */
  function UpdateClient(s: Store, id: string, p: ClientPatch): (r: Store)
    ensures |r.clients| == |s.clients|
    ensures forall i :: 0 <= i < |s.clients| && s.clients[i].id == id ==> r.clients[i] == p.ApplyTo(s.clients[i])
    ensures forall i :: 0 <= i < |s.clients| && s.clients[i].id != id ==> r.clients[i] == s.clients[i]
    ensures r == s.(clients := r.clients)
  {
    s.(clients := MapIf(s.clients, (c: Client) => c.id == id, (c: Client) => p.ApplyTo(c)))
  }

  /** Removes the clients with this id and, with them, the messages addressed
      to that id: every copy of anything else survives, in its order. */
  function DeleteClient(s: Store, id: string): (r: Store)
    ensures forall c :: c in r.clients <==> c in s.clients && c.id != id
    ensures forall m :: m in r.messages <==> m in s.messages && m.clientId != id
    ensures forall c :: multiset(r.clients)[c] == if c.id != id then multiset(s.clients)[c] else 0
    ensures forall m :: multiset(r.messages)[m] == if m.clientId != id then multiset(s.messages)[m] else 0
    ensures IsSubseq(r.clients, s.clients) && IsSubseq(r.messages, s.messages)
    ensures r == s.(clients := r.clients, messages := r.messages)
  {
    var keepClient := ClientIdIsNot(id);
    var keepMessage := NotAddressedTo(id);
    FilterIsSubseq(s.clients, keepClient);
    FilterCounts(s.clients, keepClient);
    FilterIsSubseq(s.messages, keepMessage);
    FilterCounts(s.messages, keepMessage);
    s.(clients := Filter(s.clients, keepClient), messages := Filter(s.messages, keepMessage))
  }

  /** `moveClientToCategory`: an update whose patch is only the category. */
  function MoveClientToCategory(s: Store, clientId: string, cat: Category): (r: Store)
    ensures |r.clients| == |s.clients|
    ensures forall i :: 0 <= i < |s.clients| ==>
              r.clients[i] == if s.clients[i].id == clientId then s.clients[i].(category := cat) else s.clients[i]
    ensures r == s.(clients := r.clients)
  {
    UpdateClient(s, clientId, NoClientChange.(category := Some(cat)))
  }

  // ----- Messages -----

  /** Appends one unread message from the admin. */
  function SendMessage(s: Store, id: string, clientId: string, content: string, kind: MessageType,
                       mediaUrl: Option<string>, now: Timestamp): (r: Store)
    ensures |r.messages| == |s.messages| + 1 && r.messages[..|s.messages|] == s.messages
    ensures var m := r.messages[|s.messages|];
            m.id == id && m.clientId == clientId && m.content == content && m.kind == kind
            && m.sender == FromAdmin && !m.isRead && m.mediaUrl == mediaUrl && m.timestamp == now
    ensures r == s.(messages := r.messages)
  {
    var m := Message.Message(id, clientId, content, kind, FromAdmin, now, mediaUrl, None, None, false, None);
    assert (s.messages + [m])[..|s.messages|] == s.messages;
    s.(messages := s.messages + [m])
  }

  // ----- Bot flows -----

  function AddBotFlow(s: Store, flow: BotFlow, id: string): (r: Store)
    ensures r.botFlows == s.botFlows + [flow.(id := id)]
    ensures r == s.(botFlows := r.botFlows)
  {
    s.(botFlows := s.botFlows + [flow.(id := id)])
  }

  function UpdateBotFlow(s: Store, id: string, p: BotFlowPatch): (r: Store)
    ensures |r.botFlows| == |s.botFlows|
    ensures forall i :: 0 <= i < |s.botFlows| && s.botFlows[i].id == id ==> r.botFlows[i] == p.ApplyTo(s.botFlows[i])
    ensures forall i :: 0 <= i < |s.botFlows| && s.botFlows[i].id != id ==> r.botFlows[i] == s.botFlows[i]
    ensures r == s.(botFlows := r.botFlows)
  {
    s.(botFlows := MapIf(s.botFlows, (f: BotFlow) => f.id == id, (f: BotFlow) => p.ApplyTo(f)))
  }

  function DeleteBotFlow(s: Store, id: string): (r: Store)
    ensures forall f :: f in r.botFlows <==> f in s.botFlows && f.id != id
    ensures forall f :: multiset(r.botFlows)[f] == if f.id != id then multiset(s.botFlows)[f] else 0
    ensures IsSubseq(r.botFlows, s.botFlows)
    ensures r == s.(botFlows := r.botFlows)
  {
    var keep := BotFlowIdIsNot(id);
    FilterIsSubseq(s.botFlows, keep);
    FilterCounts(s.botFlows, keep);
    s.(botFlows := Filter(s.botFlows, keep))
  }

  // ----- Campaigns -----

  /** Appends the campaign under the new id, as a draft with zero counters,
      whatever status and counters the input carried. */
  function AddCampaign(s: Store, campaign: Campaign, id: string): (r: Store)
    ensures |r.campaigns| == |s.campaigns| + 1 && r.campaigns[..|s.campaigns|] == s.campaigns
    ensures var c := r.campaigns[|s.campaigns|];
            c.status == Draft && c.sentCount == 0 && c.openCount == 0 && c.id == id
    ensures r.campaigns[|s.campaigns|] == campaign.(id := id, sentCount := 0, openCount := 0, status := Draft)
    ensures r == s.(campaigns := r.campaigns)
  {
    var c := campaign.(id := id, sentCount := 0, openCount := 0, status := Draft);
    assert (s.campaigns + [c])[..|s.campaigns|] == s.campaigns;
    s.(campaigns := s.campaigns + [c])
  }

  /** Merges `p` into every campaign with this id; the others, and the order,
      stay as they were. */
  function UpdateCampaign(s: Store, id: string, p: CampaignPatch): (r: Store)
    ensures |r.campaigns| == |s.campaigns|
    ensures forall i :: 0 <= i < |s.campaigns| && s.campaigns[i].id == id ==> r.campaigns[i] == p.ApplyTo(s.campaigns[i])
    ensures forall i :: 0 <= i < |s.campaigns| && s.campaigns[i].id != id ==> r.campaigns[i] == s.campaigns[i]
    ensures r == s.(campaigns := r.campaigns)
  {
    s.(campaigns := MapIf(s.campaigns, (c: Campaign) => c.id == id, (c: Campaign) => p.ApplyTo(c)))
  }

  /** The patch `{ remarketingFlowId: ref }` (`ref == None` is `undefined`). */
  function SetFlowRef(ref: Option<string>): CampaignPatch {
    NoCampaignChange.(remarketingFlowId := Some(ref))
  }

  /** No flow of `doomed` has the id of `f`. */
  predicate SharesNoId(f: RemarketingFlow, doomed: seq<RemarketingFlow>) {
    forall d :: d in doomed ==> d.id != f.id
  }

  /** No flow of `flows` that the campaign owns has the id of `f`. */
  predicate SharesNoIdWithOwned(f: RemarketingFlow, flows: seq<RemarketingFlow>, campaignId: string) {
    forall d :: d in flows && d.campaignId == campaignId ==> d.id != f.id
  }

  /** The forEach of `deleteCampaign`: for each doomed flow in turn, every flow
      sharing its id is filtered out. */
  function DropFlowsSharingIds(flows: seq<RemarketingFlow>, doomed: seq<RemarketingFlow>): (r: seq<RemarketingFlow>)
    ensures forall f :: f in r <==> f in flows && SharesNoId(f, doomed)
    ensures forall f :: multiset(r)[f] == if SharesNoId(f, doomed) then multiset(flows)[f] else 0
    ensures IsSubseq(r, flows)
    decreases |doomed|
  {
    if |doomed| == 0 then SubseqRefl(flows); flows
    else
      var keep := FlowIdIsNot(doomed[0].id);
      var once := Filter(flows, keep);
      FilterIsSubseq(flows, keep);
      var rest := DropFlowsSharingIds(once, doomed[1..]);
      SubseqTransitive(rest, once, flows);
      DropStep(flows, doomed, rest);
      rest
  }

  /** One round of the forEach: filtering out the first doomed id, then the
      rest, filters out every doomed id. */
  lemma DropStep(flows: seq<RemarketingFlow>, doomed: seq<RemarketingFlow>, rest: seq<RemarketingFlow>)
    requires |doomed| > 0
    requires var once := Filter(flows, FlowIdIsNot(doomed[0].id));
             forall f :: f in rest <==> f in once && SharesNoId(f, doomed[1..])
    requires var once := Filter(flows, FlowIdIsNot(doomed[0].id));
             forall f :: multiset(rest)[f] == if SharesNoId(f, doomed[1..]) then multiset(once)[f] else 0
    ensures forall f :: f in rest <==> f in flows && SharesNoId(f, doomed)
    ensures forall f :: multiset(rest)[f] == if SharesNoId(f, doomed) then multiset(flows)[f] else 0
  {
    FilterCounts(flows, FlowIdIsNot(doomed[0].id));
    forall f
      ensures SharesNoId(f, doomed) <==> f.id != doomed[0].id && SharesNoId(f, doomed[1..])
    {
      assert forall d :: d in doomed <==> d == doomed[0] || d in doomed[1..];
    }
  }

  /** Sharing no id with the owned flows, as `deleteCampaign` collects them. */
  lemma OwnedFlowsShareNoId(flows: seq<RemarketingFlow>, campaignId: string)
    ensures forall f :: SharesNoId(f, Filter(flows, OwnedBy(campaignId))) <==> SharesNoIdWithOwned(f, flows, campaignId)
    ensures forall f :: SharesNoId(f, Filter(flows, OwnedBy(campaignId))) && f in flows ==> f.campaignId != campaignId
  {
  }

  /** Removes the campaign with this id and the remarketing flows it owns:
      every copy of a campaign without the id survives, and every copy of a
      flow survives unless a flow the campaign owns has its id; survivors keep
      their order. */
  function DeleteCampaign(s: Store, id: string): (r: Store)
    ensures forall c :: c in r.campaigns <==> c in s.campaigns && c.id != id
    ensures forall f :: f in r.remarketingFlows ==> f in s.remarketingFlows && f.campaignId != id
    ensures forall c :: multiset(r.campaigns)[c] == if c.id != id then multiset(s.campaigns)[c] else 0
    ensures forall f :: multiset(r.remarketingFlows)[f]
                        == if SharesNoIdWithOwned(f, s.remarketingFlows, id) then multiset(s.remarketingFlows)[f] else 0
    ensures IsSubseq(r.campaigns, s.campaigns) && IsSubseq(r.remarketingFlows, s.remarketingFlows)
    ensures r == s.(campaigns := r.campaigns, remarketingFlows := r.remarketingFlows)
  {
    var owned := Filter(s.remarketingFlows, OwnedBy(id));
    var flows := DropFlowsSharingIds(s.remarketingFlows, owned);
    OwnedFlowsShareNoId(s.remarketingFlows, id);
    var keep := CampaignIdIsNot(id);
    FilterIsSubseq(s.campaigns, keep);
    FilterCounts(s.campaigns, keep);
    s.(remarketingFlows := flows, campaigns := Filter(s.campaigns, keep))
  }

  // ----- Remarketing flows -----

  /** Appends the flow under the new id and, when it names a campaign, points
      every campaign with that id at the new flow (overwriting any previous
      back-reference); with an empty `campaignId` the campaigns are untouched. */
  function AddRemarketingFlow(s: Store, flow: RemarketingFlow, id: string): (r: Store)
    ensures r.remarketingFlows == s.remarketingFlows + [flow.(id := id)]
    ensures |r.campaigns| == |s.campaigns|
    ensures forall i :: 0 <= i < |s.campaigns| ==>
              r.campaigns[i] == if flow.campaignId != "" && s.campaigns[i].id == flow.campaignId
                                then s.campaigns[i].(remarketingFlowId := Some(id)) else s.campaigns[i]
    ensures flow.campaignId == "" ==> r.campaigns == s.campaigns
    ensures r == s.(remarketingFlows := r.remarketingFlows, campaigns := r.campaigns)
  {
    var added := s.(remarketingFlows := s.remarketingFlows + [flow.(id := id)]);
    if flow.campaignId != "" then UpdateCampaign(added, flow.campaignId, SetFlowRef(Some(id))) else added
  }

  /** Merges `p` into every flow with this id; campaigns' back-references are
      not re-synchronised. */
  function UpdateRemarketingFlow(s: Store, id: string, p: RemarketingFlowPatch): (r: Store)
    ensures |r.remarketingFlows| == |s.remarketingFlows|
    ensures forall i :: 0 <= i < |s.remarketingFlows| && s.remarketingFlows[i].id == id ==>
              r.remarketingFlows[i] == p.ApplyTo(s.remarketingFlows[i])
    ensures forall i :: 0 <= i < |s.remarketingFlows| && s.remarketingFlows[i].id != id ==>
              r.remarketingFlows[i] == s.remarketingFlows[i]
    ensures r == s.(remarketingFlows := r.remarketingFlows)
  {
    s.(remarketingFlows := MapIf(s.remarketingFlows, (f: RemarketingFlow) => f.id == id,
                                 (f: RemarketingFlow) => p.ApplyTo(f)))
  }

  /** Removes the flows with this id. When the first of them names a
      campaign, every campaign with that id loses its back-reference, whatever
      flow it pointed at. */
  function DeleteRemarketingFlow(s: Store, id: string): (r: Store)
    ensures forall f :: f in r.remarketingFlows <==> f in s.remarketingFlows && f.id != id
    ensures forall f :: multiset(r.remarketingFlows)[f] == if f.id != id then multiset(s.remarketingFlows)[f] else 0
    ensures IsSubseq(r.remarketingFlows, s.remarketingFlows)
    ensures |r.campaigns| == |s.campaigns|
    ensures var found := FindFirst(s.remarketingFlows, FlowIdIs(id));
            forall i :: 0 <= i < |s.campaigns| ==>
              r.campaigns[i] == if found.Some? && found.value.campaignId != "" && s.campaigns[i].id == found.value.campaignId
                                then s.campaigns[i].(remarketingFlowId := None) else s.campaigns[i]
    ensures r == s.(remarketingFlows := r.remarketingFlows, campaigns := r.campaigns)
  {
    var found := FindFirst(s.remarketingFlows, FlowIdIs(id));
    var unlinked := if found.Some? && found.value.campaignId != ""
                    then UpdateCampaign(s, found.value.campaignId, SetFlowRef(None)) else s;
    var keep := FlowIdIsNot(id);
    FilterIsSubseq(s.remarketingFlows, keep);
    FilterCounts(s.remarketingFlows, keep);
    unlinked.(remarketingFlows := Filter(s.remarketingFlows, keep))
  }

  // ----- Configuration -----

  /** Merges the patch into the configuration. */
  function UpdateBotConfig(s: Store, p: BotConfigPatch): (r: Store)
    ensures r.botConfig == p.ApplyTo(s.botConfig)
    ensures r == s.(botConfig := r.botConfig)
  {
    s.(botConfig := p.ApplyTo(s.botConfig))
  }

  function UpdatePublicChatUrl(s: Store, url: string): (r: Store)
    ensures r.publicChatUrl == url
    ensures r == s.(publicChatUrl := url)
  {
    s.(publicChatUrl := url)
  }

  // ----- Statistics -----

  /** Clients that have bought: any category but `not_bought`. */
  function HasBought(): Client -> bool {
    (c: Client) => c.category != NotBought
  }

  /** How many clients are in the category. */
  function CountCategory(clients: seq<Client>, cat: Category): nat {
    |Filter(clients, InCategory(cat))|
  }

  /** How many clients have the status. */
  function CountStatus(clients: seq<Client>, st: ClientStatus): nat {
    |Filter(clients, HasStatus(st))|
  }

  /** How many clients have bought (any category but `not_bought`). */
  function CountConverted(clients: seq<Client>): nat {
    |Filter(clients, HasBought())|
  }

  /** Every client is active or abandoned, never both. */
  lemma StatusesPartition(clients: seq<Client>)
    ensures CountStatus(clients, Active) + CountStatus(clients, Abandoned) == |clients|
  {
    FilterSplit(clients, HasStatus(Active), HasStatus(Abandoned));
  }

  /** The converted clients are the complement of `not_bought`. */
  lemma ConvertedComplementsNotBought(clients: seq<Client>)
    ensures CountConverted(clients) + CountCategory(clients, NotBought) == |clients|
  {
    FilterSplit(clients, HasBought(), InCategory(NotBought));
  }

  /** The four categories split the clients between them. */
  lemma {:induction false} CategoriesPartition(clients: seq<Client>)
    ensures CountCategory(clients, NotBought) + CountCategory(clients, BoughtCorreios)
            + CountCategory(clients, BoughtLogz) + CountCategory(clients, CompletedPurchases) == |clients|
    decreases |clients|
  {
    if |clients| > 0 {
      CategoriesPartition(clients[1..]);
    }
  }

  /** `total > 0 ? part / total * 100 : 0`. */
  function Percent(part: nat, total: nat): (r: real)
    requires part <= total
    ensures total == 0 ==> r == 0.0
    ensures total > 0 ==> r * total as real == 100.0 * part as real
    ensures 0.0 <= r <= 100.0
  {
    if total > 0 then
      var q := part as real / total as real;
      assert q * total as real == part as real;
      assert q <= 1.0;
      q * 100.0
    else 0.0
  }

  /** The messages dated today, by the given test of a date. */
  function SentToday(isToday: Timestamp -> bool): Message -> bool {
    (m: Message) => isToday(m.timestamp)
  }

  /** `updateStatistics`: the totals, the two rates and the number of
      messages dated today; `isToday` stands for the comparison of a
      message's date with the current date. */
  function ComputeStatistics(clients: seq<Client>, messages: seq<Message>, isToday: Timestamp -> bool): (r: Statistics)
    ensures r.totalConversations == |clients|
    ensures r.activeConversations == CountStatus(clients, Active)
    ensures r.abandonedConversations == CountStatus(clients, Abandoned)
    ensures r.activeConversations + r.abandonedConversations == r.totalConversations
    ensures r.responseRate == Percent(r.activeConversations, r.totalConversations)
    ensures r.conversionRate == Percent(r.totalConversations - CountCategory(clients, NotBought), r.totalConversations)
    ensures r.dailyMessages == |set i | 0 <= i < |messages| && isToday(messages[i].timestamp)|
  {
    FilterCountIsPositions(messages, SentToday(isToday));
    assert Positions(messages, SentToday(isToday)) == set i | 0 <= i < |messages| && isToday(messages[i].timestamp);
    StatusesPartition(clients);
    ConvertedComplementsNotBought(clients);
    var total := |clients|;
    var active := CountStatus(clients, Active);
    Statistics(total, active, CountStatus(clients, Abandoned),
               Percent(active, total), Percent(CountConverted(clients), total),
               |Filter(messages, SentToday(isToday))|)
  }

  /** Recomputes the statistics from the current clients and messages. */
  function UpdateStatistics(s: Store, isToday: Timestamp -> bool): (r: Store)
    ensures r.statistics == ComputeStatistics(s.clients, s.messages, isToday)
    ensures r == s.(statistics := r.statistics)
  {
    s.(statistics := ComputeStatistics(s.clients, s.messages, isToday))
  }
}
