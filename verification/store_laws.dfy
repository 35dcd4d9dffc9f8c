/** Laws relating the store's handlers (`src/contexts/AppContext.tsx`) to one
    another: deleting what was just added restores the store, and an update
    aimed at an id nobody has changes nothing. */
module StoreLaws {
  import opened Wrappers
  import opened Seqs
  import opened Types
  import opened Patches
  import opened AppContext

  /** A filter that passes nothing in a one-element list gives `[]`. */
  lemma FilterDropsSingleton<T(!new)>(xs: seq<T>, x: T, p: T -> bool)
    requires forall i :: 0 <= i < |xs| ==> p(xs[i])
    requires !p(x)
    ensures Filter(xs + [x], p) == xs
  {
    FilterConcat(xs, [x], p);
    FilterKeepsAll(xs, p);
    assert [x][1..] == [];
  }

  /** A message sent to a client goes with it: deleting the client after the
      send leaves the store that deleting it before the send leaves. */
  lemma DeleteClientDropsSentMessage(s: Store, id: string, clientId: string, content: string, kind: MessageType,
                                     mediaUrl: Option<string>, now: Timestamp)
    ensures DeleteClient(SendMessage(s, id, clientId, content, kind, mediaUrl, now), clientId) == DeleteClient(s, clientId)
  {
    var sent := SendMessage(s, id, clientId, content, kind, mediaUrl, now);
    var m := sent.messages[|s.messages|];
    assert sent.messages == s.messages + [m];
    FilterConcat(s.messages, [m], NotAddressedTo(clientId));
    assert [m][1..] == [];
  }

  /** Deleting a client just added under a fresh id restores the store. */
  lemma DeleteClientUndoesAdd(s: Store, client: Client, id: string)
    requires forall c :: c in s.clients ==> c.id != id
    requires forall m :: m in s.messages ==> m.clientId != id
    ensures DeleteClient(AddClient(s, client, id), id) == s
  {
    FilterDropsSingleton(s.clients, client.(id := id), ClientIdIsNot(id));
    FilterKeepsAll(s.messages, NotAddressedTo(id));
  }

  /** Deleting a bot flow just added under a fresh id restores the store. */
  lemma DeleteBotFlowUndoesAdd(s: Store, flow: BotFlow, id: string)
    requires forall f :: f in s.botFlows ==> f.id != id
    ensures DeleteBotFlow(AddBotFlow(s, flow, id), id) == s
  {
    FilterDropsSingleton(s.botFlows, flow.(id := id), BotFlowIdIsNot(id));
  }

  /** Deleting a campaign just added under a fresh id, which no flow names as
      its owner, restores the store. */
  lemma DeleteCampaignUndoesAdd(s: Store, campaign: Campaign, id: string)
    requires forall c :: c in s.campaigns ==> c.id != id
    requires forall f :: f in s.remarketingFlows ==> f.campaignId != id
    ensures DeleteCampaign(AddCampaign(s, campaign, id), id) == s
  {
    var added := campaign.(id := id, sentCount := 0, openCount := 0, status := Draft);
    assert AddCampaign(s, campaign, id).campaigns == s.campaigns + [added];
    FilterDropsSingleton(s.campaigns, added, CampaignIdIsNot(id));
    forall j | 0 <= j < |s.remarketingFlows|
      ensures !OwnedBy(id)(s.remarketingFlows[j])
    {
      assert s.remarketingFlows[j] in s.remarketingFlows;
    }
    FilterKeepsNone(s.remarketingFlows, OwnedBy(id));
  }

  /** Deleting a remarketing flow just added under a fresh id restores the
      store, provided the campaign it names had no back-reference: otherwise
      the round trip loses that earlier reference. */
  lemma DeleteRemarketingFlowUndoesAdd(s: Store, flow: RemarketingFlow, id: string)
    requires forall f :: f in s.remarketingFlows ==> f.id != id
    requires forall c :: c in s.campaigns && c.id == flow.campaignId ==> c.remarketingFlowId.None?
    ensures DeleteRemarketingFlow(AddRemarketingFlow(s, flow, id), id) == s
  {
    var s2 := AddRemarketingFlow(s, flow, id);
    AddedFlowIsFoundFirst(s, flow, id);
    FilterDropsSingleton(s.remarketingFlows, flow.(id := id), FlowIdIsNot(id));
    var r := DeleteRemarketingFlow(s2, id);
    assert r.remarketingFlows == s.remarketingFlows;
    UnlinkUndoesLink(s, flow, id, r);
    assert r.campaigns == s.campaigns;
  }

  /** A flow appended under a fresh id is the first flow with that id. */
  lemma AddedFlowIsFoundFirst(s: Store, flow: RemarketingFlow, id: string)
    requires forall f :: f in s.remarketingFlows ==> f.id != id
    ensures FindFirst(AddRemarketingFlow(s, flow, id).remarketingFlows, FlowIdIs(id)) == Some(flow.(id := id))
  {
    var flows := AddRemarketingFlow(s, flow, id).remarketingFlows;
    var n := |s.remarketingFlows|;
    assert flows[n] == flow.(id := id);
    forall j | 0 <= j < n
      ensures !FlowIdIs(id)(flows[j])
    {
      assert flows[j] == s.remarketingFlows[j];
      assert s.remarketingFlows[j] in s.remarketingFlows;
    }
    assert FlowIdIs(id)(flows[n]);
    assert FindIndex(flows, FlowIdIs(id)) == n;
  }

  /** Clearing the back-reference that adding the flow set gives back the
      campaigns as they were. */
  lemma UnlinkUndoesLink(s: Store, flow: RemarketingFlow, id: string, r: Store)
    requires forall c :: c in s.campaigns && c.id == flow.campaignId ==> c.remarketingFlowId.None?
    requires FindFirst(AddRemarketingFlow(s, flow, id).remarketingFlows, FlowIdIs(id)) == Some(flow.(id := id))
    requires r == DeleteRemarketingFlow(AddRemarketingFlow(s, flow, id), id)
    ensures r.campaigns == s.campaigns
  {
    var s2 := AddRemarketingFlow(s, flow, id);
    forall i | 0 <= i < |s.campaigns|
      ensures r.campaigns[i] == s.campaigns[i]
    {
      assert s.campaigns[i] in s.campaigns;
      assert r.campaigns[i] == if flow.campaignId != "" && s2.campaigns[i].id == flow.campaignId
                               then s2.campaigns[i].(remarketingFlowId := None) else s2.campaigns[i];
    }
  }

  /** An update aimed at an id that no record has changes nothing. */
  lemma UpdatesOfUnknownIdsChangeNothing(s: Store, id: string, pc: ClientPatch, pk: CampaignPatch,
                                         pf: RemarketingFlowPatch, pb: BotFlowPatch)
    requires forall c :: c in s.clients ==> c.id != id
    requires forall k :: k in s.campaigns ==> k.id != id
    requires forall f :: f in s.remarketingFlows ==> f.id != id
    requires forall f :: f in s.botFlows ==> f.id != id
    ensures UpdateClient(s, id, pc) == s
    ensures UpdateCampaign(s, id, pk) == s
    ensures UpdateRemarketingFlow(s, id, pf) == s
    ensures UpdateBotFlow(s, id, pb) == s
  {
    assert UpdateClient(s, id, pc).clients == s.clients by {
      forall i | 0 <= i < |s.clients| ensures s.clients[i] in s.clients { }
    }
    assert UpdateCampaign(s, id, pk).campaigns == s.campaigns by {
      forall i | 0 <= i < |s.campaigns| ensures s.campaigns[i] in s.campaigns { }
    }
    assert UpdateRemarketingFlow(s, id, pf).remarketingFlows == s.remarketingFlows by {
      forall i | 0 <= i < |s.remarketingFlows| ensures s.remarketingFlows[i] in s.remarketingFlows { }
    }
    assert UpdateBotFlow(s, id, pb).botFlows == s.botFlows by {
      forall i | 0 <= i < |s.botFlows| ensures s.botFlows[i] in s.botFlows { }
    }
  }

  /** A wrong password leaves the store as it was, signed in or not. */
  lemma FailedLoginChangesNothing(s: Store, password: string)
    requires password != AdminPassword
    ensures Login(s, password) == (s, false)
  {
  }

  /** The statistics are recomputed from clients and messages alone, so they
      only change when those do: any other handler leaves what a recomputation
      would produce unchanged. */
  lemma StatisticsDependOnClientsAndMessages(s: Store, t: Store, isToday: Timestamp -> bool)
    requires s.clients == t.clients && s.messages == t.messages
    ensures UpdateStatistics(s, isToday).statistics == UpdateStatistics(t, isToday).statistics
  {
  }
}
