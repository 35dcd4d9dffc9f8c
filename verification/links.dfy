/** The two-way link between a campaign and the remarketing flow that answers
    it: a flow names its owner in `campaignId`, and the owner points back
    through `remarketingFlowId` (`src/contexts/AppContext.tsx`). This module
    states when the links are consistent, which handlers keep them so, and the
    ways the handlers, as written, let a back-reference go stale or vanish. */
module Links {
  import opened Wrappers
  import opened Seqs
  import opened Types
  import opened Patches
  import opened AppContext

  /** No two different remarketing flows share an id. */
  predicate FlowIdsUnique(flows: seq<RemarketingFlow>) {
    forall a, b :: a in flows && b in flows && a.id == b.id ==> a == b
  }

  /** Some flow with id `flowId` is owned by the campaign `campaignId`. */
  predicate Linked(flows: seq<RemarketingFlow>, flowId: string, campaignId: string) {
    exists f :: f in flows && f.id == flowId && f.campaignId == campaignId
  }

  /** Every back-reference names a flow that the referring campaign owns. */
  predicate BackRefsResolve(s: Store) {
    forall c :: c in s.campaigns && c.remarketingFlowId.Some? ==>
      c.id != "" && Linked(s.remarketingFlows, c.remarketingFlowId.value, c.id)
  }

  predicate Consistent(s: Store) {
    FlowIdsUnique(s.remarketingFlows) && BackRefsResolve(s)
  }

  /** No flow of the store uses `id` yet. */
  predicate FreshFlowId(s: Store, id: string) {
    forall f :: f in s.remarketingFlows ==> f.id != id
  }

  /** With unique ids, `find` by id returns the one flow that has it. */
  lemma FindUniqueFlow(flows: seq<RemarketingFlow>, f: RemarketingFlow)
    requires FlowIdsUnique(flows) && f in flows
    ensures FindFirst(flows, FlowIdIs(f.id)) == Some(f)
  {
    var k :| 0 <= k < |flows| && flows[k] == f;
    assert FlowIdIs(f.id)(flows[k]);
  }

  /** The forEach of `deleteCampaign` is a single filter: dropping the flows
      that share an id with a doomed flow keeps exactly those flows `keep`
      accepts, when `keep` accepts exactly the flows sharing no id with one. */
  lemma {:induction false} DropFlowsIsFilter(flows: seq<RemarketingFlow>, doomed: seq<RemarketingFlow>,
                                             keep: RemarketingFlow -> bool)
    requires forall f :: f in flows ==> (keep(f) <==> forall d :: d in doomed ==> d.id != f.id)
    ensures DropFlowsSharingIds(flows, doomed) == Filter(flows, keep)
    decreases |doomed|
  {
    if |doomed| == 0 {
      FilterKeepsAll(flows, keep);
    } else {
      var first := FlowIdIsNot(doomed[0].id);
      var once := Filter(flows, first);
      assert forall d :: d in doomed <==> d == doomed[0] || d in doomed[1..];
      DropFlowsIsFilter(once, doomed[1..], keep);
      FilterAbsorb(flows, first, keep);
    }
  }

  /** With unique flow ids, `deleteCampaign(id)` keeps exactly the flows that
      the campaign does not own, in their order. */
  lemma DeleteCampaignDropsOwnedFlows(s: Store, id: string)
    requires FlowIdsUnique(s.remarketingFlows)
    ensures DeleteCampaign(s, id).remarketingFlows == Filter(s.remarketingFlows, (f: RemarketingFlow) => f.campaignId != id)
  {
    var flows := s.remarketingFlows;
    var owned := Filter(flows, OwnedBy(id));
    var keep := (f: RemarketingFlow) => f.campaignId != id;
    forall f | f in flows
      ensures keep(f) <==> forall d :: d in owned ==> d.id != f.id
    {
      if f.campaignId == id {
        assert f in owned;
      }
    }
    DropFlowsIsFilter(flows, owned, keep);
  }

  /** Adding a flow under a fresh id keeps the links consistent. */
  lemma AddRemarketingFlowKeepsLinks(s: Store, flow: RemarketingFlow, id: string)
    requires Consistent(s) && FreshFlowId(s, id)
    ensures Consistent(AddRemarketingFlow(s, flow, id))
  {
    var r := AddRemarketingFlow(s, flow, id);
    var added := flow.(id := id);
    assert added in r.remarketingFlows;
    forall c | c in r.campaigns && c.remarketingFlowId.Some?
      ensures c.id != "" && Linked(r.remarketingFlows, c.remarketingFlowId.value, c.id)
    {
      var i :| 0 <= i < |r.campaigns| && r.campaigns[i] == c;
      var prev := s.campaigns[i];
      if flow.campaignId != "" && prev.id == flow.campaignId {
        assert c.remarketingFlowId.value == added.id && c.id == added.campaignId;
      } else {
        assert prev in s.campaigns;
        var f :| f in s.remarketingFlows && f.id == prev.remarketingFlowId.value && f.campaignId == prev.id;
        assert f in r.remarketingFlows;
      }
    }
  }

  /** Deleting a flow keeps the links consistent: the campaigns that pointed
      at it are exactly the ones it owned, and those lose their reference. */
  lemma DeleteRemarketingFlowKeepsLinks(s: Store, id: string)
    requires Consistent(s)
    ensures Consistent(DeleteRemarketingFlow(s, id))
  {
    var r := DeleteRemarketingFlow(s, id);
    forall c | c in r.campaigns && c.remarketingFlowId.Some?
      ensures c.id != "" && Linked(r.remarketingFlows, c.remarketingFlowId.value, c.id)
    {
      var i :| 0 <= i < |r.campaigns| && r.campaigns[i] == c;
      var prev := s.campaigns[i];
      assert c == prev;
      assert prev in s.campaigns;
      var f :| f in s.remarketingFlows && f.id == prev.remarketingFlowId.value && f.campaignId == prev.id;
      FindUniqueFlow(s.remarketingFlows, f);
      assert f.id != id;
      assert f in r.remarketingFlows;
    }
  }

  /** Deleting a campaign keeps the links consistent. */
  lemma DeleteCampaignKeepsLinks(s: Store, id: string)
    requires Consistent(s)
    ensures Consistent(DeleteCampaign(s, id))
  {
    var r := DeleteCampaign(s, id);
    DeleteCampaignDropsOwnedFlows(s, id);
    forall c | c in r.campaigns && c.remarketingFlowId.Some?
      ensures c.id != "" && Linked(r.remarketingFlows, c.remarketingFlowId.value, c.id)
    {
      var f :| f in s.remarketingFlows && f.id == c.remarketingFlowId.value && f.campaignId == c.id;
      assert f in r.remarketingFlows;
    }
  }

  /** Adding a campaign that points at no flow keeps the links consistent. */
  lemma AddCampaignKeepsLinks(s: Store, campaign: Campaign, id: string)
    requires Consistent(s) && campaign.remarketingFlowId.None?
    ensures Consistent(AddCampaign(s, campaign, id))
  {
    var r := AddCampaign(s, campaign, id);
    forall c | c in r.campaigns && c.remarketingFlowId.Some?
      ensures c.id != "" && Linked(r.remarketingFlows, c.remarketingFlowId.value, c.id)
    {
      var i :| 0 <= i < |r.campaigns| && r.campaigns[i] == c;
      assert i < |s.campaigns| && s.campaigns[i] == c;
    }
  }

  /** An update that touches neither the id nor the back-reference of a
      campaign keeps the links consistent. */
  lemma UpdateCampaignKeepsLinks(s: Store, id: string, p: CampaignPatch)
    requires Consistent(s) && p.id.None? && p.remarketingFlowId.None?
    ensures Consistent(UpdateCampaign(s, id, p))
  {
    var r := UpdateCampaign(s, id, p);
    forall c | c in r.campaigns && c.remarketingFlowId.Some?
      ensures c.id != "" && Linked(r.remarketingFlows, c.remarketingFlowId.value, c.id)
    {
      var i :| 0 <= i < |r.campaigns| && r.campaigns[i] == c;
      assert s.campaigns[i] in s.campaigns;
    }
  }

  /** An update that touches neither the id nor the owner of a flow keeps the
      links consistent. */
  lemma UpdateRemarketingFlowKeepsLinks(s: Store, id: string, p: RemarketingFlowPatch)
    requires Consistent(s) && p.id.None? && p.campaignId.None?
    ensures Consistent(UpdateRemarketingFlow(s, id, p))
  {
    var r := UpdateRemarketingFlow(s, id, p);
    var n := |s.remarketingFlows|;
    assert forall j :: 0 <= j < n ==>
      r.remarketingFlows[j].id == s.remarketingFlows[j].id
      && r.remarketingFlows[j].campaignId == s.remarketingFlows[j].campaignId;
    forall a, b | a in r.remarketingFlows && b in r.remarketingFlows && a.id == b.id
      ensures a == b
    {
      var j :| 0 <= j < n && r.remarketingFlows[j] == a;
      var k :| 0 <= k < n && r.remarketingFlows[k] == b;
      assert s.remarketingFlows[j] in s.remarketingFlows && s.remarketingFlows[k] in s.remarketingFlows;
      assert s.remarketingFlows[j] == s.remarketingFlows[k];
    }
    forall c | c in r.campaigns && c.remarketingFlowId.Some?
      ensures c.id != "" && Linked(r.remarketingFlows, c.remarketingFlowId.value, c.id)
    {
      var f :| f in s.remarketingFlows && f.id == c.remarketingFlowId.value && f.campaignId == c.id;
      var j :| 0 <= j < n && s.remarketingFlows[j] == f;
      assert r.remarketingFlows[j] in r.remarketingFlows;
    }
  }

  // ----- What the handlers, as written, allow -----

  /** A second flow for the same campaign takes over the back-reference; the
      first flow stays in the list, still owned by the campaign, but nothing
      points at it any more. */
  lemma SecondFlowTakesOverBackRef(s: Store, a: RemarketingFlow, idA: string, b: RemarketingFlow, idB: string, i: int)
    requires 0 <= i < |s.campaigns| && a.campaignId != "" && a.campaignId == b.campaignId == s.campaigns[i].id
    ensures var s2 := AddRemarketingFlow(AddRemarketingFlow(s, a, idA), b, idB);
            s2.campaigns[i].remarketingFlowId == Some(idB)
            && a.(id := idA) in s2.remarketingFlows && b.(id := idB) in s2.remarketingFlows
  {
  }

  /** After a second flow took over, deleting the first flow clears the
      campaign's reference to the second one, which is still there and still
      owned by the campaign. */
  lemma DeletingFirstFlowClearsSecondsBackRef(s: Store, a: RemarketingFlow, idA: string,
                                              b: RemarketingFlow, idB: string, i: int)
    requires 0 <= i < |s.campaigns| && a.campaignId != "" && a.campaignId == b.campaignId == s.campaigns[i].id
    requires FreshFlowId(s, idA) && idA != idB
    ensures var s2 := AddRemarketingFlow(AddRemarketingFlow(s, a, idA), b, idB);
            var s3 := DeleteRemarketingFlow(s2, idA);
            s2.campaigns[i].remarketingFlowId == Some(idB)
            && s3.campaigns[i].remarketingFlowId.None?
            && b.(id := idB) in s3.remarketingFlows && b.(id := idB).campaignId == s3.campaigns[i].id
  {
    var s2 := AddRemarketingFlow(AddRemarketingFlow(s, a, idA), b, idB);
    var flows := s2.remarketingFlows;
    var n := |s.remarketingFlows|;
    assert flows == s.remarketingFlows + [a.(id := idA)] + [b.(id := idB)];
    assert flows[n] == a.(id := idA);
    forall j | 0 <= j < n
      ensures !FlowIdIs(idA)(flows[j])
    {
      assert flows[j] == s.remarketingFlows[j];
      assert s.remarketingFlows[j] in s.remarketingFlows;
    }
    var k := FindIndex(flows, FlowIdIs(idA));
    assert FlowIdIs(idA)(flows[n]);
    assert k == n;
  }

  /** A store with one campaign and the one flow it owns, linked both ways. */
  const LinkedPair := Store(true, [], [], [],
    [RemarketingFlow("f1", "Recuperação", "", true, [], ["oi"], Some(30), "c1", NotBought)],
    [Campaign("c1", "Oferta", "", NotBought, [], None, Draft, 0, 0, Some(true), Some("f1"))],
    InitialBotConfig, InitialStatistics, "")

  /** `updateRemarketingFlow` does not re-synchronise back-references: moving
      a linked flow to another campaign leaves the first campaign pointing at
      a flow it no longer owns. */
  lemma UpdateRemarketingFlowCanBreakLinks()
    ensures Consistent(LinkedPair)
    ensures !Consistent(UpdateRemarketingFlow(LinkedPair, "f1", NoRemarketingFlowChange.(campaignId := Some("c2"))))
  {
    var f := LinkedPair.remarketingFlows[0];
    assert f in LinkedPair.remarketingFlows;
    var r := UpdateRemarketingFlow(LinkedPair, "f1", NoRemarketingFlowChange.(campaignId := Some("c2")));
    assert r.campaigns[0] in r.campaigns;
    assert r.remarketingFlows == [f.(campaignId := "c2")];
  }
}
