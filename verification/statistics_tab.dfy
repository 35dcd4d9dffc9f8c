/** The statistics screen (`src/components/tabs/StatisticsTab.tsx`): the
    per-category breakdown, campaign open rates, the performance panel and the
    two insight figures. */
module StatisticsTab {
  import opened Wrappers
  import opened Seqs
  import opened Types
  import opened AppContext
  import CampaignsTab

  /** One row of the category breakdown; `percentage` is `None` where the
      source divides by zero clients and gets NaN. */
  datatype CategoryShare = CategoryShare(name: string, count: nat, percentage: Option<real>)

  /** The categories in the order the breakdown lists them. */
  const CategoryOrder: seq<Category> := [NotBought, BoughtCorreios, BoughtLogz, CompletedPurchases]

  /** The share of one category: its count, and count / total * 100. */
  function Share(clients: seq<Client>, cat: Category): (r: CategoryShare)
    ensures r.name == CampaignsTab.CategoryName(cat)
    ensures r.count == CountCategory(clients, cat) && r.count <= |clients|
    ensures r.percentage.None? <==> |clients| == 0
    ensures r.percentage.Some? ==> 0.0 <= r.percentage.value <= 100.0
                                   && r.percentage.value * |clients| as real == 100.0 * r.count as real
  {
    var n := CountCategory(clients, cat);
    assert n <= |clients|;
    if |clients| == 0 then CategoryShare(CampaignsTab.CategoryName(cat), n, None)
    else
      var pct := Percent(n, |clients|);
      CategoryShare(CampaignsTab.CategoryName(cat), n, Some(pct))
  }

  /** `categoryStats`: one row per category, in the fixed order. */
  function CategoryStats(clients: seq<Client>): (r: seq<CategoryShare>)
    ensures |r| == 4
    ensures forall i :: 0 <= i < 4 ==> r[i] == Share(clients, CategoryOrder[i])
  {
    seq(4, i requires 0 <= i < 4 => Share(clients, CategoryOrder[i]))
  }

  /** The breakdown accounts for every client once: the counts add up to the
      total and, when there are clients, the percentages add up to 100. */
  lemma CategoryStatsAddUp(clients: seq<Client>)
    ensures var r := CategoryStats(clients);
            r[0].count + r[1].count + r[2].count + r[3].count == |clients|
    ensures var r := CategoryStats(clients);
            |clients| > 0 ==>
              r[0].percentage.value + r[1].percentage.value + r[2].percentage.value + r[3].percentage.value == 100.0
  {
    CategoriesPartition(clients);
    var r := CategoryStats(clients);
    var a, b, c, d := Share(clients, NotBought), Share(clients, BoughtCorreios),
                      Share(clients, BoughtLogz), Share(clients, CompletedPurchases);
    assert r[0] == a && r[1] == b && r[2] == c && r[3] == d;
    if |clients| > 0 {
      var t := |clients|;
      assert a.percentage == Some(Percent(a.count, t)) && b.percentage == Some(Percent(b.count, t));
      assert c.percentage == Some(Percent(c.count, t)) && d.percentage == Some(Percent(d.count, t));
      PercentsAddUp(a.count, b.count, c.count, d.count, t);
    }
  }

  /** The percentages of four parts that make up a positive whole add up to
      100. */
  lemma PercentsAddUp(c0: nat, c1: nat, c2: nat, c3: nat, t: nat)
    requires t > 0 && c0 + c1 + c2 + c3 == t
    ensures Percent(c0, t) + Percent(c1, t) + Percent(c2, t) + Percent(c3, t) == 100.0
  {
    SharesAddUp(Percent(c0, t), Percent(c1, t), Percent(c2, t), Percent(c3, t),
                c0 as real, c1 as real, c2 as real, c3 as real, t as real);
  }

  /** Four percentages of parts that make up a positive whole add up to 100. */
  lemma SharesAddUp(p0: real, p1: real, p2: real, p3: real, c0: real, c1: real, c2: real, c3: real, t: real)
    requires t > 0.0 && c0 + c1 + c2 + c3 == t
    requires p0 * t == 100.0 * c0 && p1 * t == 100.0 * c1 && p2 * t == 100.0 * c2 && p3 * t == 100.0 * c3
    ensures p0 + p1 + p2 + p3 == 100.0
  {
    var sum := p0 + p1 + p2 + p3;
    assert sum * t == p0 * t + p1 * t + p2 * t + p3 * t;
    assert (sum - 100.0) * t == 0.0;
  }

  /** The open rate of a campaign, in percent: opens over sends, or 0 before
      anything was sent. */
  function OpenRate(c: Campaign): (r: real)
    ensures c.sentCount <= 0 ==> r == 0.0
    ensures c.sentCount > 0 ==> r * c.sentCount as real == 100.0 * c.openCount as real
    ensures c.sentCount > 0 && 0 <= c.openCount <= c.sentCount ==> 0.0 <= r <= 100.0
  {
    if c.sentCount > 0 then (c.openCount as real / c.sentCount as real) * 100.0 else 0.0
  }

  /** The campaigns the performance panel lists: the first three in store
      order, or all of them when there are fewer. */
  function TopCampaigns(campaigns: seq<Campaign>): (r: seq<Campaign>)
    ensures |r| <= 3
    ensures |r| == if |campaigns| < 3 then |campaigns| else 3
    ensures r == campaigns[..|r|]
  {
    if |campaigns| <= 3 then campaigns else campaigns[..3]
  }

  /** The status badge of the panel, written as a chain of tests on `sent`
      and `scheduled`. */
  function BadgeText(st: CampaignStatus): (r: string)
    ensures r == CampaignsTab.StatusText(st)
  {
    if st == CampaignStatus.Sent then "Enviada" else if st == Scheduled then "Agendada" else "Rascunho"
  }

  /** The opportunity figure: how many clients have not bought yet. */
  function RemarketingAudience(clients: seq<Client>): (r: nat)
    ensures r == CategoryStats(clients)[0].count
    ensures r + CountConverted(clients) == |clients|
  {
    ConvertedComplementsNotBought(clients);
    CountCategory(clients, NotBought)
  }

  /** The attention figure: how many conversations were abandoned. */
  function AbandonedConversations(clients: seq<Client>): (r: nat)
    ensures forall messages, isToday :: r == ComputeStatistics(clients, messages, isToday).abandonedConversations
    ensures r + CountStatus(clients, Active) == |clients|
  {
    StatusesPartition(clients);
    CountStatus(clients, Abandoned)
  }
}
