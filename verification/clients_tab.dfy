/** The client list (`src/components/tabs/ClientsTab.tsx`): the category and
    search filter, the per-category counts, the WhatsApp link and moving a
    client between categories. */
module ClientsTab {
  import opened Wrappers
  import opened Seqs
  import opened Text
  import opened Types
  import opened AppContext

  /** The category tab that is selected: all clients, or one category. */
  datatype CategoryFilter = AllClients | OnlyCategory(category: Category)

  /** The search test: the lowercased name includes the lowercased term, or
      the phone includes the term as typed. */
  predicate MatchesSearch(c: Client, term: string) {
    Contains(ToLower(c.name), ToLower(term)) || Contains(c.phone, term)
  }

  /** The category test of the selected tab. */
  predicate MatchesCategory(c: Client, filter: CategoryFilter) {
    filter.AllClients? || c.category == filter.category
  }

  function Shown(filter: CategoryFilter, term: string): Client -> bool {
    (c: Client) => MatchesCategory(c, filter) && MatchesSearch(c, term)
  }

  /** `filteredClients`: every copy of each client passing both tests, in store
      order. */
  function FilteredClients(clients: seq<Client>, filter: CategoryFilter, term: string): (r: seq<Client>)
    ensures forall c :: c in r <==> c in clients && MatchesCategory(c, filter) && MatchesSearch(c, term)
    ensures forall c :: multiset(r)[c] == if MatchesCategory(c, filter) && MatchesSearch(c, term) then multiset(clients)[c] else 0
    ensures IsSubseq(r, clients)
  {
    FilterIsSubseq(clients, Shown(filter, term));
    FilterCounts(clients, Shown(filter, term));
    Filter(clients, Shown(filter, term))
  }

  /** With every category shown and nothing typed, the list is all clients. */
  lemma ShowAllWithEmptySearch(clients: seq<Client>)
    ensures FilteredClients(clients, AllClients, "") == clients
  {
    forall i | 0 <= i < |clients| ensures Shown(AllClients, "")(clients[i]) {
      ContainsEmpty(clients[i].phone);
    }
    FilterKeepsAll(clients, Shown(AllClients, ""));
  }

  /** `getCategoryCount`: the number shown on a category tab. */
  function CategoryCount(clients: seq<Client>, filter: CategoryFilter): (r: nat)
    ensures r <= |clients|
    ensures filter.AllClients? ==> r == |clients|
    ensures filter.OnlyCategory? ==> r == CountCategory(clients, filter.category)
  {
    match filter
    case AllClients => |clients|
    case OnlyCategory(cat) => CountCategory(clients, cat)
  }

  /** The "all" tab counts exactly what the four category tabs count together. */
  lemma AllCountIsSumOfCategories(clients: seq<Client>)
    ensures CategoryCount(clients, AllClients)
            == CategoryCount(clients, OnlyCategory(NotBought)) + CategoryCount(clients, OnlyCategory(BoughtCorreios))
               + CategoryCount(clients, OnlyCategory(BoughtLogz)) + CategoryCount(clients, OnlyCategory(CompletedPurchases))
  {
    CategoriesPartition(clients);
  }

  /** `phone.replace(/\D/g, '')`: every digit of the phone, repeats included, in
      order. */
  function CleanPhone(phone: string): (r: string)
    ensures forall i :: 0 <= i < |r| ==> IsDigit(r[i])
    ensures forall ch :: ch in r <==> ch in phone && IsDigit(ch)
    ensures forall ch :: multiset(r)[ch] == if IsDigit(ch) then multiset(phone)[ch] else 0
    ensures IsSubseq(r, phone)
  {
    FilterIsSubseq(phone, IsDigit);
    FilterCounts(phone, IsDigit);
    Filter(phone, IsDigit)
  }

  /** Cleaning a cleaned phone changes nothing. */
  lemma CleanPhoneIdempotent(phone: string)
    ensures CleanPhone(CleanPhone(phone)) == CleanPhone(phone)
  {
    FilterKeepsAll(CleanPhone(phone), IsDigit);
  }

  const WaMe := "https://wa.me/"

  /** The address `openWhatsApp` opens: the wa.me prefix followed by the
      phone's digits. */
  function WhatsAppLink(phone: string): (r: string)
    ensures |r| >= |WaMe| && r[..|WaMe|] == WaMe
    ensures forall i :: |WaMe| <= i < |r| ==> IsDigit(r[i])
    ensures r[|WaMe|..] == CleanPhone(phone)
  {
    WaMe + CleanPhone(phone)
  }

  /** `handleCategoryChange`: only the chosen client's category changes. */
  function HandleCategoryChange(s: Store, clientId: string, cat: Category): (r: Store)
    ensures |r.clients| == |s.clients|
    ensures forall i :: 0 <= i < |s.clients| && s.clients[i].id == clientId ==> r.clients[i] == s.clients[i].(category := cat)
    ensures forall i :: 0 <= i < |s.clients| && s.clients[i].id != clientId ==> r.clients[i] == s.clients[i]
    ensures r == s.(clients := r.clients)
  {
    MoveClientToCategory(s, clientId, cat)
  }

  /** Moving a client to another category moves exactly one count from the
      old tab to the new one when its id is unique. */
  lemma CategoryChangeMovesOneCount(s: Store, i: int, cat: Category)
    requires 0 <= i < |s.clients| && s.clients[i].category != cat
    requires forall j :: 0 <= j < |s.clients| && j != i ==> s.clients[j].id != s.clients[i].id
    ensures var r := HandleCategoryChange(s, s.clients[i].id, cat);
            CountCategory(r.clients, cat) == CountCategory(s.clients, cat) + 1
            && CountCategory(r.clients, s.clients[i].category) + 1 == CountCategory(s.clients, s.clients[i].category)
  {
    var r := HandleCategoryChange(s, s.clients[i].id, cat);
    var moved := s.clients[i].(category := cat);
    assert r.clients == s.clients[..i] + [moved] + s.clients[i + 1..];
    assert s.clients == s.clients[..i] + [s.clients[i]] + s.clients[i + 1..];
    CountSplit(s.clients[..i], s.clients[i], s.clients[i + 1..], cat);
    CountSplit(s.clients[..i], moved, s.clients[i + 1..], cat);
    CountSplit(s.clients[..i], s.clients[i], s.clients[i + 1..], s.clients[i].category);
    CountSplit(s.clients[..i], moved, s.clients[i + 1..], s.clients[i].category);
  }

  /** Counting a category over a list with one client singled out. */
  lemma CountSplit(xs: seq<Client>, c: Client, ys: seq<Client>, cat: Category)
    ensures CountCategory(xs + [c] + ys, cat)
            == CountCategory(xs, cat) + (if c.category == cat then 1 else 0) + CountCategory(ys, cat)
  {
    FilterConcat(xs + [c], ys, InCategory(cat));
    FilterConcat(xs, [c], InCategory(cat));
    assert [c][1..] == [];
  }
}
