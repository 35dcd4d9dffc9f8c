/** The WhatsApp conversation screen (`src/components/tabs/ChatBotTab.tsx`):
    the contact search, a contact's thread, the last message and unread
    marker of the contact list, the "last seen" text and the delivery ticks.
    The current time is a parameter. */
module ChatBotTab {
  import opened Wrappers
  import opened Seqs
  import opened Text
  import opened Types

  /** The search test: the lowercased name includes the lowercased term, or
      the phone includes the term as typed. */
  predicate ContactMatches(c: WhatsAppContact, term: string) {
    Contains(ToLower(c.name), ToLower(term)) || Contains(c.phone, term)
  }

  function MatchesTerm(term: string): WhatsAppContact -> bool {
    (c: WhatsAppContact) => ContactMatches(c, term)
  }

  /** `filteredContacts`: every copy of each contact passing the search test,
      in order. */
  function FilteredContacts(contacts: seq<WhatsAppContact>, term: string): (r: seq<WhatsAppContact>)
    ensures forall c :: c in r <==> c in contacts && ContactMatches(c, term)
    ensures forall c :: multiset(r)[c] == if ContactMatches(c, term) then multiset(contacts)[c] else 0
    ensures IsSubseq(r, contacts)
  {
    FilterIsSubseq(contacts, MatchesTerm(term));
    FilterCounts(contacts, MatchesTerm(term));
    Filter(contacts, MatchesTerm(term))
  }

  /** With nothing typed, every contact is listed. */
  lemma EmptySearchListsEveryone(contacts: seq<WhatsAppContact>)
    ensures FilteredContacts(contacts, "") == contacts
  {
    forall i | 0 <= i < |contacts| ensures MatchesTerm("")(contacts[i]) {
      ContainsEmpty(contacts[i].phone);
    }
    FilterKeepsAll(contacts, MatchesTerm(""));
  }

  function ForContact(contactId: string): WhatsAppMessage -> bool {
    (m: WhatsAppMessage) => m.contactId == contactId
  }

  /** `contactMessages`: nothing while no contact is selected, otherwise
      exactly the selected contact's messages, in order. */
  function ContactMessages(messages: seq<WhatsAppMessage>, selected: Option<WhatsAppContact>): (r: seq<WhatsAppMessage>)
    ensures selected.None? ==> r == []
    ensures selected.Some? ==> forall m :: m in r <==> m in messages && m.contactId == selected.value.id
    ensures selected.Some? ==> forall m :: multiset(r)[m] == if m.contactId == selected.value.id then multiset(messages)[m] else 0
    ensures IsSubseq(r, messages)
  {
    match selected
    case None => assert IsSubseq([], messages); []
    case Some(c) =>
      FilterIsSubseq(messages, ForContact(c.id));
      FilterCounts(messages, ForContact(c.id));
      Filter(messages, ForContact(c.id))
  }

  /** The preview in the contact list is the last message of the thread the
      contact opens, and there is none exactly when the thread is empty. */
  lemma LastMessageEndsThread(messages: seq<WhatsAppMessage>, c: WhatsAppContact)
    ensures LastMessage(messages, c.id).None? <==> ContactMessages(messages, Some(c)) == []
    ensures |ContactMessages(messages, Some(c))| > 0
            ==> LastMessage(messages, c.id) == Some(Last(ContactMessages(messages, Some(c))))
  {
  }

  /** `getLastMessage`: the contact's message that comes last in the list, or
      none when the contact has no messages. */
  function LastMessage(messages: seq<WhatsAppMessage>, contactId: string): (r: Option<WhatsAppMessage>)
    ensures r.None? <==> forall i :: 0 <= i < |messages| ==> messages[i].contactId != contactId
    ensures r.Some? ==> exists i :: 0 <= i < |messages| && messages[i] == r.value && r.value.contactId == contactId
                                    && forall j :: i < j < |messages| ==> messages[j].contactId != contactId
  {
    var own := Filter(messages, ForContact(contactId));
    if |own| == 0 then
      assert forall i :: 0 <= i < |messages| ==> messages[i] in messages;
      None
    else
      FilterLast(messages, ForContact(contactId));
      Some(Last(own))
  }

  /** The unread dot of the contact list: the last message exists, is unread,
      and came from the contact. */
  predicate ShowsUnread(messages: seq<WhatsAppMessage>, contactId: string) {
    var last := LastMessage(messages, contactId);
    last.Some? && !last.value.isRead && last.value.sender == Contact
  }

  /** A message of the contact's thread appended last becomes its last
      message; so a reply of one's own clears the unread dot. */
  lemma AppendedMessageIsLast(messages: seq<WhatsAppMessage>, m: WhatsAppMessage)
    ensures LastMessage(messages + [m], m.contactId) == Some(m)
    ensures m.sender == Me ==> !ShowsUnread(messages + [m], m.contactId)
  {
    var all := messages + [m];
    FilterConcat(messages, [m], ForContact(m.contactId));
    assert [m][1..] == [];
    assert Filter([m], ForContact(m.contactId)) == [m];
  }

  /** The delivery tick of a message of one's own: one tick once sent, two
      once delivered or read; a contact's message has none. */
  function DeliveryTick(m: WhatsAppMessage): (r: Option<string>)
    ensures r.None? <==> m.sender == Contact
    ensures r.Some? ==> (r.value == "✓" <==> m.messageStatus == DeliveryStatus.Sent)
    ensures r.Some? ==> (r.value == "✓✓" <==> m.messageStatus != DeliveryStatus.Sent)
  {
    if m.sender == Contact then None
    else if m.messageStatus == DeliveryStatus.Sent then Some("✓")
    else Some("✓✓")
  }

  // ----- Last seen -----

  const MinuteMs := 60000
  const HourMs := 3600000
  const DayMs := 86400000

  /** How long ago, in whole units, a contact was seen. */
  datatype LastSeen = JustNow | MinutesAgo(minutes: int) | HoursAgo(hours: int) | DaysAgo(days: int)

  /** The bucketing of `formatLastSeen` for `diff` milliseconds: whole minutes
      below an hour, whole hours below a day, whole days beyond (`Math.floor`
      of the quotient, which Dafny's division of an integer by a positive
      constant computes); anything under a minute, negative included, is now. */
  function LastSeenBucket(diff: int): (r: LastSeen)
    ensures r.JustNow? <==> diff < MinuteMs
    ensures r.MinutesAgo? <==> MinuteMs <= diff < HourMs
    ensures r.HoursAgo? <==> HourMs <= diff < DayMs
    ensures r.DaysAgo? <==> DayMs <= diff
    ensures r.MinutesAgo? ==> 1 <= r.minutes < 60 && r.minutes * MinuteMs <= diff < (r.minutes + 1) * MinuteMs
    ensures r.HoursAgo? ==> 1 <= r.hours < 24 && r.hours * HourMs <= diff < (r.hours + 1) * HourMs
    ensures r.DaysAgo? ==> 1 <= r.days && r.days * DayMs <= diff < (r.days + 1) * DayMs
  {
    var minutes := diff / MinuteMs;
    var hours := diff / HourMs;
    var days := diff / DayMs;
    if minutes < 1 then JustNow
    else if minutes < 60 then MinutesAgo(minutes)
    else if hours < 24 then HoursAgo(hours)
    else DaysAgo(days)
  }

  /** The text of a bucket. */
  function LastSeenText(b: LastSeen): string
    requires !b.JustNow? ==> (b.MinutesAgo? && b.minutes >= 0) || (b.HoursAgo? && b.hours >= 0) || (b.DaysAgo? && b.days >= 0)
  {
    match b
    case JustNow => "agora"
    case MinutesAgo(n) => NatToString(n) + " min atrás"
    case HoursAgo(n) => NatToString(n) + "h atrás"
    case DaysAgo(n) => NatToString(n) + "d atrás"
  }

  /** `formatLastSeen` for a difference of `diff` milliseconds: "agora" under
      a minute, else the whole minutes, hours or days that passed, each with
      its own unit. */
  function FormatLastSeen(diff: int): (r: string)
    ensures diff < MinuteMs <==> r == "agora"
    ensures MinuteMs <= diff < HourMs ==> r == NatToString(diff / MinuteMs) + " min atrás"
    ensures HourMs <= diff < DayMs ==> r == NatToString(diff / HourMs) + "h atrás"
    ensures DayMs <= diff ==> r == NatToString(diff / DayMs) + "d atrás"
  {
    var b := LastSeenBucket(diff);
    var r := LastSeenText(b);
    assert !b.JustNow? ==> IsDigit(r[0]);
    r
  }

  /** A contact seen in the future, as a skewed clock can report, was seen
      "agora". */
  lemma FutureIsNow(diff: int)
    requires diff < 0
    ensures FormatLastSeen(diff) == "agora"
  {
  }

  /** The number at the head of the text is the count of whole units that
      passed: minutes, hours or days. */
  lemma LastSeenReadsBack(diff: int)
    requires diff >= MinuteMs
    ensures diff < HourMs ==> ParseInt(FormatLastSeen(diff)) == Some(diff / MinuteMs)
    ensures HourMs <= diff < DayMs ==> ParseInt(FormatLastSeen(diff)) == Some(diff / HourMs)
    ensures DayMs <= diff ==> ParseInt(FormatLastSeen(diff)) == Some(diff / DayMs)
  {
    if diff < HourMs {
      ParseIntOfNumberThen(diff / MinuteMs, " min atrás");
    } else if diff < DayMs {
      ParseIntOfNumberThen(diff / HourMs, "h atrás");
    } else {
      ParseIntOfNumberThen(diff / DayMs, "d atrás");
    }
  }

  /** The presence line under a contact: "online", or when it was last seen.
      An offline contact must carry a last-seen date. */
  function PresenceText(c: WhatsAppContact, now: Timestamp): (r: string)
    requires c.isOnline || c.lastSeen.Some?
    ensures c.isOnline ==> r == "online"
    ensures !c.isOnline ==> r == "visto " + FormatLastSeen(now - c.lastSeen.value)
  {
    if c.isOnline then "online" else "visto " + FormatLastSeen(now - c.lastSeen.value)
  }
}
