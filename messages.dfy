/** The Messages monitoring screen: conversations with their flagged-message
    counts, the messages of the open conversation, deletion of a message,
    blocking of a conversation, the monitoring counters and the AI-detection
    counters driven by each message's flag reason. */
module Messages {
  import opened Seqs
  import opened Text

  datatype ConversationStatus = Active | Monitored | Blocked

  function StatusName(s: ConversationStatus): string
  {
    match s
    case Active => "active"
    case Monitored => "monitored"
    case Blocked => "blocked"
  }

  /** A conversation; the participants and last-message preview are
      display-only and not part of the model. */
  datatype Conversation = Conversation(
    id: int,
    messageCount: int,
    flaggedCount: int,
    status: ConversationStatus)

  /** A message; sender, receiver, content and AI score are display-only. */
  datatype Message = Message(
    id: int,
    conversationId: int,
    flagged: bool,
    flagReason: Option<string>)

  datatype FilterOptions = FilterOptions(status: string, dateRange: string, severity: string)

  const DefaultFilters := FilterOptions("all", "all", "all")

  /** The callback of `filteredConversations`, with its two early exits. */
  predicate KeepConversation(f: FilterOptions, c: Conversation)
  {
    if f.status != "all" && StatusName(c.status) != f.status then false
    else if f.severity == "flagged" && c.flaggedCount == 0 then false
    else true
  }

  /** The conversation list shown in the side panel. */
  function FilteredConversations(conversations: seq<Conversation>, f: FilterOptions): (r: seq<Conversation>)
    ensures |r| <= |conversations|
  {
    Filter((c: Conversation) => KeepConversation(f, c), conversations)
  }

  /** The list is an order-preserving subsequence; a status other than
      "all" requires that status, the severity "flagged" drops conversations
      without flagged messages, and every conversation meeting both is
      shown. */
  lemma FilteredConversationsSound(conversations: seq<Conversation>, f: FilterOptions)
    ensures IsSubsequence(FilteredConversations(conversations, f), conversations)
    ensures forall i :: 0 <= i < |FilteredConversations(conversations, f)| ==>
              var c := FilteredConversations(conversations, f)[i];
              (f.status == "all" || StatusName(c.status) == f.status) &&
              (f.severity == "flagged" ==> c.flaggedCount != 0)
    ensures forall i :: (0 <= i < |conversations| &&
              (f.status == "all" || StatusName(conversations[i].status) == f.status) &&
              (f.severity != "flagged" || conversations[i].flaggedCount != 0)) ==>
              conversations[i] in FilteredConversations(conversations, f)
  {
    FilterIsSubsequence((c: Conversation) => KeepConversation(f, c), conversations);
  }

  /** A severity other than "flagged" (and any date range) restricts
      nothing: with the status at "all" the whole list is shown. */
  lemma UnfilteredShowsAll(conversations: seq<Conversation>, f: FilterOptions)
    requires f.status == "all" && f.severity != "flagged"
    ensures FilteredConversations(conversations, f) == conversations
  {
    FilterKeepsAll((c: Conversation) => KeepConversation(f, c), conversations);
  }

  /** `deleteMessage`: every message with that id goes; the others stay,
      in order. */
  function WithoutMessage(messages: seq<Message>, id: int): (r: seq<Message>)
    ensures forall i :: 0 <= i < |r| ==> r[i] in messages && r[i].id != id
    ensures forall i :: 0 <= i < |messages| && messages[i].id != id ==> messages[i] in r
  {
    Filter((m: Message) => m.id != id, messages)
  }

  /** Deleting keeps the others in order, removes exactly the messages with
      that id, and deleting the same id again changes nothing. */
  lemma DeleteMessageProperties(messages: seq<Message>, id: int)
    ensures IsSubsequence(WithoutMessage(messages, id), messages)
    ensures |WithoutMessage(messages, id)| == |messages| - |Filter((m: Message) => m.id == id, messages)|
    ensures WithoutMessage(WithoutMessage(messages, id), id) == WithoutMessage(messages, id)
  {
    var p := (m: Message) => m.id != id;
    FilterIsSubsequence(p, messages);
    FilterPartition((m: Message) => m.id == id, p, messages);
    FilterFilter(p, p, p, messages);
  }

  /** `blockConversation`: the conversation with that id becomes blocked;
      every other conversation, the length and the order are kept. */
  function WithBlocked(conversations: seq<Conversation>, id: int): (r: seq<Conversation>)
    ensures |r| == |conversations|
    ensures forall i :: 0 <= i < |conversations| && conversations[i].id == id ==>
              r[i] == conversations[i].(status := Blocked)
    ensures forall i :: 0 <= i < |conversations| && conversations[i].id != id ==> r[i] == conversations[i]
  {
    MapWhere((c: Conversation) => c.id == id, (c: Conversation) => c.(status := Blocked), conversations)
  }

  /** Blocking the same conversation twice is blocking it once. */
  lemma BlockConversationIdempotent(conversations: seq<Conversation>, id: int)
    ensures WithBlocked(WithBlocked(conversations, id), id) == WithBlocked(conversations, id)
  {
    MapWhereIdempotent((c: Conversation) => c.id == id, (c: Conversation) => c.(status := Blocked), conversations);
  }

  /** "Flagged Today": the sum of the conversations' flagged counts. */
  function FlaggedToday(conversations: seq<Conversation>): (r: int)
    ensures (forall i :: 0 <= i < |conversations| ==> conversations[i].flaggedCount >= 0) ==>
              r >= 0 && (r == 0 <==> forall i :: 0 <= i < |conversations| ==> conversations[i].flaggedCount == 0)
  {
    SumNonNegative((c: Conversation) => c.flaggedCount, conversations);
    Sum((c: Conversation) => c.flaggedCount, conversations)
  }

  /** "Blocked Chats": the number of blocked conversations. */
  function BlockedChats(conversations: seq<Conversation>): (n: nat)
    ensures n <= |conversations|
    ensures n == 0 <==> forall i :: 0 <= i < |conversations| ==> conversations[i].status != Blocked
  {
    FilterEmpty((c: Conversation) => c.status == Blocked, conversations);
    |Filter((c: Conversation) => c.status == Blocked, conversations)|
  }

  /** Blocking raises "Blocked Chats" by the number of matching
      conversations that were not yet blocked (so never lowers it), and
      leaves "Flagged Today" as it was. */
  lemma {:induction false} BlockingCounters(conversations: seq<Conversation>, id: int)
    ensures BlockedChats(WithBlocked(conversations, id)) ==
            BlockedChats(conversations) +
            |Filter((c: Conversation) => c.id == id && c.status != Blocked, conversations)|
    ensures BlockedChats(WithBlocked(conversations, id)) >= BlockedChats(conversations)
    ensures FlaggedToday(WithBlocked(conversations, id)) == FlaggedToday(conversations)
    decreases |conversations|
  {
    if |conversations| > 0 {
      BlockingCounters(conversations[1..], id);
      assert WithBlocked(conversations, id)[1..] == WithBlocked(conversations[1..], id);
    }
  }

  /** Opening a conversation selects the first one with that id, or none. */
  function FindConversation(conversations: seq<Conversation>, id: int): (r: Option<Conversation>)
    ensures r.Some? <==> exists i :: 0 <= i < |conversations| && conversations[i].id == id
    ensures r.Some? ==> exists i :: 0 <= i < |conversations| && conversations[i] == r.value && r.value.id == id &&
                                    forall j :: 0 <= j < i ==> conversations[j].id != id
  {
    Find((c: Conversation) => c.id == id, conversations)
  }

  /** A message counts towards an AI-detection counter when it has a flag
      reason containing `needle`, compared case-sensitively. */
  predicate ReasonMentions(m: Message, needle: string)
  {
    m.flagReason.Some? && Contains(m.flagReason.value, needle)
  }

  /** `messages.filter(m => m.flagReason?.includes(needle)).length`. */
  function FlagReasonCount(messages: seq<Message>, needle: string): (n: nat)
    ensures n <= |messages|
    ensures n == 0 <==> forall i :: 0 <= i < |messages| ==> !ReasonMentions(messages[i], needle)
  {
    FilterEmpty((m: Message) => ReasonMentions(m, needle), messages);
    |Filter((m: Message) => ReasonMentions(m, needle), messages)|
  }

  /** Messages without a flag reason are never counted, and deleting a
      message never raises a counter. */
  lemma {:induction false} FlagReasonCountBounds(messages: seq<Message>, needle: string, id: int)
    ensures FlagReasonCount(messages, needle) <= |Filter((m: Message) => m.flagReason.Some?, messages)|
    ensures FlagReasonCount(WithoutMessage(messages, id), needle) <= FlagReasonCount(messages, needle)
    decreases |messages|
  {
    if |messages| > 0 {
      FlagReasonCountBounds(messages[1..], needle, id);
    }
  }

  /** A needle holding a character that the text lacks does not occur in
      it. */
  lemma {:induction false} NotContainedWithoutChar(hay: string, needle: string, k: nat)
    requires k < |needle| && needle[k] !in hay
    ensures !Contains(hay, needle)
    decreases |hay|
  {
    if k < |hay| {
      assert hay[k] != needle[k];
    }
    if |hay| > 0 {
      assert forall c :: c in hay[1..] ==> c in hay;
      NotContainedWithoutChar(hay[1..], needle, k);
    }
  }

  lemma PersonalRequestFound()
    ensures Contains("Request for personal contact information", "personal")
  {
    PersonalReasonParts();
    ContainsWitness("Request for personal contact information", "personal", 12);
  }

  /** "personal" sits at position 12 of the reason text. */
  lemma PersonalReasonParts()
    ensures |"Request for personal contact information"| >= 20
    ensures "Request for personal contact information"[12..20] == "personal"
  {
    var r := "Request for personal contact information";
    assert r == "Request for " + "personal" + " contact information";
  }

  lemma FinancialScamMissed()
    ensures !Contains("Financial scam pattern detected", "financial")
  {
    FinancialReasonParts();
    NotContainedWithoutChar("Financial" + " scam pattern detected", "financial", 0);
  }

  /** The reason text as its capitalised first word and the rest, neither
      holding a lower-case 'f'. */
  lemma FinancialReasonParts()
    ensures "Financial" + " scam pattern detected" == "Financial scam pattern detected"
    ensures 'f' !in "Financial" + " scam pattern detected"
  {
    assert 'f' !in "Financial";
    assert 'f' !in " scam pattern detected";
  }

  lemma FinancialScamFoundCapitalised()
    ensures Contains("Financial scam pattern detected", "Financial")
  {
    assert "Financial" <= "Financial scam pattern detected";
  }

  /** The match is case-sensitive: the reason "Financial scam pattern
      detected" is not counted as a financial scam pattern (it would be
      under "Financial"), while "Request for personal contact information"
      is counted as a personal-information request. */
  lemma DetectionIsCaseSensitive(m2: Message, m4: Message)
    requires m2.flagReason == Some("Request for personal contact information")
    requires m4.flagReason == Some("Financial scam pattern detected")
    ensures FlagReasonCount([m2], "personal") == 1
    ensures FlagReasonCount([m4], "financial") == 0
    ensures FlagReasonCount([m4], "Financial") == 1
  {
    PersonalRequestFound();
    FinancialScamMissed();
    FinancialScamFoundCapitalised();
  }

  /** The screen's state and its event handlers. The filtered list and the
      counters are derived at render time and are the functions above. */
  class MessagesScreen {
    var conversations: seq<Conversation>
    var selectedConversation: Option<Conversation>
    var messages: seq<Message>
    var filters: FilterOptions

    constructor ()
      ensures conversations == [] && selectedConversation == None && messages == [] && filters == DefaultFilters
    {
      conversations := [];
      selectedConversation := None;
      messages := [];
      filters := DefaultFilters;
    }

    /** The mount-time load of the conversations. */
    method Load(loaded: seq<Conversation>)
      modifies this
      ensures conversations == loaded
      ensures selectedConversation == old(selectedConversation) && messages == old(messages) && filters == old(filters)
    {
      conversations := loaded;
    }

    /** `fetchMessages`: select the conversation, then show its messages
      (`loaded`, the data the load returns). */
    method OpenConversation(id: int, loaded: seq<Message>)
      modifies this
      ensures selectedConversation == FindConversation(old(conversations), id)
      ensures messages == loaded
      ensures conversations == old(conversations) && filters == old(filters)
    {
      selectedConversation := FindConversation(conversations, id);
      messages := loaded;
    }

    method SetFilters(f: FilterOptions)
      modifies this
      ensures filters == f
      ensures conversations == old(conversations) && selectedConversation == old(selectedConversation)
      ensures messages == old(messages)
    {
      filters := f;
    }

    method DeleteMessage(id: int)
      modifies this
      ensures messages == WithoutMessage(old(messages), id)
      ensures conversations == old(conversations) && selectedConversation == old(selectedConversation)
      ensures filters == old(filters)
    {
      messages := WithoutMessage(messages, id);
    }

    /** `blockConversation`; the open conversation's header keeps the status
      it had when it was opened. */
    method BlockConversation(id: int)
      modifies this
      ensures conversations == WithBlocked(old(conversations), id)
      ensures BlockedChats(conversations) >= BlockedChats(old(conversations))
      ensures selectedConversation == old(selectedConversation) && messages == old(messages)
      ensures filters == old(filters)
    {
      BlockingCounters(conversations, id);
      conversations := WithBlocked(conversations, id);
    }
  }
}
