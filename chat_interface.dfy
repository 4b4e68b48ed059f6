/**
 * The chat panel: a transcript that starts with a greeting, an input box and
 * a loading flag. Sending a non-blank input appends it as a user message,
 * clears the box and schedules a canned reply, chosen from the sent text by
 * keyword; when the reply arrives it is appended and loading stops.
 */
module ChatInterface {
  import Text

  datatype Sender = User | Ai

  /** A transcript entry; its id and timestamp come from the clock and are not modelled. */
  datatype Message = Message(content: string, sender: Sender)

  const Greeting: string :=
    "Hello! I'm your AI assistant for opportunity intelligence. I can help you query opportunities, generate reports, and provide insights. What would you like to know?"

  /** `sampleQuestions`, offered as quick questions. */
  const SampleQuestions: seq<string> := [
    "Show me high-scoring opportunities in Kenya",
    "What transport projects are available this month?",
    "Find opportunities with budgets over $5M",
    "Generate today's executive summary"
  ]

  // ---------------------------------------------------------------------------
  // `getAIResponse`: the canned replies and the keyword rule that picks one
  // ---------------------------------------------------------------------------

  /** The five canned replies. */
  datatype Reply = KenyaOpportunities | TransportOverview | LargeBudgets | DailySummary | Capabilities

  /** The keyword rule, first match wins, on the lower-cased query. */
  function ChooseReply(query: string): (reply: Reply)
    // Every keyword has at least two letters, so a shorter query gets the list of capabilities.
    ensures |query| < 2 ==> reply == Capabilities
  {
    var q := Text.ToLower(query);
    Text.ContainsNoLonger(q, "transport");
    Text.ContainsNoLonger(q, "kenya");
    Text.ContainsNoLonger(q, "budget");
    Text.ContainsNoLonger(q, "5m");
    Text.ContainsNoLonger(q, "summary");
    Text.ContainsNoLonger(q, "report");
    if Text.Contains(q, "kenya") then KenyaOpportunities
    else if Text.Contains(q, "transport") then TransportOverview
    else if Text.Contains(q, "budget") || Text.Contains(q, "5m") then LargeBudgets
    else if Text.Contains(q, "summary") || Text.Contains(q, "report") then DailySummary
    else Capabilities
  }

  /** The bullet and emoji as the source file holds them (UTF-8 read as Windows-1252). */
  const Bullet: string := "\U{00E2}\U{20AC}\U{00A2}"
  const ChartIcon: string := "\U{00F0}\U{0178}\U{201C}\U{0160}"
  const TargetIcon: string := "\U{00F0}\U{0178}\U{017D}\U{00AF}"
  const HandshakeIcon: string := "\U{00F0}\U{0178}\U{00A4}"

  /** The text of each reply; the daily summary embeds today's date as `toLocaleDateString` shows it. */
  function ReplyText(reply: Reply, today: string): string
  {
    match reply
    case KenyaOpportunities =>
      "I found 3 high-scoring opportunities in Kenya:\n\n1. **East Africa Transport Corridor Development** (92% match)\n   - Client: African Development Bank\n   - Budget: $2.5M - $5.0M\n   - Focus: Highway design, traffic studies\n\n2. **Nairobi Urban Mobility Study** (88% match)\n   - Client: World Bank\n   - Budget: $1.8M - $3.2M\n   - Focus: Urban transport planning\n\nWould you like more details on any of these?"
    case TransportOverview =>
      "Currently tracking 12 transport infrastructure opportunities across Africa and Middle East. Here are the highlights:\n\n"
      + Bullet + " **5 highway projects** (avg. score: 84%)\n"
      + Bullet + " **3 railway initiatives** (avg. score: 76%)\n"
      + Bullet + " **4 urban mobility studies** (avg. score: 89%)\n\nTotal estimated value: $47.3M\n\nWhich category interests you most?"
    case LargeBudgets =>
      "Found 6 opportunities with budgets exceeding $5M:\n\n"
      + Bullet + " Sub-Saharan Railway Network ($10M-$15M) - 78% match\n"
      + Bullet + " Middle East Highway Expansion ($8M-$12M) - 82% match\n"
      + Bullet + " East Africa Transport Corridor ($2.5M-$5M) - 92% match\n\nThese represent $35M+ in potential project value. Shall I provide partnership recommendations?"
    case DailySummary => SummaryHead + today + SummaryTail
    case Capabilities =>
      "I understand you're looking for information about opportunities. I can help you with:\n\n"
      + Bullet + " Searching opportunities by country, sector, or budget\n"
      + Bullet + " Generating compatibility scores and recommendations\n"
      + Bullet + " Identifying local partners\n"
      + Bullet + " Creating custom reports\n"
      + Bullet + " Filtering by deadlines and programs\n\nWhat specific information would you like to explore?"
  }

  /** The daily summary around the date: its title before it, its body after it. */
  const SummaryHead: string := "**Daily Intelligence Summary - "
  const SummaryTail: string :=
    "**\n\n"
    + ChartIcon + " **Key Metrics:**\n"
    + Bullet + " 47 active opportunities\n"
    + Bullet + " 23 high-match projects (85%+)\n"
    + Bullet + " $127.5M total pipeline value\n\n"
    + TargetIcon + " **Top Recommendations:**\n1. East Africa Transport Corridor (92% - deadline Dec 15)\n2. Middle East Urban Mobility (87% - deadline Nov 30)\n3. Nigeria Railway Expansion (78% - deadline Dec 20)\n\n"
    + HandshakeIcon + " **New Partners Identified:** 8 firms across target regions\n\nFull Excel report ready for download."

  /** The daily summary shows the date it is given, right after its title. */
  lemma SummaryShowsDate(today: string)
    ensures var text := ReplyText(DailySummary, today);
            && |SummaryHead| + |today| <= |text|
            && text[..|SummaryHead|] == SummaryHead
            && text[|SummaryHead|..|SummaryHead| + |today|] == today
            && Text.Contains(text, today)
  {
    Text.ContainsInfix(SummaryHead, today, SummaryTail);
  }

  /** `getAIResponse(query)`: the canned text the keyword rule picks; a query naming Kenya gets the Kenya list. */
  function GetAIResponse(query: string, today: string): (text: string)
    ensures Text.Contains(Text.ToLower(query), "kenya") ==> text == ReplyText(KenyaOpportunities, today)
  {
    ReplyText(ChooseReply(query), today)
  }

  /**
   * The keyword priority: "kenya" beats "transport", which beats "budget" or
   * "5m", which beat "summary" or "report"; anything else gets the list of
   * capabilities.
   */
  lemma ReplyPriority(query: string)
    ensures var q := Text.ToLower(query);
            && (ChooseReply(query) == KenyaOpportunities <==> Text.Contains(q, "kenya"))
            && (ChooseReply(query) == TransportOverview <==>
                  !Text.Contains(q, "kenya") && Text.Contains(q, "transport"))
            && (ChooseReply(query) == LargeBudgets <==>
                  !Text.Contains(q, "kenya") && !Text.Contains(q, "transport")
                  && (Text.Contains(q, "budget") || Text.Contains(q, "5m")))
            && (ChooseReply(query) == DailySummary <==>
                  !Text.Contains(q, "kenya") && !Text.Contains(q, "transport")
                  && !Text.Contains(q, "budget") && !Text.Contains(q, "5m")
                  && (Text.Contains(q, "summary") || Text.Contains(q, "report")))
            && (ChooseReply(query) == Capabilities <==>
                  !Text.Contains(q, "kenya") && !Text.Contains(q, "transport")
                  && !Text.Contains(q, "budget") && !Text.Contains(q, "5m")
                  && !Text.Contains(q, "summary") && !Text.Contains(q, "report"))
  {
  }

  /** The choice ignores the case of the query. */
  lemma ChooseReplyIgnoresCase(query: string)
    ensures ChooseReply(Text.ToLower(query)) == ChooseReply(query)
  {
    Text.ToLowerIdempotent(query);
  }

  /** The first quick question, "... in Kenya", gets the Kenya reply. */
  lemma KenyaQuestionReply()
    ensures ChooseReply(SampleQuestions[0]) == KenyaOpportunities
  {
    assert SampleQuestions[0] == "Show me high-scoring opportunities in " + "Kenya" + "";
    var kenya := Text.ToLower("Kenya");
    assert kenya[0] == 'k' && kenya[1] == 'e' && kenya[2] == 'n' && kenya[3] == 'y' && kenya[4] == 'a';
    Text.ContainsLowered("Show me high-scoring opportunities in ", "Kenya", "", "kenya");
  }

  // ---------------------------------------------------------------------------
  // The transcript state and its transitions
  // ---------------------------------------------------------------------------

  /** The number of messages from one sender. */
  function CountFrom(messages: seq<Message>, sender: Sender): nat
    decreases |messages|
  {
    if |messages| == 0 then 0
    else CountFrom(messages[..|messages| - 1], sender) + (if messages[|messages| - 1].sender == sender then 1 else 0)
  }

  lemma CountFromAppend(messages: seq<Message>, m: Message, sender: Sender)
    ensures CountFrom(messages + [m], sender) == CountFrom(messages, sender) + (if m.sender == sender then 1 else 0)
  {
    assert (messages + [m])[..|messages|] == messages;
  }

  /** `disabled={isLoading || !inputValue.trim()}` on the send button. */
  predicate SendButtonDisabled(isLoading: bool, inputValue: string)
    ensures isLoading ==> SendButtonDisabled(isLoading, inputValue)
    ensures inputValue == "" ==> SendButtonDisabled(isLoading, inputValue)
  {
    isLoading || Text.IsBlank(inputValue)
  }

  /** The send button is enabled exactly when nothing is loading and the input holds a non-space character. */
  lemma SendButtonEnabledIff(isLoading: bool, inputValue: string)
    ensures !SendButtonDisabled(isLoading, inputValue) <==>
            !isLoading && exists i :: 0 <= i < |inputValue| && !Text.IsJsWhitespace(inputValue[i])
  {
    Text.BlankIff(inputValue);
  }

  class ChatSession {
    var messages: seq<Message>
    var inputValue: string
    var isLoading: bool
    /** The inputs whose replies are waiting on a timer, oldest first (all timers run 1500 ms). */
    var scheduled: seq<string>

    /**
     * The transcript opens with the greeting; every user message is answered
     * by one reply, already in the transcript or still scheduled; and while
     * loading, a reply is on its way.
     */
    ghost predicate Valid()
      reads this
    {
      && |messages| > 0 && messages[0] == Message(Greeting, Ai)
      && CountFrom(messages, User) + 1 == CountFrom(messages, Ai) + |scheduled|
      && (isLoading ==> |scheduled| > 0)
    }

    /**
     * What the rendered panel keeps on top of `Valid`: while a reply is on its
     * way the input and the send button are disabled, so at most one reply is
     * ever pending, and loading means exactly that one is.
     */
    ghost predicate UiValid()
      reads this
    {
      Valid() && |scheduled| <= 1 && (isLoading <==> |scheduled| == 1)
    }

    /** The initial component state. */
    constructor ()
      ensures Valid() && UiValid()
      ensures messages == [Message(Greeting, Ai)] && inputValue == "" && !isLoading && scheduled == []
    {
      messages := [Message(Greeting, Ai)];
      inputValue := "";
      isLoading := false;
      scheduled := [];
    }

    /** `disabled={isLoading}` on the input box. */
    predicate InputDisabled()
      reads this
    {
      isLoading
    }

    /** Typing into the box (`onChange`), which only fires while the box is enabled. */
    method Type(text: string)
      requires Valid() && !InputDisabled()
      modifies this
      ensures Valid()
      ensures old(UiValid()) ==> UiValid()
      ensures inputValue == text
      ensures messages == old(messages) && isLoading == old(isLoading) && scheduled == old(scheduled)
    {
      inputValue := text;
    }

    /** `handleQuestionClick`: puts the question in the box and sends nothing. */
    method ClickQuestion(question: string)
      requires Valid()
      modifies this
      ensures Valid()
      ensures old(UiValid()) ==> UiValid()
      ensures inputValue == question
      ensures messages == old(messages) && isLoading == old(isLoading) && scheduled == old(scheduled)
    {
      inputValue := question;
    }

    /**
     * `handleSendMessage`: a blank input changes nothing; otherwise the input,
     * untrimmed, is appended as a user message, the box is cleared, loading
     * starts and a reply to that input is scheduled.
     */
    method SendMessage() returns (sent: bool)
      requires Valid()
      modifies this
      ensures Valid()
      ensures sent <==> !Text.IsBlank(old(inputValue))
      ensures old(!SendButtonDisabled(isLoading, inputValue)) ==> sent
      ensures !sent ==> messages == old(messages) && inputValue == old(inputValue)
                        && isLoading == old(isLoading) && scheduled == old(scheduled)
      ensures sent ==> && messages == old(messages) + [Message(old(inputValue), User)]
                       && inputValue == "" && isLoading
                       && scheduled == old(scheduled) + [old(inputValue)]
    {
      if Text.IsBlank(inputValue) {
        return false;
      }
      CountFromAppend(messages, Message(inputValue, User), User);
      CountFromAppend(messages, Message(inputValue, User), Ai);
      messages := messages + [Message(inputValue, User)];
      scheduled := scheduled + [inputValue];
      inputValue := "";
      isLoading := true;
      sent := true;
    }

    /**
     * The send button (`onClick={handleSendMessage}`), clickable only when
     * nothing is loading and the input is not blank: it always sends.
     */
    method Submit()
      requires UiValid() && !SendButtonDisabled(isLoading, inputValue)
      modifies this
      ensures UiValid() && isLoading && |scheduled| == 1
      ensures messages == old(messages) + [Message(old(inputValue), User)]
      ensures inputValue == "" && scheduled == [old(inputValue)]
    {
      var sent := SendMessage();
      assert sent;
    }

    /**
     * Enter in the box (`onKeyDown`), possible only while the box is enabled;
     * a blank input sends nothing.
     */
    method PressEnter() returns (sent: bool)
      requires UiValid() && !InputDisabled()
      modifies this
      ensures UiValid()
      ensures sent <==> !Text.IsBlank(old(inputValue))
      ensures sent ==> messages == old(messages) + [Message(old(inputValue), User)]
                       && inputValue == "" && isLoading && scheduled == [old(inputValue)]
      ensures !sent ==> messages == old(messages) && inputValue == old(inputValue) && !isLoading && scheduled == []
    {
      sent := SendMessage();
    }

    /**
     * The timer callback: the reply to the oldest scheduled input is appended
     * as an AI message and loading stops.
     */
    method ReceiveReply(today: string)
      requires Valid() && |scheduled| > 0
      modifies this
      ensures Valid()
      ensures old(UiValid()) ==> UiValid() && scheduled == []
      ensures messages == old(messages) + [Message(GetAIResponse(old(scheduled[0]), today), Ai)]
      ensures scheduled == old(scheduled[1..]) && !isLoading && inputValue == old(inputValue)
    {
      var reply := GetAIResponse(scheduled[0], today);
      AppendReply(reply);
      scheduled := scheduled[1..];
      isLoading := false;
    }

    /** Appends an AI message, whatever its text, keeping the greeting and the per-sender counts. */
    method AppendReply(content: string)
      requires Valid() && |scheduled| > 0
      modifies this
      ensures messages == old(messages) + [Message(content, Ai)]
      ensures |messages| > 0 && messages[0] == Message(Greeting, Ai)
      ensures CountFrom(messages, User) + 1 == CountFrom(messages, Ai) + |scheduled| - 1
      ensures scheduled == old(scheduled) && isLoading == old(isLoading) && inputValue == old(inputValue)
    {
      CountFromAppend(messages, Message(content, Ai), User);
      CountFromAppend(messages, Message(content, Ai), Ai);
      messages := messages + [Message(content, Ai)];
    }
  }

  /** A send followed by its reply leaves the transcript two messages longer: the input, then its answer. */
  method SendThenReply(session: ChatSession, today: string) returns (sent: bool)
    requires session.Valid() && session.scheduled == []
    modifies session
    ensures session.Valid()
    ensures sent ==> session.messages == old(session.messages) + [
              Message(old(session.inputValue), User),
              Message(GetAIResponse(old(session.inputValue), today), Ai)]
    ensures sent ==> !session.isLoading && session.inputValue == "" && session.scheduled == []
    ensures !sent ==> session.messages == old(session.messages)
  {
    sent := session.SendMessage();
    if sent {
      session.ReceiveReply(today);
    }
  }
}
