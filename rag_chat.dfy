/**
 * The `rag-chat` handler: it reads up to ten opportunities and ten companies,
 * renders them as a text context, sends the context and the user's message
 * to a chat-completion API, and answers with the first choice. The two
 * database reads and the API call are parameters.
 */
module RagChat {
  import opened Optional
  import Text
  import Http

  /** The columns of an `opportunities` row the context uses; `budget` as `toLocaleString` renders it. */
  datatype OpportunityRow = OpportunityRow(
    projectName: string,
    client: string,
    country: string,
    sector: string,
    budget: Option<string>,
    deadline: Option<string>
  )

  /** The columns of a `companies` row the context uses; `rating` as the template renders the number. */
  datatype CompanyRow = CompanyRow(name: string, country: string, specialization: string, rating: string, website: string)

  /** `value || 'N/A'`: a missing or empty value reads as N/A. */
  function OrNA(value: Option<string>): (shown: string)
    ensures shown != ""
    ensures value.Some? && value.value != "" ==> shown == value.value
    ensures value.None? || value.value == "" ==> shown == "N/A"
  {
    if value.Some? && value.value != "" then value.value else "N/A"
  }

  /** The pieces of an opportunity's line; the dollar sign stays before N/A. */
  function OpportunityPieces(o: OpportunityRow): seq<string>
  {
    ["Project: ", o.projectName, ", Client: ", o.client, ", Country: ", o.country,
     ", Sector: ", o.sector, ", Budget: $", OrNA(o.budget), ", Deadline: ", OrNA(o.deadline)]
  }

  /** One opportunity as a line of the context: each field right after its label. */
  function OpportunityLine(o: OpportunityRow): (line: string)
    ensures Text.Contains(line, "Project: " + o.projectName)
    ensures Text.Contains(line, ", Client: " + o.client)
    ensures Text.Contains(line, ", Country: " + o.country)
    ensures Text.Contains(line, ", Sector: " + o.sector)
    ensures Text.Contains(line, ", Budget: $" + OrNA(o.budget))
    ensures Text.Contains(line, ", Deadline: " + OrNA(o.deadline))
  {
    var pieces := OpportunityPieces(o);
    Text.ConcatHasAdjacent(pieces, 0);
    Text.ConcatHasAdjacent(pieces, 2);
    Text.ConcatHasAdjacent(pieces, 4);
    Text.ConcatHasAdjacent(pieces, 6);
    Text.ConcatHasAdjacent(pieces, 8);
    Text.ConcatHasAdjacent(pieces, 10);
    Text.Concat(pieces)
  }

  /** The pieces of a company's line. */
  function CompanyPieces(c: CompanyRow): seq<string>
  {
    ["Company: ", c.name, ", Country: ", c.country, ", Specialization: ", c.specialization,
     ", Rating: ", c.rating, "/5, Website: ", c.website]
  }

  /** One company as a line of the context: each field right after its label. */
  function CompanyLine(c: CompanyRow): (line: string)
    ensures Text.Contains(line, "Company: " + c.name)
    ensures Text.Contains(line, ", Country: " + c.country)
    ensures Text.Contains(line, ", Specialization: " + c.specialization)
    ensures Text.Contains(line, ", Rating: " + c.rating)
    ensures Text.Contains(line, "/5, Website: " + c.website)
  {
    var pieces := CompanyPieces(c);
    Text.ConcatHasAdjacent(pieces, 0);
    Text.ConcatHasAdjacent(pieces, 2);
    Text.ConcatHasAdjacent(pieces, 4);
    Text.ConcatHasAdjacent(pieces, 6);
    Text.ConcatHasAdjacent(pieces, 8);
    Text.Concat(pieces)
  }

  function OpportunityLines(rows: seq<OpportunityRow>): (lines: seq<string>)
    ensures |lines| == |rows| && forall i :: 0 <= i < |rows| ==> lines[i] == OpportunityLine(rows[i])
  {
    seq(|rows|, i requires 0 <= i < |rows| => OpportunityLine(rows[i]))
  }

  function CompanyLines(rows: seq<CompanyRow>): (lines: seq<string>)
    ensures |lines| == |rows| && forall i :: 0 <= i < |rows| ==> lines[i] == CompanyLine(rows[i])
  {
    seq(|rows|, i requires 0 <= i < |rows| => CompanyLine(rows[i]))
  }

  /** `opportunities?.map(...).join('\n') || ''`: empty without rows, otherwise every row's line. */
  function OpportunityContext(data: Option<seq<OpportunityRow>>): (context: string)
    ensures data.None? || data.value == [] ==> context == ""
    ensures data.Some? ==> forall i :: 0 <= i < |data.value| ==> Text.Contains(context, OpportunityLine(data.value[i]))
  {
    if data.None? then ""
    else
      var lines := OpportunityLines(data.value);
      Text.JoinLinesHasLines(lines);
      Text.JoinLines(lines)
  }

  /** `companies?.map(...).join('\n') || ''`: empty without rows, otherwise every row's line. */
  function CompanyContext(data: Option<seq<CompanyRow>>): (context: string)
    ensures data.None? || data.value == [] ==> context == ""
    ensures data.Some? ==> forall i :: 0 <= i < |data.value| ==> Text.Contains(context, CompanyLine(data.value[i]))
  {
    if data.None? then ""
    else
      var lines := CompanyLines(data.value);
      Text.JoinLinesHasLines(lines);
      Text.JoinLines(lines)
  }

  const OpportunitiesHeading: string := "Available Opportunities:"
  const CompaniesHeading: string := "Available Companies:"

  /** The `context` template: each section on the lines right after its heading. */
  function Context(opportunityContext: string, companyContext: string): (context: string)
    ensures Text.Contains(context, OpportunitiesHeading + "\n" + opportunityContext)
    ensures Text.Contains(context, CompaniesHeading + "\n" + companyContext)
  {
    var pieces := ["\n", OpportunitiesHeading + "\n" + opportunityContext, "\n\n",
                   CompaniesHeading + "\n" + companyContext, "\n    "];
    Text.ConcatHasPiece(pieces, 1);
    Text.ConcatHasPiece(pieces, 3);
    Text.Concat(pieces)
  }

  const PromptIntro: string :=
    "You are an AI assistant for the Global Roads Scout platform, helping users find and analyze development opportunities and potential partners. \n"
    + "            \n"
    + "            Use the following context about available opportunities and companies to answer user questions:\n"
    + "            \n"
    + "            "

  const PromptOutro: string :=
    "\n"
    + "            \n"
    + "            Provide helpful, accurate information about opportunities, companies, sectors, and potential matches. Be concise but informative."

  /** The system message's content, with the context in the middle. */
  function SystemPrompt(context: string): string
  {
    PromptIntro + context + PromptOutro
  }

  datatype ChatMessage = ChatMessage(role: string, content: string)

  /** The JSON body posted to the chat-completion endpoint. */
  datatype CompletionRequest = CompletionRequest(model: string, messages: seq<ChatMessage>, maxTokens: int, temperature: real)

  /**
   * The request: the fixed model and sampling settings, a system turn whose
   * text holds the whole context, then the user's message unchanged.
   */
  function BuildCompletionRequest(message: string, context: string): (r: CompletionRequest)
    ensures r.model == "gpt-4o-mini" && r.maxTokens == 500 && r.temperature == 0.7
    ensures |r.messages| == 2 && r.messages[0].role == "system" && r.messages[1] == ChatMessage("user", message)
    ensures Text.Contains(r.messages[0].content, context)
  {
    Text.ContainsInfix(PromptIntro, context, PromptOutro);
    CompletionRequest("gpt-4o-mini",
                      [ChatMessage("system", SystemPrompt(context)), ChatMessage("user", message)],
                      500, 0.7)
  }

  /**
   * What the endpoint answers: whether the status was ok, `error?.message`
   * of an error body, and the contents of `choices[*].message` (`None` when
   * the body has no `choices`).
   */
  datatype ApiReply = ApiReply(ok: bool, errorMessage: Option<string>, choices: Option<seq<string>>)

  const FetchError: string := "Failed to fetch context data"

  /** `errorData.error?.message || 'Unknown error'`: never empty, the API's own message when it gave one. */
  function ApiErrorText(errorMessage: Option<string>): (text: string)
    ensures text != ""
    ensures errorMessage.Some? && errorMessage.value != "" ==> text == errorMessage.value
  {
    if errorMessage.Some? && errorMessage.value != "" then errorMessage.value else "Unknown error"
  }

  /** What `data.choices[0].message` throws when `choices` is missing. */
  const NoChoicesError: string := "Cannot read properties of undefined (reading '0')"

  /** What `data.choices[0].message` throws when `choices` is empty. */
  const EmptyChoicesError: string := "Cannot read properties of undefined (reading 'message')"

  // ---------------------------------------------------------------------------
  // What the context promises
  // ---------------------------------------------------------------------------

  /** A row without a budget or deadline shows N/A for it, the budget still behind its dollar sign. */
  lemma MissingValuesReadNA(o: OpportunityRow)
    ensures o.budget.None? || o.budget.value == "" ==> Text.Contains(OpportunityLine(o), ", Budget: $N/A")
    ensures o.deadline.None? || o.deadline.value == "" ==> Text.Contains(OpportunityLine(o), ", Deadline: N/A")
  {
    assert ", Budget: $" + "N/A" == ", Budget: $N/A";
    assert ", Deadline: " + "N/A" == ", Deadline: N/A";
  }

  /** An opportunity renders to a single line when none of its fields holds a line break. */
  ghost predicate OpportunityOnOneLine(o: OpportunityRow)
  {
    && '\n' !in o.projectName && '\n' !in o.client && '\n' !in o.country && '\n' !in o.sector
    && (o.budget.Some? ==> '\n' !in o.budget.value)
    && (o.deadline.Some? ==> '\n' !in o.deadline.value)
  }

  ghost predicate CompanyOnOneLine(c: CompanyRow)
  {
    '\n' !in c.name && '\n' !in c.country && '\n' !in c.specialization && '\n' !in c.rating && '\n' !in c.website
  }

  lemma OpportunityLineHasNoBreak(o: OpportunityRow)
    requires OpportunityOnOneLine(o)
    ensures '\n' !in OpportunityLine(o)
  {
    var pieces := OpportunityPieces(o);
    assert '\n' !in OrNA(o.budget) && '\n' !in OrNA(o.deadline);
    assert forall i :: 0 <= i < |pieces| ==> '\n' !in pieces[i];
    Text.ConcatLacks(pieces, '\n');
  }

  lemma CompanyLineHasNoBreak(c: CompanyRow)
    requires CompanyOnOneLine(c)
    ensures '\n' !in CompanyLine(c)
  {
    var pieces := CompanyPieces(c);
    assert forall i :: 0 <= i < |pieces| ==> '\n' !in pieces[i];
    Text.ConcatLacks(pieces, '\n');
  }

  /**
   * The opportunity context reads back, line by line, as the rows it was
   * made from, in order: splitting it at line breaks gives one line per row.
   */
  lemma OpportunityContextLines(rows: seq<OpportunityRow>)
    requires |rows| > 0 && forall i :: 0 <= i < |rows| ==> OpportunityOnOneLine(rows[i])
    ensures var parts := Text.SplitLines(OpportunityContext(Some(rows)));
            |parts| == |rows| && forall i :: 0 <= i < |rows| ==> parts[i] == OpportunityLine(rows[i])
  {
    var lines := OpportunityLines(rows);
    forall i | 0 <= i < |lines| ensures '\n' !in lines[i] {
      OpportunityLineHasNoBreak(rows[i]);
    }
    Text.SplitJoinLines(lines);
  }

  /** The same for the company context. */
  lemma CompanyContextLines(rows: seq<CompanyRow>)
    requires |rows| > 0 && forall i :: 0 <= i < |rows| ==> CompanyOnOneLine(rows[i])
    ensures var parts := Text.SplitLines(CompanyContext(Some(rows)));
            |parts| == |rows| && forall i :: 0 <= i < |rows| ==> parts[i] == CompanyLine(rows[i])
  {
    var lines := CompanyLines(rows);
    forall i | 0 <= i < |lines| ensures '\n' !in lines[i] {
      CompanyLineHasNoBreak(rows[i]);
    }
    Text.SplitJoinLines(lines);
  }

  /**
   * The request carries the user's message unchanged as the user turn, and
   * a system turn whose text holds each section right after its heading.
   */
  lemma RequestCarriesContext(message: string, opportunityContext: string, companyContext: string)
    ensures var r := BuildCompletionRequest(message, Context(opportunityContext, companyContext));
            && r.model == "gpt-4o-mini" && r.maxTokens == 500 && r.temperature == 0.7
            && |r.messages| == 2
            && r.messages[0].role == "system" && r.messages[1] == ChatMessage("user", message)
            && Text.Contains(r.messages[0].content, OpportunitiesHeading + "\n" + opportunityContext)
            && Text.Contains(r.messages[0].content, CompaniesHeading + "\n" + companyContext)
  {
    var context := Context(opportunityContext, companyContext);
    var system := BuildCompletionRequest(message, context).messages[0].content;
    Text.ContainsTransitive(system, context, OpportunitiesHeading + "\n" + opportunityContext);
    Text.ContainsTransitive(system, context, CompaniesHeading + "\n" + companyContext);
  }

  /** Every row read from either table appears, as its line, in the system turn. */
  lemma RequestCarriesRows(message: string, opportunities: seq<OpportunityRow>, companies: seq<CompanyRow>)
    ensures var system := BuildCompletionRequest(message,
                            Context(OpportunityContext(Some(opportunities)), CompanyContext(Some(companies)))).messages[0].content;
            && (forall i :: 0 <= i < |opportunities| ==> Text.Contains(system, OpportunityLine(opportunities[i])))
            && (forall i :: 0 <= i < |companies| ==> Text.Contains(system, CompanyLine(companies[i])))
  {
    var oc := OpportunityContext(Some(opportunities));
    var cc := CompanyContext(Some(companies));
    var context := Context(oc, cc);
    var system := BuildCompletionRequest(message, context).messages[0].content;
    assert Text.Contains(context, OpportunitiesHeading + "\n" + oc);
    Text.ContainsInfix(OpportunitiesHeading + "\n", oc, "");
    assert OpportunitiesHeading + "\n" + oc + "" == OpportunitiesHeading + "\n" + oc;
    Text.ContainsTransitive(context, OpportunitiesHeading + "\n" + oc, oc);
    Text.ContainsTransitive(system, context, oc);
    Text.ContainsInfix(CompaniesHeading + "\n", cc, "");
    assert CompaniesHeading + "\n" + cc + "" == CompaniesHeading + "\n" + cc;
    Text.ContainsTransitive(context, CompaniesHeading + "\n" + cc, cc);
    Text.ContainsTransitive(system, context, cc);
    forall i | 0 <= i < |opportunities| ensures Text.Contains(system, OpportunityLine(opportunities[i])) {
      Text.ContainsTransitive(system, oc, OpportunityLine(opportunities[i]));
    }
    forall i | 0 <= i < |companies| ensures Text.Contains(system, CompanyLine(companies[i])) {
      Text.ContainsTransitive(system, cc, CompanyLine(companies[i]));
    }
  }

  // ---------------------------------------------------------------------------
  // The handler
  // ---------------------------------------------------------------------------

  /**
   * `serve`'s callback. `opportunities` and `companies` are the replies of the
   * two reads, `callApi` the endpoint, failing with the thrown message when
   * the fetch is rejected or a body is not JSON; `apiSent` records the
   * request posted, if any.
   */
  method HandleRagChat(
    request: Http.Request<string>,
    opportunities: Http.DbReply<seq<OpportunityRow>>,
    companies: Http.DbReply<seq<CompanyRow>>,
    callApi: CompletionRequest -> Result<ApiReply, string>
  ) returns (response: Http.Response<string>, apiSent: Option<CompletionRequest>)
    ensures Http.Uniform(response)
    ensures request.httpMethod == "OPTIONS" ==> response == Http.Preflight() && apiSent == None
    ensures request.httpMethod != "OPTIONS" && request.body.Failure? ==>
              response == Http.ServerError(request.body.error) && apiSent == None
    // A failed read of either table fails the request before the API is called.
    ensures request.httpMethod != "OPTIONS" && request.body.Success?
            && (opportunities.error.Some? || companies.error.Some?) ==>
              response == Http.ServerError(FetchError) && apiSent == None
    ensures apiSent.Some? <==>
              request.httpMethod != "OPTIONS" && request.body.Success?
              && opportunities.error.None? && companies.error.None?
    ensures apiSent.Some? ==>
              apiSent.value == BuildCompletionRequest(request.body.value,
                                 Context(OpportunityContext(opportunities.data), CompanyContext(companies.data)))
    // A rejected fetch or a body that is not JSON fails with the thrown message.
    ensures apiSent.Some? && callApi(apiSent.value).Failure? ==>
              response == Http.ServerError(callApi(apiSent.value).error)
    ensures apiSent.Some? && callApi(apiSent.value).Success? && !callApi(apiSent.value).value.ok ==>
              response == Http.ServerError("OpenAI API error: " + ApiErrorText(callApi(apiSent.value).value.errorMessage))
    ensures apiSent.Some? && callApi(apiSent.value).Success? && callApi(apiSent.value).value.ok
            && callApi(apiSent.value).value.choices.None? ==>
              response == Http.ServerError(NoChoicesError)
    ensures apiSent.Some? && callApi(apiSent.value).Success? && callApi(apiSent.value).value.ok
            && callApi(apiSent.value).value.choices == Some([]) ==>
              response == Http.ServerError(EmptyChoicesError)
    // Success exactly when the API answered ok with at least one choice; the first is returned verbatim.
    ensures response.body.Succeeded? <==>
              && apiSent.Some? && callApi(apiSent.value).Success? && callApi(apiSent.value).value.ok
              && callApi(apiSent.value).value.choices.Some? && |callApi(apiSent.value).value.choices.value| > 0
    ensures response.body.Succeeded? ==> response == Http.Ok(callApi(apiSent.value).value.choices.value[0])
  {
    apiSent := None;
    if request.httpMethod == "OPTIONS" {
      return Http.Preflight(), apiSent;
    }
    if request.body.Failure? {
      return Http.ServerError(request.body.error), apiSent;
    }
    var message := request.body.value;
    if opportunities.error.Some? || companies.error.Some? {
      return Http.ServerError(FetchError), apiSent;
    }
    var context := Context(OpportunityContext(opportunities.data), CompanyContext(companies.data));
    var completion := BuildCompletionRequest(message, context);
    apiSent := Some(completion);
    var answer := callApi(completion);
    if answer.Failure? {
      return Http.ServerError(answer.error), apiSent;
    }
    var reply := answer.value;
    if !reply.ok {
      return Http.ServerError("OpenAI API error: " + ApiErrorText(reply.errorMessage)), apiSent;
    }
    if reply.choices.None? {
      return Http.ServerError(NoChoicesError), apiSent;
    }
    if |reply.choices.value| == 0 {
      return Http.ServerError(EmptyChoicesError), apiSent;
    }
    response := Http.Ok(reply.choices.value[0]);
  }
}
