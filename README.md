# Global Roads Scout — a Dafny model of its decision logic

Global Roads Scout is a dashboard for development-finance opportunities. It shows opportunities with a match score
and a deadline, lists partner companies with star ratings, and offers a chat assistant. Three serverless handlers
sit behind it:

- `scrape-opportunities` generates mock opportunities for a bank;
- `find-companies` generates candidate companies for an opportunity;
- `rag-chat` answers a question from a text context built out of the stored rows.

This project models the logic behind those screens and handlers, and proves what it promises:

- the dashboard's case-insensitive search filter;
- the opportunity card's score bands and deadline labels;
- the star-rating fill rule, shared by the company and partner cards;
- the company card's relevance badge;
- the chat assistant's keyword replies and its transcript state (a class whose methods update the messages, the
  input box, the loading flag and the replies still pending);
- the three handlers.

Each handler is a method. Its database calls, the chat-completion endpoint, `Math.random()` draws, the clock and the
calendar formatting are parameters. Its out-parameters record which inserts or API calls it made. Every handler is
proved to answer pre-flight requests with the CORS headers and nothing else. Every handler is also proved to answer
failures with status 500 and `{ success: false, error }`, and successes with status 200.

Modules and files:

- `optional.dfy` — `Option` and `Result`.
- `text.dfy` — the JavaScript string operations the core relies on: `toLowerCase` on ASCII letters, `includes`,
  `trim` with the ECMAScript whitespace set, `replace` of the first occurrence, `join('\n')`/`split('\n')`,
  template literals as the concatenation of their pieces, and decimal rendering of integers.
- `random.dfy` — `Math.floor(Math.random() * n)` and picking from a literal list.
- `http.dfy` — requests, responses, CORS headers, and the `{ data, error }` database reply.
- `dashboard.dfy`, `opportunity_card.dfy`, `star_rating.dfy`, `company_card.dfy`, `chat_interface.dfy` — the UI logic.
- `find_companies.dfy`, `rag_chat.dfy`, `scrape_opportunities.dfy` — the handlers.

`getScoreBadgeVariant` has two definitions with identical code: `src/components/OpportunityCard.tsx:41-45` and
`src/components/CompanyCard.tsx:42-46`. The model defines it once, as `OpportunityCard.ScoreBadgeVariant`.
`renderStars` is likewise the same in `src/components/CompanyCard.tsx:26-40` and
`src/components/PartnerCard.tsx:25-39`, and is defined once, as `StarRating.RenderStars`.

## Model

| member | source | states |
|---|---|---|
| Dashboard.Matches | src/components/Dashboard.tsx:103-105 | Every opportunity matches the empty search term |
| Dashboard.FilterOpportunities | src/components/Dashboard.tsx:102-106 | The filtered list is a subsequence of the opportunities, in their order, and each kept opportunity matches the term in its project name, country or sector, ignoring case |
| Dashboard.FilterComplete | src/components/Dashboard.tsx:102-106 | Every matching opportunity is kept |
| Dashboard.FilterCounts | src/components/Dashboard.tsx:102-106 | Each opportunity is kept as many times as it occurs if it matches, and not at all otherwise; with the subsequence relation, exactly the matching ones are shown, duplicates included, in order |
| Dashboard.FilterShrinks | src/components/Dashboard.tsx:102-106 | Filtering never lengthens the list |
| Dashboard.FilterEmptyTermKeepsAll | src/components/Dashboard.tsx:102-106 | An empty search term shows every opportunity, unchanged and in order |
| Dashboard.FilterIdempotent | src/components/Dashboard.tsx:102-106 | Filtering the filtered list again with the same term changes nothing |
| Dashboard.FilterIgnoresOtherFields | src/components/Dashboard.tsx:102-106 | Only project name, country and sector decide: two lists that agree on those fields filter to lists that agree on them |
| Dashboard.FilterIgnoresTermCase | src/components/Dashboard.tsx:102-106 | Lower-casing the search term does not change the result |
| OpportunityCard.ScoreColor | src/components/OpportunityCard.tsx:35-39 | The colour is always one of success, warning and destructive |
| OpportunityCard.ScoreBadgeVariant | src/components/OpportunityCard.tsx:41-45 | The badge variant is always one of default, secondary and destructive |
| OpportunityCard.ScoreColorBands | src/components/OpportunityCard.tsx:35-39 | The colour is success exactly from 85, warning exactly from 70 up to 85, destructive exactly below 70 |
| OpportunityCard.ScoreBadgeVariantBands | src/components/OpportunityCard.tsx:41-45 | The badge variant is default exactly from 85, secondary exactly from 70 up to 85, destructive exactly below 70 |
| OpportunityCard.ScoreBandsAgree | src/components/OpportunityCard.tsx:35-45 | Colour and badge variant cut the scores into the same three bands |
| OpportunityCard.ScoreBandsMonotone | src/components/OpportunityCard.tsx:35-45 | A higher score never lands in a worse band |
| OpportunityCard.DiffDays | src/components/OpportunityCard.tsx:50-51 | The day difference is the least whole number of days that reaches the deadline: (d-1) days < time left <= d days |
| OpportunityCard.FormatDeadline | src/components/OpportunityCard.tsx:47-58 | The date itself is shown exactly when the day difference is unknown (an unparsable deadline) or more than a week; otherwise the text is Expired, Due Today, Due Tomorrow or one digit followed by " days left" |
| OpportunityCard.DeadlineLabelByTime | src/components/OpportunityCard.tsx:47-58 | By the time left: at least a day past the deadline is Expired; the day up to it is Due Today; the day before is Due Tomorrow; up to a week is "d days left" for a d in 2..7; beyond a week is the date |
| OpportunityCard.DaysLeftLabelReadsBack | src/components/OpportunityCard.tsx:56 | A "days left" label is one digit and " days left", and the digit reads back as the day difference |
| StarRating.RenderStars | src/components/PartnerCard.tsx:25-39 | Exactly five stars; star i (1..5) is filled iff i <= rating; the rating is shown unchanged |
| StarRating.FilledPrefix | src/components/PartnerCard.tsx:29-33 | A filled star has only filled stars before it |
| StarRating.FullAndEmpty | src/components/PartnerCard.tsx:29-33 | A rating of 5 or more fills all stars; below 1 fills none |
| StarRating.FilledCount | src/components/CompanyCard.tsx:29-33 | The number of filled stars is min(5, max(0, floor(rating))) |
| CompanyCard.RelevanceSlot | src/components/CompanyCard.tsx:63-67 | As written: the badge appears iff the score is present and non-zero, showing the score with the banded variant |
| CompanyCard.ZeroScoreShowsStrayZero | src/components/CompanyCard.tsx:63 | As written, a score of 0 leaves the text "0" in the header |
| CompanyCard.IntendedRelevanceSlot | src/components/CompanyCard.tsx:63-67 | Corrected: the badge iff the score is present and non-zero, and never a stray "0" |
| CompanyCard.SlotsDifferOnlyAtZero | src/components/CompanyCard.tsx:63-67 | The written and the corrected card differ exactly at a score of 0 |
| CompanyCard.GeneratedScoreShowsBadge | src/components/CompanyCard.tsx:63-67 | Every relevance score find-companies stores shows a badge, the same under both readings, and a non-destructive one from 70 up |
| ChatInterface.ChooseReply | src/components/ChatInterface.tsx:72-92 | A query shorter than two characters, the length of the shortest keyword, gets the list of capabilities |
| ChatInterface.GetAIResponse | src/components/ChatInterface.tsx:72-77 | A query whose lower-cased text contains "kenya" gets the Kenya list, whatever else it contains |
| ChatInterface.SummaryShowsDate | src/components/ChatInterface.tsx:87-88 | The daily summary shows the date it is given right after its title, so the text contains the date |
| ChatInterface.ReplyPriority | src/components/ChatInterface.tsx:72-92 | Keyword priority, both directions: the Kenya reply iff "kenya" occurs; transport iff "transport" occurs without "kenya"; budgets iff "budget" or "5m" without the earlier keywords; the daily summary iff "summary" or "report" without the earlier keywords; the capabilities reply iff no keyword occurs; all case-insensitive |
| ChatInterface.ChooseReplyIgnoresCase | src/components/ChatInterface.tsx:73 | The reply does not depend on the query's letter case |
| ChatInterface.KenyaQuestionReply | src/components/ChatInterface.tsx:72-77 | The first quick question ("... in Kenya", line 25) gets the Kenya reply |
| ChatInterface.SendButtonDisabled | src/components/ChatInterface.tsx:181 | The send button is disabled while loading and whenever the input is empty |
| ChatInterface.SendButtonEnabledIff | src/components/ChatInterface.tsx:181 | The send button is enabled iff nothing is loading and the input holds a non-whitespace character |
| ChatInterface.ChatSession.constructor | src/components/ChatInterface.tsx:31-43 | The transcript starts as the greeting alone, the input is empty, nothing is loading or pending |
| ChatInterface.ChatSession.Type | src/components/ChatInterface.tsx:172-177 | Typing, possible only while the input is enabled, sets the input and nothing else, and keeps both invariants |
| ChatInterface.ChatSession.ClickQuestion | src/components/ChatInterface.tsx:94-96 | A quick question fills the input and sends nothing |
| ChatInterface.ChatSession.SendMessage | src/components/ChatInterface.tsx:45-58 | Sends iff the input is not blank; blank changes nothing; otherwise the untrimmed input is appended as a user message, the input is cleared, loading starts and a reply to that input is pending; every user message keeps exactly one reply, shown or pending |
| ChatInterface.ChatSession.Submit | src/components/ChatInterface.tsx:179-183 | The send button, clickable only when enabled, always sends: the input joins the transcript, the box is cleared, loading starts, and exactly one reply is pending |
| ChatInterface.ChatSession.PressEnter | src/components/ChatInterface.tsx:176-177 | Enter in the enabled box sends iff the input is not blank; either way at most one reply is pending, and one exactly while loading |
| ChatInterface.ChatSession.ReceiveReply | src/components/ChatInterface.tsx:60-69 | The oldest pending input's keyword reply is appended as an AI message and loading stops; the reply count invariant holds, and in a session driven through the UI nothing is left pending |
| ChatInterface.SendThenReply | src/components/ChatInterface.tsx:45-70 | Sending and then receiving the reply leaves the transcript two messages longer: the input, then its answer |
| FindCompanies.Rating | supabase/functions/find-companies/index.ts:31 | A company rating lies in [3, 5) |
| FindCompanies.BuildCandidates | supabase/functions/find-companies/index.ts:25-50 | Fails with the TypeError message exactly when there are no services; otherwise three candidates for the opportunity with ratings in [3, 5), the first and third in the requested country, the second in one of UK, USA, Canada, Germany |
| FindCompanies.CandidatesEmbedRequest | supabase/functions/find-companies/index.ts:27-46 | The names contain the sector, the first service and the country; the specialisations are the sector, the first service and "Development Consulting"; the first and third websites contain the lower-cased sector and country |
| FindCompanies.SecondWebsiteSpaces | supabase/functions/find-companies/index.ts:37 | The second website has no space iff the lower-cased first service has at most one |
| FindCompanies.RelevanceScore | supabase/functions/find-companies/index.ts:67 | A relevance score lies in [60, 100) |
| FindCompanies.RelevanceRows | supabase/functions/find-companies/index.ts:64-68 | One relevance row per inserted company, same order, with that company's id and the opportunity id; none when no rows came back |
| FindCompanies.HandleFindCompanies | supabase/functions/find-companies/index.ts:14-99 | Pre-flight answered with CORS headers and no insert; a bad body or no services fails before any insert; a company-insert error fails with its message and no relevance insert; otherwise the relevance rows are inserted; success iff both inserts succeed, with count 3 and the returned rows |
| RagChat.OrNA | supabase/functions/rag-chat/index.ts:43 | The `|| 'N/A'` never leaves a field blank: a missing or empty value reads as N/A, any other value as itself |
| RagChat.OpportunityLine | supabase/functions/rag-chat/index.ts:42-44 | The line holds every field right after its label: project, client, country, sector, budget after "$", deadline |
| RagChat.MissingValuesReadNA | supabase/functions/rag-chat/index.ts:43 | A row without a budget shows ", Budget: $N/A", and one without a deadline ", Deadline: N/A" |
| RagChat.CompanyLine | supabase/functions/rag-chat/index.ts:46-48 | The line holds every field right after its label: name, country, specialization, rating, website after "/5" |
| RagChat.OpportunityContext | supabase/functions/rag-chat/index.ts:42-44 | Empty when the read returned no rows or null; otherwise it holds every row's line |
| RagChat.CompanyContext | supabase/functions/rag-chat/index.ts:46-48 | Empty when the read returned no rows or null; otherwise it holds every row's line |
| RagChat.OpportunityContextLines | supabase/functions/rag-chat/index.ts:42-44 | For at least one row, none of whose fields holds a line break, splitting the opportunity context at line breaks gives back one line per row, in order |
| RagChat.CompanyContextLines | supabase/functions/rag-chat/index.ts:46-48 | For at least one row, none of whose fields holds a line break, splitting the company context at line breaks gives back one line per row, in order |
| RagChat.Context | supabase/functions/rag-chat/index.ts:50-56 | Each section appears on the lines right after its heading |
| RagChat.BuildCompletionRequest | supabase/functions/rag-chat/index.ts:59-86 | The request names gpt-4o-mini, 500 tokens and temperature 0.7, and has exactly two turns: a system turn whose text holds the whole context, then the user's message unchanged |
| RagChat.ApiErrorText | supabase/functions/rag-chat/index.ts:91 | The error text is never empty, and is the API's own message when it gave a non-empty one |
| RagChat.RequestCarriesContext | supabase/functions/rag-chat/index.ts:59-86 | The request names gpt-4o-mini, 500 tokens and temperature 0.7; its system turn holds each section right after its heading, and its user turn is the message unchanged |
| RagChat.RequestCarriesRows | supabase/functions/rag-chat/index.ts:42-86 | Every row read from either table appears, as its line, in the system turn |
| RagChat.HandleRagChat | supabase/functions/rag-chat/index.ts:14-116 | Pre-flight answered with CORS headers; a bad body fails; a failed read of either table fails with "Failed to fetch context data" and no API call; the API is called iff both reads succeeded; a rejected fetch or a body that is not JSON fails with the thrown message; a non-ok answer fails with "OpenAI API error: " and its message or "Unknown error"; no choices fail; success iff ok with a choice, returning the first verbatim |
| ScrapeOpportunities.OpportunityUrl | supabase/functions/scrape-opportunities/index.ts:35 | (Line 48 is the same.) The url is the bank's url, "/opportunity/", then a number that reads back as the number drawn |
| ScrapeOpportunities.DeadlineInstant | supabase/functions/scrape-opportunities/index.ts:33 | The deadline instant lies within the year after now |
| ScrapeOpportunities.Generate | supabase/functions/scrape-opportunities/index.ts:25-52 | A record carries the template's client and the requested bank; its country, sector, service set and programme come from the template's lists; the budget lies in the template's range; the score lies in 0..99; the project name is the prefix and a number below 1000; the url is the bank url, "/opportunity/" and a number below 10000; the deadline is the date of an instant within the coming year |
| ScrapeOpportunities.ProjectNumberReadsBack | supabase/functions/scrape-opportunities/index.ts:27 | The number after the project-name prefix reads back as a number below 1000 |
| ScrapeOpportunities.EveryChoiceReachable | supabase/functions/scrape-opportunities/index.ts:29-36 | Every listed country, sector, service set and programme is produced by some draws |
| ScrapeOpportunities.HandleScrape | supabase/functions/scrape-opportunities/index.ts:14-85 | Pre-flight answered with CORS headers and no insert; a bad body fails before any insert; otherwise exactly the two template records for the requested bank are inserted, each with its deadline taken from its own `Date.now()` read; an insert error fails with its message; success iff the insert succeeded, with count 2 and the returned rows |
| Random.Scale | supabase/functions/scrape-opportunities/index.ts:27 | `Math.floor(Math.random() * n)` lies in 0..n-1 |
| Random.Pick | supabase/functions/find-companies/index.ts:36 | Picking from a literal list yields an element of the list |
| Random.PickReaches | supabase/functions/find-companies/index.ts:36 | Every element of the list is picked by some draw |
| Text.ContainsIff | src/components/Dashboard.tsx:103-105 | `includes` holds exactly when the word occurs at some position |
| Text.JoinLinesHasLine | supabase/functions/rag-chat/index.ts:42-48 | The text `join('\n')` makes holds each of the lines |
| Text.ConcatHasAdjacent | supabase/functions/rag-chat/index.ts:43 | A template's value holds each two neighbouring pieces run together, such as a label and its field |
| Text.ToLowerIdempotent | src/components/Dashboard.tsx:103 | Lower-casing twice is lower-casing once |
| Text.BlankIff | src/components/ChatInterface.tsx:46 | `!s.trim()` holds exactly when every character is whitespace |
| Text.RemoveFirstLeavesNone | supabase/functions/find-companies/index.ts:37 | Removing the first occurrence of a character leaves none iff there was at most one |
| Text.SplitJoinLines | supabase/functions/rag-chat/index.ts:42-44 | For a non-empty list of lines none of which holds a line break, joining them with line breaks and splitting again gives the lines back |
| Text.Decimal | supabase/functions/scrape-opportunities/index.ts:27 | A number renders as a non-empty run of digits with no leading zero |
| Text.ParseDecimalRoundTrip | supabase/functions/scrape-opportunities/index.ts:27 | Reading back a rendered number gives the number |

## Left out

- Rendering: JSX, styling, icons and layout are not modelled. `StatsCard` is not part of this model.
- The dashboard's mock lists of opportunities and partners, and its tab state, are not modelled. The filter is
  modelled over any list.
- `toLowerCase` maps only the ASCII letters A–Z. Case mapping outside ASCII is not modelled.
- Dates are parameters:
  - `new Date(deadline)` parsing becomes the day difference, with `None` for an unparsable deadline.
  - `toLocaleDateString()` becomes the `localeDate` and `today` texts.
  - `toISOString().split('T')[0]` becomes the `isoDate` function.
  - In scrape-opportunities each record reads `Date.now()` once; the two reads are two parameters of `HandleScrape`.
- OpportunityCard.DiffDays: computed in exact integer arithmetic. The source rounds a floating-point quotient up.
  The two agree for any deadline within about 10^8 days of now.
- Message ids and timestamps (`Date.now()`, `new Date().toISOString()`) are not modelled. Neither is the
  1500 ms timer itself. Because every delay is the same, the pending replies arrive oldest first.
- ChatInterface.KenyaQuestionReply: only the first quick question's reply is stated. Which reply the other three
  quick questions get is not stated as a lemma.
- ChatInterface.GetAIResponse: its own contract names only the Kenya reply. The full keyword priority is stated
  once, by ChatInterface.ReplyPriority about ChatInterface.ChooseReply.
- The reply texts are transcribed character for character, including the mis-encoded bullet and emoji
  sequences in the file.
- Handlers:
  - The database, the chat-completion endpoint and the environment (URL, keys, `Authorization` header) are
    parameters or not modelled.
  - `.limit(10)` is the database's job: the model takes whatever rows come back.
  - Logging is not modelled.
- Request bodies whose fields are missing or of the wrong type are not modelled, except for an empty `services`
  list. Three examples:
  - a missing `sector` throws the same TypeError message as an empty `services` list, from `sector.toLowerCase()`;
  - a missing or null `services` throws a different TypeError, at `services[0]`;
  - a string `services` throws nothing, and its first character stands in for the first service.
- rag-chat:
  - `budget?.toLocaleString()` and the template rendering of `rating` become pre-rendered strings.
  - RagChat.OpportunityContextLines and RagChat.CompanyContextLines promise nothing when a field holds a line
    break: the context then has more lines than rows. With no rows the context is empty, and splitting it gives
    one empty line, not none.
  - A rejected fetch and a body that is not JSON are one failure with the thrown message. The exact text of
    that message is a parameter.
- Draws are exact reals in [0, 1), where the program computes with doubles. With the largest double draw,
  1 - 2^-52, rounding can reach the upper end that the model excludes:
- FindCompanies.Rating: `Math.random() * 2 + 3` can round to exactly 5, so the program's ratings lie in [3, 5];
  the model's bound is strict.
- FindCompanies.RelevanceScore: `Math.random() * 40 + 60` can round to exactly 100, so the program's scores lie
  in [60, 100]; the model's bound is strict. A score of 100 still shows a badge.
- ScrapeOpportunities.DeadlineInstant: `Date.now() + Math.random() * MsPerYear` can round up to now plus a full
  year, so the program's deadline can be exactly a year away; the model's bound is strict.
- ScrapeOpportunities.Generate: its deadline clause inherits the strict bound of
  ScrapeOpportunities.DeadlineInstant.
- CompanyCard.RelevanceSlot: a NaN score, which is also falsy, is not modelled. Scores are `real`.
- Rows returned by an insert are opaque values (`StoredCompany`, `StoredOpportunity`) that the handlers pass
  through.

## Findings

| source | as written | input that shows it | evidently intended | confidence | as-written member | corrected member |
|---|---|---|---|---|---|---|
| src/components/CompanyCard.tsx:63 | `{company.relevance_score && <Badge …/>}` yields the number 0 for a zero score, and React prints a number child, so the header shows a bare "0" | `relevance_score = 0` | nothing in the badge's place when the score is 0 | medium; not executed | CompanyCard.ZeroScoreShowsStrayZero | CompanyCard.IntendedRelevanceSlot |
