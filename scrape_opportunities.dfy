/**
 * The `scrape-opportunities` handler: it generates two mock opportunities for
 * a bank, one from each of two fixed templates, inserts them, and answers
 * with the inserted rows. `Math.random`, the clock, the calendar formatting
 * of `toISOString` and the database insert are parameters.
 */
module ScrapeOpportunities {
  import opened Optional
  import Text
  import Random
  import Http

  /** The JSON body `{ bankId, bankUrl }`. */
  datatype ScrapeRequest = ScrapeRequest(bankId: string, bankUrl: string)

  /** A row of `mockOpportunities`, as sent to the `opportunities` table. */
  datatype NewOpportunity = NewOpportunity(
    projectName: string,
    client: string,
    country: string,
    sector: string,
    services: seq<string>,
    budget: int,
    deadline: string,
    bankId: string,
    url: string,
    program: string,
    score: int
  )

  /** The `Math.random()` draws one record consumes, in source order. */
  datatype OpportunityDraws = OpportunityDraws(
    nameNumber: real,
    country: real,
    sector: real,
    services: real,
    budget: real,
    deadline: real,
    urlNumber: real,
    program: real,
    score: real
  )

  predicate ValidDraws(d: OpportunityDraws)
  {
    && Random.IsDraw(d.nameNumber) && Random.IsDraw(d.country) && Random.IsDraw(d.sector)
    && Random.IsDraw(d.services) && Random.IsDraw(d.budget) && Random.IsDraw(d.deadline)
    && Random.IsDraw(d.urlNumber) && Random.IsDraw(d.program) && Random.IsDraw(d.score)
  }

  /** What distinguishes the two records: their fixed texts, value lists and budget range. */
  datatype Template = Template(
    namePrefix: string,
    client: string,
    countries: seq<string>,
    sectors: seq<string>,
    serviceSets: seq<seq<string>>,
    budgetSpan: nat,
    budgetBase: nat,
    programs: seq<string>
  )

  predicate WellFormed(t: Template)
  {
    |t.countries| > 0 && |t.sectors| > 0 && |t.serviceSets| > 0 && |t.programs| > 0 && t.budgetSpan > 0
  }

  /** The first record: an infrastructure project of a development bank. */
  const InfrastructureTemplate: Template := Template(
    "Infrastructure Development Project ",
    "Development Bank",
    ["Kenya", "Ghana", "Nigeria", "Tanzania"],
    ["Infrastructure", "Health", "Education", "Energy"],
    [["Consulting", "Engineering"], ["Project Management"], ["Technical Assistance"]],
    50000000, 1000000,
    ["IDA", "IBRD", "Trust Fund", "Grant"]
  )

  /** The second record: a rural initiative of a ministry. */
  const RuralTemplate: Template := Template(
    "Rural Development Initiative ",
    "Ministry of Development",
    ["Ethiopia", "Uganda", "Rwanda", "Zambia"],
    ["Agriculture", "Rural Development", "Water", "Transport"],
    [["Technical Assistance"], ["Capacity Building", "Training"], ["Monitoring & Evaluation"]],
    30000000, 500000,
    ["AfDB", "IFC", "Regional Fund"]
  )

  /** `365 * 24 * 60 * 60 * 1000`: a year of milliseconds. */
  const MsPerYear: nat := 365 * 24 * 60 * 60 * 1000

  /**
   * The instant `new Date(Date.now() + Math.random() * MsPerYear)` holds: the
   * `Date` constructor drops the fraction of a millisecond.
   */
  function DeadlineInstant(nowMs: nat, r: real): (instant: int)
    requires Random.IsDraw(r)
    ensures nowMs <= instant < nowMs + MsPerYear
  {
    nowMs + Random.Scale(r, MsPerYear)
  }

  /** The url of a record: the bank's url, `/opportunity/` and a number below 10000. */
  function OpportunityUrl(bankUrl: string, number: nat): (url: string)
    ensures |bankUrl| + 13 < |url| && url[..|bankUrl| + 13] == bankUrl + "/opportunity/"
    ensures Text.ParseDecimal(url[|bankUrl| + 13..]) == number
  {
    Text.ParseDecimalRoundTrip(number);
    var url := bankUrl + "/opportunity/" + Text.Decimal(number);
    assert url[|bankUrl| + 13..] == Text.Decimal(number);
    url
  }

  /**
   * One record of `mockOpportunities`. `isoDate` renders an instant as
   * `toISOString().split('T')[0]` does.
   */
  function Generate(t: Template, req: ScrapeRequest, d: OpportunityDraws, nowMs: nat, isoDate: int -> string): (o: NewOpportunity)
    requires WellFormed(t) && ValidDraws(d)
    ensures o.client == t.client && o.bankId == req.bankId
    ensures o.country in t.countries && o.sector in t.sectors
    ensures o.services in t.serviceSets && o.program in t.programs
    ensures t.budgetBase <= o.budget < t.budgetBase + t.budgetSpan
    ensures 0 <= o.score < 100
    ensures exists k :: 0 <= k < 1000 && o.projectName == t.namePrefix + Text.Decimal(k)
    ensures exists k :: 0 <= k < 10000 && o.url == OpportunityUrl(req.bankUrl, k)
    ensures exists instant :: nowMs <= instant < nowMs + MsPerYear && o.deadline == isoDate(instant)
  {
    var nameNumber := Random.Scale(d.nameNumber, 1000);
    var urlNumber := Random.Scale(d.urlNumber, 10000);
    var instant := DeadlineInstant(nowMs, d.deadline);
    NewOpportunity(
      t.namePrefix + Text.Decimal(nameNumber),
      t.client,
      Random.Pick(t.countries, d.country),
      Random.Pick(t.sectors, d.sector),
      Random.Pick(t.serviceSets, d.services),
      Random.Scale(d.budget, t.budgetSpan) + t.budgetBase,
      isoDate(instant),
      req.bankId,
      OpportunityUrl(req.bankUrl, urlNumber),
      Random.Pick(t.programs, d.program),
      Random.Scale(d.score, 100)
    )
  }

  /** Both records' templates can be generated from. */
  lemma TemplatesWellFormed()
    ensures WellFormed(InfrastructureTemplate) && WellFormed(RuralTemplate)
  {
  }

  /**
   * The number in a project name reads back from the name: what follows the
   * fixed prefix parses to a number below 1000.
   */
  lemma ProjectNumberReadsBack(t: Template, req: ScrapeRequest, d: OpportunityDraws, nowMs: nat, isoDate: int -> string)
    requires WellFormed(t) && ValidDraws(d)
    ensures var name := Generate(t, req, d, nowMs, isoDate).projectName;
            && |t.namePrefix| < |name| && name[..|t.namePrefix|] == t.namePrefix
            && 0 <= Text.ParseDecimal(name[|t.namePrefix|..]) < 1000
  {
    var name := Generate(t, req, d, nowMs, isoDate).projectName;
    var k := Random.Scale(d.nameNumber, 1000);
    assert name == t.namePrefix + Text.Decimal(k);
    assert name[|t.namePrefix|..] == Text.Decimal(k);
    Text.ParseDecimalRoundTrip(k);
  }

  /**
   * Every value a template lists is produced by some draws: no country,
   * sector, service set or programme is out of reach.
   */
  lemma EveryChoiceReachable(t: Template, req: ScrapeRequest, nowMs: nat, isoDate: int -> string,
                             country: nat, sector: nat, services: nat, program: nat)
    requires WellFormed(t)
    requires country < |t.countries| && sector < |t.sectors|
    requires services < |t.serviceSets| && program < |t.programs|
    ensures exists d :: ValidDraws(d)
                        && Generate(t, req, d, nowMs, isoDate).country == t.countries[country]
                        && Generate(t, req, d, nowMs, isoDate).sector == t.sectors[sector]
                        && Generate(t, req, d, nowMs, isoDate).services == t.serviceSets[services]
                        && Generate(t, req, d, nowMs, isoDate).program == t.programs[program]
  {
    Random.PickReaches(t.countries, country);
    Random.PickReaches(t.sectors, sector);
    Random.PickReaches(t.serviceSets, services);
    Random.PickReaches(t.programs, program);
    var d := OpportunityDraws(
      0.0,
      country as real / |t.countries| as real,
      sector as real / |t.sectors| as real,
      services as real / |t.serviceSets| as real,
      0.0, 0.0, 0.0,
      program as real / |t.programs| as real,
      0.0);
    assert ValidDraws(d);
  }

  /** A row the `opportunities` table returns: the inserted record with its generated id. */
  datatype StoredOpportunity = StoredOpportunity(id: string, opportunity: NewOpportunity)

  /** The success body `{ success: true, count, opportunities }`. */
  datatype ScrapeResult = ScrapeResult(count: int, opportunities: Option<seq<StoredOpportunity>>)

  /**
   * `serve`'s callback. `first` and `second` are the draws of the two records,
   * `firstNowMs` and `secondNowMs` the two `Date.now()` reads, one per record,
   * `insert` the database insert; `sent` records the rows inserted, if any.
   */
  method HandleScrape(
    request: Http.Request<ScrapeRequest>,
    first: OpportunityDraws,
    second: OpportunityDraws,
    firstNowMs: nat,
    secondNowMs: nat,
    isoDate: int -> string,
    insert: seq<NewOpportunity> -> Http.DbReply<seq<StoredOpportunity>>
  ) returns (response: Http.Response<ScrapeResult>, sent: Option<seq<NewOpportunity>>)
    requires ValidDraws(first) && ValidDraws(second)
    ensures Http.Uniform(response)
    ensures request.httpMethod == "OPTIONS" ==> response == Http.Preflight() && sent == None
    ensures request.httpMethod != "OPTIONS" && request.body.Failure? ==>
              response == Http.ServerError(request.body.error) && sent == None
    // Any other request inserts exactly the two generated records, one per template, for the requested bank.
    ensures sent.Some? <==> request.httpMethod != "OPTIONS" && request.body.Success?
    ensures sent.Some? ==>
              sent.value == [Generate(InfrastructureTemplate, request.body.value, first, firstNowMs, isoDate),
                             Generate(RuralTemplate, request.body.value, second, secondNowMs, isoDate)]
    ensures sent.Some? ==> forall o :: o in sent.value ==> o.bankId == request.body.value.bankId
    ensures sent.Some? && insert(sent.value).error.Some? ==>
              response == Http.ServerError(insert(sent.value).error.value)
    // Success exactly when the insert succeeded; the count is 2 whatever rows came back.
    ensures response.body.Succeeded? <==> sent.Some? && insert(sent.value).error.None?
    ensures response.body.Succeeded? ==> response == Http.Ok(ScrapeResult(2, insert(sent.value).data))
  {
    sent := None;
    if request.httpMethod == "OPTIONS" {
      return Http.Preflight(), sent;
    }
    if request.body.Failure? {
      return Http.ServerError(request.body.error), sent;
    }
    var req := request.body.value;
    TemplatesWellFormed();
    var records := [Generate(InfrastructureTemplate, req, first, firstNowMs, isoDate),
                    Generate(RuralTemplate, req, second, secondNowMs, isoDate)];
    sent := Some(records);
    var reply := insert(records);
    if reply.error.Some? {
      return Http.ServerError(reply.error.value), sent;
    }
    response := Http.Ok(ScrapeResult(|records|, reply.data));
  }
}
