/**
 * The `find-companies` handler: from an opportunity's sector, services and
 * country it builds three candidate companies by templating, inserts them,
 * inserts one relevance row per inserted company, and answers with the
 * inserted rows. The database calls and `Math.random` are parameters.
 */
module FindCompanies {
  import opened Optional
  import Text
  import Random
  import Http

  /** The JSON body `{ opportunityId, sector, services, country }`. */
  datatype FindRequest = FindRequest(opportunityId: string, sector: string, services: seq<string>, country: string)

  /** A row of `mockCompanies`, as sent to the `companies` table. */
  datatype Candidate = Candidate(
    name: string,
    country: string,
    website: string,
    specialization: string,
    rating: real,
    opportunityId: string
  )

  /** The `Math.random()` draws the candidates consume, in source order. */
  datatype CandidateDraws = CandidateDraws(rating1: real, partnerCountry: real, rating2: real, rating3: real)

  predicate ValidDraws(d: CandidateDraws)
  {
    Random.IsDraw(d.rating1) && Random.IsDraw(d.partnerCountry) && Random.IsDraw(d.rating2) && Random.IsDraw(d.rating3)
  }

  /** The countries the second candidate is drawn from. */
  const PartnerCountries: seq<string> := ["UK", "USA", "Canada", "Germany"]

  /** What `services[0].toLowerCase()` throws when `services` is empty. */
  const MissingServiceError: string := "Cannot read properties of undefined (reading 'toLowerCase')"

  /** `Math.random() * 2 + 3` */
  function Rating(r: real): (rating: real)
    requires Random.IsDraw(r)
    ensures 3.0 <= rating < 5.0
  {
    r * 2.0 + 3.0
  }

  /**
   * `mockCompanies`: three candidates for the requesting opportunity. With no
   * services, `services[0]` is undefined and building the second website throws.
   */
  function BuildCandidates(req: FindRequest, d: CandidateDraws): (r: Result<seq<Candidate>, string>)
    requires ValidDraws(d)
    ensures r.Failure? <==> |req.services| == 0
    ensures r.Failure? ==> r.error == MissingServiceError
    ensures r.Success? ==> |r.value| == 3
    ensures r.Success? ==> forall c :: c in r.value ==> c.opportunityId == req.opportunityId && 3.0 <= c.rating < 5.0
    ensures r.Success? ==> r.value[0].country == req.country && r.value[2].country == req.country
    ensures r.Success? ==> r.value[1].country in PartnerCountries
  {
    if |req.services| == 0 then Failure(MissingServiceError)
    else
      var service := req.services[0];
      Success([
        Candidate(req.sector + " Solutions Ltd", req.country,
                  "https://" + Text.ToLower(req.sector) + "-solutions.com",
                  req.sector, Rating(d.rating1), req.opportunityId),
        Candidate("Global " + service + " Partners", Random.Pick(PartnerCountries, d.partnerCountry),
                  "https://global-" + Text.RemoveFirst(Text.ToLower(service), ' ') + ".com",
                  service, Rating(d.rating2), req.opportunityId),
        Candidate(req.country + " Development Corp", req.country,
                  "https://" + Text.ToLower(req.country) + "-dev.com",
                  "Development Consulting", Rating(d.rating3), req.opportunityId)
      ])
  }

  /** Each candidate's name names the request field it was made from, and its specialisation is that field. */
  lemma CandidatesEmbedRequest(req: FindRequest, d: CandidateDraws)
    requires ValidDraws(d) && |req.services| > 0
    ensures var cs := BuildCandidates(req, d).value;
            && Text.Contains(cs[0].name, req.sector) && cs[0].specialization == req.sector
            && Text.Contains(cs[1].name, req.services[0]) && cs[1].specialization == req.services[0]
            && Text.Contains(cs[2].name, req.country) && cs[2].specialization == "Development Consulting"
            && Text.Contains(cs[0].website, Text.ToLower(req.sector))
            && Text.Contains(cs[2].website, Text.ToLower(req.country))
  {
    var cs := BuildCandidates(req, d).value;
    Text.ContainsInfix("", req.sector, " Solutions Ltd");
    assert cs[0].name == "" + req.sector + " Solutions Ltd";
    Text.ContainsInfix("Global ", req.services[0], " Partners");
    Text.ContainsInfix("", req.country, " Development Corp");
    assert cs[2].name == "" + req.country + " Development Corp";
    Text.ContainsInfix("https://", Text.ToLower(req.sector), "-solutions.com");
    Text.ContainsInfix("https://", Text.ToLower(req.country), "-dev.com");
  }

  /**
   * `.replace(' ', '')` drops only the first space: the second website is
   * free of spaces exactly when the lower-cased first service has at most one.
   */
  lemma SecondWebsiteSpaces(req: FindRequest, d: CandidateDraws)
    requires ValidDraws(d) && |req.services| > 0
    ensures ' ' !in BuildCandidates(req, d).value[1].website
        <==> Text.Occurrences(Text.ToLower(req.services[0]), ' ') <= 1
  {
    var host := Text.RemoveFirst(Text.ToLower(req.services[0]), ' ');
    Text.RemoveFirstLeavesNone(Text.ToLower(req.services[0]), ' ');
    assert ' ' !in "https://global-" && ' ' !in ".com";
    var w := "https://global-" + host + ".com";
    assert ' ' in w <==> ' ' in host;
  }

  /** A row the `companies` table returns: the inserted candidate with its generated id. */
  datatype StoredCompany = StoredCompany(id: string, company: Candidate)

  /** A row of `relevanceData`, as sent to the `opportunity_companies` table. */
  datatype RelevanceRow = RelevanceRow(opportunityId: string, companyId: string, relevanceScore: real)

  /** `Math.random() * 40 + 60` */
  function RelevanceScore(r: real): (score: real)
    requires Random.IsDraw(r)
    ensures 60.0 <= score < 100.0
  {
    r * 40.0 + 60.0
  }

  /**
   * `insertedCompanies?.map(...) || []`: one relevance row per inserted company,
   * in the same order, using the `i`-th relevance draw for the `i`-th company.
   */
  function RelevanceRows(opportunityId: string, inserted: Option<seq<StoredCompany>>, draw: nat -> real): (rows: seq<RelevanceRow>)
    requires forall i :: Random.IsDraw(draw(i))
    ensures inserted.None? ==> rows == []
    ensures inserted.Some? ==> |rows| == |inserted.value|
    ensures inserted.Some? ==> forall i :: 0 <= i < |rows| ==>
              && rows[i].opportunityId == opportunityId
              && rows[i].companyId == inserted.value[i].id
              && 60.0 <= rows[i].relevanceScore < 100.0
  {
    match inserted
    case None => []
    case Some(companies) =>
      var rows := seq(|companies|, i requires 0 <= i < |companies| => RelevanceRow(opportunityId, companies[i].id, RelevanceScore(draw(i))));
      assert forall i :: 0 <= i < |rows| ==> rows[i].relevanceScore == RelevanceScore(draw(i));
      rows
  }

  /** The success body `{ success: true, count, companies }`. */
  datatype FindResult = FindResult(count: int, companies: Option<seq<StoredCompany>>)

  /**
   * The handler. `insertCompanies` and `insertRelevance` stand for the two
   * database inserts, as functions of the rows sent; the out-parameters
   * record which inserts were made and with what.
   */
  method HandleFindCompanies(
    request: Http.Request<FindRequest>,
    draws: CandidateDraws,
    relevanceDraw: nat -> real,
    insertCompanies: seq<Candidate> -> Http.DbReply<seq<StoredCompany>>,
    insertRelevance: seq<RelevanceRow> -> Option<string>
  ) returns (response: Http.Response<FindResult>, companiesSent: Option<seq<Candidate>>, relevanceSent: Option<seq<RelevanceRow>>)
    requires ValidDraws(draws) && forall i :: Random.IsDraw(relevanceDraw(i))
    ensures Http.Uniform(response)
    // Pre-flight: CORS headers, no body, no database call.
    ensures request.httpMethod == "OPTIONS" ==> response == Http.Preflight() && companiesSent == None && relevanceSent == None
    // An unreadable body or an empty service list fails before any insert.
    ensures request.httpMethod != "OPTIONS" && request.body.Failure? ==>
              response == Http.ServerError(request.body.error) && companiesSent == None
    ensures request.httpMethod != "OPTIONS" && request.body.Success? && |request.body.value.services| == 0 ==>
              response == Http.ServerError(MissingServiceError) && companiesSent == None
    // Otherwise exactly the three candidates are inserted.
    ensures request.httpMethod != "OPTIONS" && request.body.Success? && |request.body.value.services| > 0 ==>
              companiesSent == Some(BuildCandidates(request.body.value, draws).value)
    ensures companiesSent.Some? ==> |companiesSent.value| == 3
    // A failed company insert stops the handler: no relevance insert.
    ensures companiesSent.Some? && insertCompanies(companiesSent.value).error.Some? ==>
              response == Http.ServerError(insertCompanies(companiesSent.value).error.value) && relevanceSent == None
    // Otherwise one relevance row per inserted company is inserted.
    ensures companiesSent.Some? && insertCompanies(companiesSent.value).error.None? ==>
              relevanceSent == Some(RelevanceRows(request.body.value.opportunityId, insertCompanies(companiesSent.value).data, relevanceDraw))
    ensures relevanceSent.Some? ==> companiesSent.Some? && insertCompanies(companiesSent.value).error.None?
    ensures relevanceSent.Some? && insertRelevance(relevanceSent.value).Some? ==>
              response == Http.ServerError(insertRelevance(relevanceSent.value).value)
    // Success only when both inserts succeeded; the count is 3 whatever rows came back.
    ensures response.body.Succeeded? <==> relevanceSent.Some? && insertRelevance(relevanceSent.value).None?
    ensures response.body.Succeeded? ==>
              response == Http.Ok(FindResult(3, insertCompanies(companiesSent.value).data))
  {
    companiesSent, relevanceSent := None, None;
    if request.httpMethod == "OPTIONS" {
      return Http.Preflight(), companiesSent, relevanceSent;
    }
    if request.body.Failure? {
      return Http.ServerError(request.body.error), companiesSent, relevanceSent;
    }
    var req := request.body.value;
    var built := BuildCandidates(req, draws);
    if built.Failure? {
      return Http.ServerError(built.error), companiesSent, relevanceSent;
    }
    var candidates := built.value;
    companiesSent := Some(candidates);
    var companyReply := insertCompanies(candidates);
    if companyReply.error.Some? {
      return Http.ServerError(companyReply.error.value), companiesSent, relevanceSent;
    }
    var relevanceData := RelevanceRows(req.opportunityId, companyReply.data, relevanceDraw);
    relevanceSent := Some(relevanceData);
    var relevanceError := insertRelevance(relevanceData);
    if relevanceError.Some? {
      return Http.ServerError(relevanceError.value), companiesSent, relevanceSent;
    }
    response := Http.Ok(FindResult(|candidates|, companyReply.data));
  }
}
