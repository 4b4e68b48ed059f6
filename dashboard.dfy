/**
 * The dashboard's opportunity search: an opportunity stays on screen when its
 * project name, country or sector includes the search term, both sides
 * lower-cased first.
 */
module Dashboard {
  import Text

  /** An opportunity as the dashboard lists it. */
  datatype Opportunity = Opportunity(
    id: string,
    projectName: string,
    client: string,
    country: string,
    sector: string,
    services: string,
    deadline: string,
    budget: string,
    url: string,
    score: int,
    program: string
  )

  /** The filter's test for one opportunity. */
  predicate Matches(opp: Opportunity, searchTerm: string)
    ensures searchTerm == "" ==> Matches(opp, searchTerm)
  {
    var term := Text.ToLower(searchTerm);
    assert Text.ToLower("") == "";
    Text.ContainsEmpty(Text.ToLower(opp.projectName));
    Text.Contains(Text.ToLower(opp.projectName), term)
    || Text.Contains(Text.ToLower(opp.country), term)
    || Text.Contains(Text.ToLower(opp.sector), term)
  }

  /** `xs` is `ys` with some elements left out, the rest in their original order. */
  ghost predicate IsSubsequence<T>(xs: seq<T>, ys: seq<T>)
    decreases |ys|
  {
    if |xs| == 0 then true
    else if |ys| == 0 then false
    else (xs[0] == ys[0] && IsSubsequence(xs[1..], ys[1..])) || IsSubsequence(xs, ys[1..])
  }

  lemma {:induction false} SubsequenceLength<T>(xs: seq<T>, ys: seq<T>)
    requires IsSubsequence(xs, ys)
    ensures |xs| <= |ys|
    decreases |ys|
  {
    if |xs| > 0 {
      if xs[0] == ys[0] && IsSubsequence(xs[1..], ys[1..]) {
        SubsequenceLength(xs[1..], ys[1..]);
      } else {
        SubsequenceLength(xs, ys[1..]);
      }
    }
  }

  /** `filteredOpportunities`: the matching opportunities, in their original order. */
  function FilterOpportunities(opps: seq<Opportunity>, searchTerm: string): (kept: seq<Opportunity>)
    ensures IsSubsequence(kept, opps)
    ensures forall o :: o in kept ==> o in opps && Matches(o, searchTerm)
    decreases |opps|
  {
    if |opps| == 0 then []
    else
      var rest := FilterOpportunities(opps[1..], searchTerm);
      if Matches(opps[0], searchTerm) then [opps[0]] + rest else rest
  }

  /** The filter never lengthens the list. */
  lemma FilterShrinks(opps: seq<Opportunity>, searchTerm: string)
    ensures |FilterOpportunities(opps, searchTerm)| <= |opps|
  {
    SubsequenceLength(FilterOpportunities(opps, searchTerm), opps);
  }

  /** Completeness: every matching opportunity is kept. */
  lemma {:induction false} FilterComplete(opps: seq<Opportunity>, searchTerm: string)
    ensures forall o :: o in opps && Matches(o, searchTerm) ==> o in FilterOpportunities(opps, searchTerm)
    decreases |opps|
  {
    if |opps| > 0 {
      FilterComplete(opps[1..], searchTerm);
      forall o | o in opps && Matches(o, searchTerm)
        ensures o in FilterOpportunities(opps, searchTerm)
      {
        if o != opps[0] {
          assert o in opps[1..];
        }
      }
    }
  }

  /**
   * Each opportunity is kept as many times as it occurs, if it matches, and
   * not at all otherwise; with `IsSubsequence` this pins the result down.
   */
  lemma {:induction false} FilterCounts(opps: seq<Opportunity>, searchTerm: string)
    ensures forall o :: multiset(FilterOpportunities(opps, searchTerm))[o]
                          == if Matches(o, searchTerm) then multiset(opps)[o] else 0
    decreases |opps|
  {
    if |opps| > 0 {
      FilterCounts(opps[1..], searchTerm);
      assert opps == [opps[0]] + opps[1..];
      assert multiset(opps) == multiset([opps[0]]) + multiset(opps[1..]);
    }
  }

  /** An empty search term keeps every opportunity, since every string includes "". */
  lemma {:induction false} FilterEmptyTermKeepsAll(opps: seq<Opportunity>)
    ensures FilterOpportunities(opps, "") == opps
    decreases |opps|
  {
    if |opps| > 0 {
      assert Matches(opps[0], "");
      FilterEmptyTermKeepsAll(opps[1..]);
      assert [opps[0]] + opps[1..] == opps;
    }
  }

  /** Filtering the filtered list with the same term changes nothing. */
  lemma {:induction false} FilterIdempotent(opps: seq<Opportunity>, searchTerm: string)
    ensures FilterOpportunities(FilterOpportunities(opps, searchTerm), searchTerm)
         == FilterOpportunities(opps, searchTerm)
    decreases |opps|
  {
    if |opps| > 0 {
      FilterIdempotent(opps[1..], searchTerm);
      var rest := FilterOpportunities(opps[1..], searchTerm);
      if Matches(opps[0], searchTerm) {
        assert ([opps[0]] + rest)[1..] == rest;
      }
    }
  }

  /** The three fields the filter reads. */
  function SearchKey(o: Opportunity): (string, string, string)
  {
    (o.projectName, o.country, o.sector)
  }

  function SearchKeys(opps: seq<Opportunity>): seq<(string, string, string)>
  {
    seq(|opps|, i requires 0 <= i < |opps| => SearchKey(opps[i]))
  }

  lemma SearchKeysCons(o: Opportunity, rest: seq<Opportunity>)
    ensures SearchKeys([o] + rest) == [SearchKey(o)] + SearchKeys(rest)
  {
    assert |SearchKeys([o] + rest)| == |[SearchKey(o)] + SearchKeys(rest)|;
  }

  lemma SearchKeysTail(opps: seq<Opportunity>)
    requires |opps| > 0
    ensures SearchKeys(opps[1..]) == SearchKeys(opps)[1..]
  {
  }

  /**
   * Client, services, program, budget, url, deadline, score and id are never
   * consulted: two lists that agree on the searched fields keep the same
   * positions, so their filtered lists agree on those fields too.
   */
  lemma {:induction false} FilterIgnoresOtherFields(a: seq<Opportunity>, b: seq<Opportunity>, searchTerm: string)
    requires SearchKeys(a) == SearchKeys(b)
    ensures SearchKeys(FilterOpportunities(a, searchTerm)) == SearchKeys(FilterOpportunities(b, searchTerm))
    decreases |a|
  {
    assert |a| == |SearchKeys(a)| == |SearchKeys(b)| == |b|;
    if |a| > 0 {
      assert SearchKey(a[0]) == SearchKeys(a)[0] == SearchKeys(b)[0] == SearchKey(b[0]);
      assert Matches(a[0], searchTerm) == Matches(b[0], searchTerm);
      SearchKeysTail(a);
      SearchKeysTail(b);
      FilterIgnoresOtherFields(a[1..], b[1..], searchTerm);
      SearchKeysCons(a[0], FilterOpportunities(a[1..], searchTerm));
      SearchKeysCons(b[0], FilterOpportunities(b[1..], searchTerm));
    }
  }

  /** The search is case-insensitive: the term and its lower-cased form select the same opportunities. */
  lemma FilterIgnoresTermCase(opps: seq<Opportunity>, searchTerm: string)
    ensures FilterOpportunities(opps, Text.ToLower(searchTerm)) == FilterOpportunities(opps, searchTerm)
  {
    Text.ToLowerIdempotent(searchTerm);
  }
}
