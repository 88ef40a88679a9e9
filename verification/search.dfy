/** The organization search engine of server/routes/search.ts: a catalog of
    organization records is filtered by hard predicates, every kept record is
    scored against the query, and the results are ranked by a sort key. */
module Search {
  import opened Text
  import Ranking

  datatype Organization = Organization(
    id: string,
    name: string,
    orgType: string,
    mission: string,
    description: string,
    focusAreas: seq<string>,
    region: string,
    headquarters: string,
    fundingType: string,
    verificationStatus: string,
    confidence: int)

  /** Query parameters once missing ones have become "" (no constraint). */
  datatype SearchParams = SearchParams(
    query: string,
    focusArea: string,
    region: string,
    fundingType: string,
    verificationStatus: string,
    sortBy: string)

  /** The query string as it arrives: every parameter may be missing. */
  datatype RawQuery = RawQuery(
    query: Option<string>,
    focusArea: Option<string>,
    region: Option<string>,
    fundingType: Option<string>,
    verificationStatus: Option<string>,
    sortBy: Option<string>)

  datatype SearchResult = SearchResult(org: Organization, alignmentScore: int)

  datatype SearchResponse = SearchResponse(organizations: seq<SearchResult>, total: int)

  /** The remote organization table: unreachable (no client configured, the
      request threw, or it reported an error) or the rows it returned. */
  datatype RemoteFetch = Unavailable | Fetched(rows: seq<Organization>)

  datatype Lookup = Found(result: SearchResult) | NotFound

  const BaseScore := 50
  const FocusAreaBonus := 20
  const RegionBonus := 15
  const FundingTypeBonus := 10
  const VerifiedBonus := 5

  /** The parameters the handler reads: `x || ""`, and `sortBy || "alignment"`. */
  function OrEmpty(x: Option<string>): (r: string)
    ensures x.Some? ==> r == x.value
    ensures x.None? ==> r == ""
  {
    if x.Some? then x.value else ""
  }

  function ParamsOf(q: RawQuery): (p: SearchParams)
    ensures p.sortBy != ""
    ensures (q.sortBy.None? || q.sortBy.value == "") ==> p.sortBy == "alignment"
    ensures q.sortBy.Some? && q.sortBy.value != "" ==> p.sortBy == q.sortBy.value
    ensures p.query == OrEmpty(q.query) && p.focusArea == OrEmpty(q.focusArea)
    ensures p.region == OrEmpty(q.region) && p.fundingType == OrEmpty(q.fundingType)
    ensures p.verificationStatus == OrEmpty(q.verificationStatus)
  {
    SearchParams(
      OrEmpty(q.query), OrEmpty(q.focusArea), OrEmpty(q.region),
      OrEmpty(q.fundingType), OrEmpty(q.verificationStatus),
      if OrEmpty(q.sortBy) == "" then "alignment" else OrEmpty(q.sortBy))
  }

  /** The `{}` parameter set of the single-record endpoint. */
  const EmptyParams := SearchParams("", "", "", "", "", "")

  /** No filtering parameter is set (the sort key is irrelevant here). */
  predicate Unconstrained(p: SearchParams) {
    p.query == "" && p.focusArea == "" && p.region == ""
    && p.fundingType == "" && p.verificationStatus == ""
  }

  // ---------------------------------------------------------------------
  // Match predicates

  /** Some focus-area label equals `area`, ignoring case. */
  predicate HasFocusArea(o: Organization, area: string) {
    exists i :: 0 <= i < |o.focusAreas| && Lower(o.focusAreas[i]) == Lower(area)
  }

  /** The region contains `region`, ignoring case. */
  predicate RegionMatches(o: Organization, region: string) {
    Contains(Lower(o.region), Lower(region))
  }

  /** The query occurs, ignoring case, in the name, the mission, the
      description or some focus-area label. */
  predicate QueryMatches(o: Organization, query: string) {
    var q := Lower(query);
    Contains(Lower(o.name), q) || Contains(Lower(o.mission), q)
    || Contains(Lower(o.description), q)
    || exists i :: 0 <= i < |o.focusAreas| && Contains(Lower(o.focusAreas[i]), q)
  }

  /** The organization passes every non-empty filter parameter. */
  predicate Matches(o: Organization, p: SearchParams) {
    && (p.query == "" || QueryMatches(o, p.query))
    && (p.focusArea == "" || HasFocusArea(o, p.focusArea))
    && (p.region == "" || RegionMatches(o, p.region))
    && (p.fundingType == "" || o.fundingType == p.fundingType)
    && (p.verificationStatus == "" || o.verificationStatus == p.verificationStatus)
  }

  // ---------------------------------------------------------------------
  // Scoring

  /** The score before the confidence factor: base 50 plus the bonuses. */
  function RawScore(o: Organization, p: SearchParams): (s: int)
    ensures BaseScore <= s <= 100
  {
    BaseScore
    + (if p.focusArea != "" && HasFocusArea(o, p.focusArea) then FocusAreaBonus else 0)
    + (if p.region != "" && RegionMatches(o, p.region) then RegionBonus else 0)
    + (if p.fundingType != "" && o.fundingType == p.fundingType then FundingTypeBonus else 0)
    + (if o.verificationStatus == "verified" then VerifiedBonus else 0)
  }

  /** `Math.round(raw * (confidence / 100))` on integers: the nearest
      integer, halves rounded up. */
  function ScaledRound(raw: int, confidence: int): (r: int)
    ensures 100 * r - 50 <= raw * confidence < 100 * r + 50
  {
    (raw * confidence + 50) / 100
  }

  function Clamp(x: int): (r: int)
    ensures 0 <= r <= 100
    ensures 0 <= x <= 100 ==> r == x
  {
    if x < 0 then 0 else if x > 100 then 100 else x
  }

  /** calculateAlignmentScore: always in [0, 100]; for a confidence in
      [0, 100] the clamp never applies. */
  function AlignmentScore(o: Organization, p: SearchParams): (r: int)
    ensures 0 <= r <= 100
    ensures 0 <= o.confidence <= 100 ==> r == ScaledRound(RawScore(o, p), o.confidence)
  {
    ScaledInRange(RawScore(o, p), o.confidence);
    Clamp(ScaledRound(RawScore(o, p), o.confidence))
  }

  lemma ScaledInRange(raw: int, confidence: int)
    requires 0 <= raw <= 100
    ensures 0 <= confidence <= 100 ==> 0 <= ScaledRound(raw, confidence) <= 100
  {
    if 0 <= confidence <= 100 {
      assert raw * confidence <= 100 * confidence <= 10000;
    }
  }

  lemma ScaledRoundMonotone(raw1: int, raw2: int, c1: int, c2: int)
    requires 0 <= raw1 <= raw2 && 0 <= c1 <= c2
    ensures ScaledRound(raw1, c1) <= ScaledRound(raw2, c2)
  {
    assert raw1 * c1 <= raw2 * c1 <= raw2 * c2;
  }

  /** The baseline the single-record endpoint shows: 50, plus 5 when
      verified, scaled by the confidence. */
  lemma BaselineScore(o: Organization, p: SearchParams)
    requires p.focusArea == "" && p.region == "" && p.fundingType == ""
    ensures AlignmentScore(o, p)
         == Clamp(ScaledRound(50 + (if o.verificationStatus == "verified" then 5 else 0), o.confidence))
  {
  }

  /** Bonuses only add: a query never scores below the baseline. */
  lemma ScoreAtLeastBaseline(o: Organization, p: SearchParams)
    requires o.confidence >= 0
    ensures AlignmentScore(o, p) >= AlignmentScore(o, EmptyParams)
  {
    ScaledRoundMonotone(RawScore(o, EmptyParams), RawScore(o, p), o.confidence, o.confidence);
  }

  /** A higher confidence never lowers the score. */
  lemma ScoreMonotoneInConfidence(o: Organization, p: SearchParams, c: int)
    requires 0 <= o.confidence <= c
    ensures AlignmentScore(o, p) <= AlignmentScore(o.(confidence := c), p)
  {
    ScaledRoundMonotone(RawScore(o, p), RawScore(o.(confidence := c), p), o.confidence, c);
  }

  /** The +20 is earned exactly by a case-insensitive exact label match. */
  lemma FocusAreaBonusIff(o: Organization, p: SearchParams)
    ensures RawScore(o, p) - RawScore(o, p.(focusArea := "")) == FocusAreaBonus
        <==> p.focusArea != "" && HasFocusArea(o, p.focusArea)
    ensures RawScore(o, p) - RawScore(o, p.(focusArea := "")) in {0, FocusAreaBonus}
  {
  }

  /** The +15 is earned exactly by a case-insensitive substring match. */
  lemma RegionBonusIff(o: Organization, p: SearchParams)
    ensures RawScore(o, p) - RawScore(o, p.(region := "")) == RegionBonus
        <==> p.region != "" && RegionMatches(o, p.region)
    ensures RawScore(o, p) - RawScore(o, p.(region := "")) in {0, RegionBonus}
  {
  }

  /** The +10 is earned exactly by case-sensitive equality. */
  lemma FundingTypeBonusIff(o: Organization, p: SearchParams)
    ensures RawScore(o, p) - RawScore(o, p.(fundingType := "")) == FundingTypeBonus
        <==> p.fundingType != "" && o.fundingType == p.fundingType
    ensures RawScore(o, p) - RawScore(o, p.(fundingType := "")) in {0, FundingTypeBonus}
  {
  }

  /** Funding types differing only in case earn no bonus. */
  lemma FundingTypeIsCaseSensitive(o: Organization, p: SearchParams)
    requires o.fundingType == "grant" && p.fundingType == "Grant"
    ensures RawScore(o, p) == RawScore(o, p.(fundingType := ""))
  {
  }

  /** Every bonus earned and full confidence give 100; half confidence 50. */
  lemma FullMatchExample(o: Organization, p: SearchParams)
    requires o.focusAreas == ["Education"] && o.region == "Northern India"
    requires o.fundingType == "grant" && o.verificationStatus == "verified"
    requires p.focusArea == "Education" && p.region == "Northern" && p.fundingType == "grant"
    ensures o.confidence == 100 ==> AlignmentScore(o, p) == 100
    ensures o.confidence == 50 ==> AlignmentScore(o, p) == 50
  {
    assert Lower(o.focusAreas[0]) == Lower(p.focusArea);
    assert Lower(o.region) == Lower(p.region) + Lower(" India");
    assert Lower(p.region) <= Lower(o.region);
  }

  // ---------------------------------------------------------------------
  // Filtering

  /** filterOrganizations: an order-preserving subsequence of the catalog
      holding exactly the matching records, each as often as in the catalog. */
  function FilterOrganizations(orgs: seq<Organization>, p: SearchParams): (r: seq<Organization>)
    ensures IsSubsequence(r, orgs)
    ensures forall o :: o in r ==> Matches(o, p)
    ensures forall o :: multiset(r)[o] == if Matches(o, p) then multiset(orgs)[o] else 0
  {
    if orgs == [] then []
    else
      assert orgs == [orgs[0]] + orgs[1..];
      var rest := FilterOrganizations(orgs[1..], p);
      if Matches(orgs[0], p) then [orgs[0]] + rest else rest
  }

  /** With no filtering parameter the whole catalog comes back unchanged. */
  lemma {:induction false} FilterUnconstrained(orgs: seq<Organization>, p: SearchParams)
    requires Unconstrained(p)
    ensures FilterOrganizations(orgs, p) == orgs
  {
    if orgs != [] {
      FilterUnconstrained(orgs[1..], p);
    }
  }

  /** `p2` keeps every constraint of `p1` (and may add more). */
  predicate Narrows(p2: SearchParams, p1: SearchParams) {
    && (p1.query == "" || p2.query == p1.query)
    && (p1.focusArea == "" || p2.focusArea == p1.focusArea)
    && (p1.region == "" || p2.region == p1.region)
    && (p1.fundingType == "" || p2.fundingType == p1.fundingType)
    && (p1.verificationStatus == "" || p2.verificationStatus == p1.verificationStatus)
  }

  /** Adding constraints never enlarges the filtered list. */
  lemma {:induction false} FilterMonotone(orgs: seq<Organization>, p1: SearchParams, p2: SearchParams)
    requires Narrows(p2, p1)
    ensures IsSubsequence(FilterOrganizations(orgs, p2), FilterOrganizations(orgs, p1))
    ensures |FilterOrganizations(orgs, p2)| <= |FilterOrganizations(orgs, p1)|
  {
    if orgs != [] {
      FilterMonotone(orgs[1..], p1, p2);
    }
    SubsequenceShorter(FilterOrganizations(orgs, p2), FilterOrganizations(orgs, p1));
  }

  // ---------------------------------------------------------------------
  // Catalog, scoring of the kept records, ranking

  /** The static list, then the remote rows when the fetch succeeded. */
  function Catalog(staticOrgs: seq<Organization>, remote: RemoteFetch): (r: seq<Organization>)
    ensures |r| == |staticOrgs| + (if remote.Fetched? then |remote.rows| else 0)
    ensures r[..|staticOrgs|] == staticOrgs
    ensures remote.Fetched? ==> r[|staticOrgs|..] == remote.rows
  {
    if remote.Fetched? then staticOrgs + remote.rows else staticOrgs
  }

  /** No deduplication: a record in both lists appears twice. */
  lemma CatalogCounts(staticOrgs: seq<Organization>, remote: RemoteFetch, o: Organization)
    ensures multiset(Catalog(staticOrgs, remote))[o]
         == multiset(staticOrgs)[o] + (if remote.Fetched? then multiset(remote.rows)[o] else 0)
  {
  }

  function ScoreAll(orgs: seq<Organization>, p: SearchParams): (r: seq<SearchResult>)
    ensures |r| == |orgs|
    ensures forall i :: 0 <= i < |orgs| ==> r[i] == SearchResult(orgs[i], AlignmentScore(orgs[i], p))
  {
    seq(|orgs|, i requires 0 <= i < |orgs| => SearchResult(orgs[i], AlignmentScore(orgs[i], p)))
  }

  /** The comparators handed to Array.sort, read as "may stay ahead". */
  predicate ByAlignment(a: SearchResult, b: SearchResult) {
    a.alignmentScore >= b.alignmentScore
  }

  predicate ByConfidence(a: SearchResult, b: SearchResult) {
    a.org.confidence >= b.org.confidence
  }

  /** `localeCompare` is left abstract: `nameLe(x, y)` means x sorts no later than y. */
  function ByName(nameLe: (string, string) -> bool): (SearchResult, SearchResult) -> bool {
    (a: SearchResult, b: SearchResult) => nameLe(a.org.name, b.org.name)
  }

  /** The comparator in force for a sort key; None keeps the order. */
  function OrderFor(sortBy: string, nameLe: (string, string) -> bool): Option<(SearchResult, SearchResult) -> bool> {
    if sortBy == "alignment" then Some(ByAlignment)
    else if sortBy == "confidence" then Some(ByConfidence)
    else if sortBy == "name" then Some(ByName(nameLe))
    else None
  }

  lemma ScoreOrdersArePreorders()
    ensures Ranking.TotalPreorder(ByAlignment)
    ensures Ranking.TotalPreorder(ByConfidence)
  {
  }

  lemma NameOrderIsPreorder(nameLe: (string, string) -> bool)
    requires Ranking.TotalPreorder(nameLe)
    ensures Ranking.TotalPreorder(ByName(nameLe))
  {
    var le := ByName(nameLe);
    forall a, b, c | le(a, b) && le(b, c) ensures le(a, c) {
      assert nameLe(a.org.name, b.org.name) && nameLe(b.org.name, c.org.name);
    }
    forall a, b ensures le(a, b) || le(b, a) {
      assert nameLe(a.org.name, b.org.name) || nameLe(b.org.name, a.org.name);
    }
  }

  /** The sort switch of handleSearch: a stable sort under the key's
      comparator, or the order unchanged for "recency" and unknown keys. */
  function Rank(scored: seq<SearchResult>, sortBy: string, nameLe: (string, string) -> bool): (r: seq<SearchResult>)
    ensures multiset(r) == multiset(scored)
    ensures OrderFor(sortBy, nameLe).None? ==> r == scored
  {
    var order := OrderFor(sortBy, nameLe);
    if order.Some? then Ranking.SortBy(scored, order.value) else scored
  }

  /** Ranking by alignment or confidence gives non-increasing values; by
      name, an order consistent with the name comparator. */
  lemma RankOrdered(scored: seq<SearchResult>, sortBy: string, nameLe: (string, string) -> bool)
    ensures sortBy == "alignment" ==>
              var r := Rank(scored, sortBy, nameLe);
              forall i, j :: 0 <= i < j < |r| ==> r[i].alignmentScore >= r[j].alignmentScore
    ensures sortBy == "confidence" ==>
              var r := Rank(scored, sortBy, nameLe);
              forall i, j :: 0 <= i < j < |r| ==> r[i].org.confidence >= r[j].org.confidence
    ensures sortBy == "name" && Ranking.TotalPreorder(nameLe) ==>
              Ranking.SortedBy(Rank(scored, sortBy, nameLe), ByName(nameLe))
  {
    var r := Rank(scored, sortBy, nameLe);
    if sortBy == "alignment" {
      ScoreOrdersArePreorders();
      Ranking.SortBySorted(scored, ByAlignment);
      forall i, j | 0 <= i < j < |r| ensures r[i].alignmentScore >= r[j].alignmentScore {
        assert ByAlignment(r[i], r[j]);
      }
    } else if sortBy == "confidence" {
      ScoreOrdersArePreorders();
      Ranking.SortBySorted(scored, ByConfidence);
      forall i, j | 0 <= i < j < |r| ensures r[i].org.confidence >= r[j].org.confidence {
        assert ByConfidence(r[i], r[j]);
      }
    } else if sortBy == "name" && Ranking.TotalPreorder(nameLe) {
      NameOrderIsPreorder(nameLe);
      Ranking.SortBySorted(scored, ByName(nameLe));
    }
  }

  /** Ranking is stable: records that tie under the key keep their order. */
  lemma RankStable(scored: seq<SearchResult>, sortBy: string, nameLe: (string, string) -> bool, y: SearchResult)
    requires OrderFor(sortBy, nameLe).Some?
    requires sortBy == "name" ==> Ranking.TotalPreorder(nameLe)
    ensures var le := OrderFor(sortBy, nameLe).value;
            Ranking.TiesWith(Rank(scored, sortBy, nameLe), le, y) == Ranking.TiesWith(scored, le, y)
  {
    var le := OrderFor(sortBy, nameLe).value;
    ScoreOrdersArePreorders();
    if sortBy == "name" {
      NameOrderIsPreorder(nameLe);
    }
    Ranking.SortByStable(scored, le, y);
  }

  /** Every scored result is a catalog record that passed the filter and
      carries its own alignment score. */
  lemma ScoredResultsSound(orgs: seq<Organization>, p: SearchParams, r: SearchResult)
    requires r in ScoreAll(FilterOrganizations(orgs, p), p)
    ensures r.org in orgs && Matches(r.org, p) && r.alignmentScore == AlignmentScore(r.org, p)
  {
    var results := FilterOrganizations(orgs, p);
    var i :| 0 <= i < |results| && ScoreAll(results, p)[i] == r;
    assert results[i] in results;
    assert results[i] in multiset(orgs);
  }

  /** handleSearch: catalog, filter, score, then rank by the sort key. */
  method HandleSearch(q: RawQuery, staticOrgs: seq<Organization>, remote: RemoteFetch,
                      nameLe: (string, string) -> bool)
    returns (resp: SearchResponse)
    ensures resp.total == |resp.organizations|
    ensures var p := ParamsOf(q);
            multiset(resp.organizations)
            == multiset(ScoreAll(FilterOrganizations(Catalog(staticOrgs, remote), p), p))
    ensures forall r :: r in resp.organizations ==>
              && r.org in Catalog(staticOrgs, remote)
              && Matches(r.org, ParamsOf(q))
              && r.alignmentScore == AlignmentScore(r.org, ParamsOf(q))
    ensures ParamsOf(q).sortBy == "alignment" ==>
              forall i, j :: 0 <= i < j < |resp.organizations| ==>
                resp.organizations[i].alignmentScore >= resp.organizations[j].alignmentScore
    ensures ParamsOf(q).sortBy == "confidence" ==>
              forall i, j :: 0 <= i < j < |resp.organizations| ==>
                resp.organizations[i].org.confidence >= resp.organizations[j].org.confidence
    ensures ParamsOf(q).sortBy == "name" && Ranking.TotalPreorder(nameLe) ==>
              Ranking.SortedBy(resp.organizations, ByName(nameLe))
    ensures OrderFor(ParamsOf(q).sortBy, nameLe).Some?
            && (ParamsOf(q).sortBy == "name" ==> Ranking.TotalPreorder(nameLe)) ==>
              var le := OrderFor(ParamsOf(q).sortBy, nameLe).value;
              var scored := ScoreAll(FilterOrganizations(Catalog(staticOrgs, remote), ParamsOf(q)), ParamsOf(q));
              forall y :: Ranking.TiesWith(resp.organizations, le, y) == Ranking.TiesWith(scored, le, y)
    ensures OrderFor(ParamsOf(q).sortBy, nameLe).None? ==>
              resp.organizations == ScoreAll(FilterOrganizations(Catalog(staticOrgs, remote), ParamsOf(q)), ParamsOf(q))
  {
    var params := ParamsOf(q);

    var allOrganizations := staticOrgs;
    if remote.Fetched? {
      allOrganizations := staticOrgs + remote.rows;
    }
    assert allOrganizations == Catalog(staticOrgs, remote);

    var results := FilterOrganizations(allOrganizations, params);
    var scored := ScoreAll(results, params);
    var searchResults := Rank(scored, params.sortBy, nameLe);

    RankOrdered(scored, params.sortBy, nameLe);
    if OrderFor(params.sortBy, nameLe).Some? && (params.sortBy == "name" ==> Ranking.TotalPreorder(nameLe)) {
      forall y ensures Ranking.TiesWith(searchResults, OrderFor(params.sortBy, nameLe).value, y)
                    == Ranking.TiesWith(scored, OrderFor(params.sortBy, nameLe).value, y) {
        RankStable(scored, params.sortBy, nameLe, y);
      }
    }
    forall r | r in searchResults
      ensures r.org in allOrganizations && Matches(r.org, params) && r.alignmentScore == AlignmentScore(r.org, params)
    {
      assert r in multiset(scored);
      ScoredResultsSound(allOrganizations, params, r);
    }

    resp := SearchResponse(searchResults, |searchResults|);
  }

  // ---------------------------------------------------------------------
  // Single-record endpoint

  /** `find`: the first record carrying `id`. */
  function FindById(orgs: seq<Organization>, id: string): (r: Option<Organization>)
    ensures r.Some? ==> r.value in orgs && r.value.id == id
    ensures r.None? <==> forall o :: o in orgs ==> o.id != id
    ensures r.Some? ==> exists k :: 0 <= k < |orgs| && orgs[k] == r.value && forall j :: 0 <= j < k ==> orgs[j].id != id
  {
    if orgs == [] then None
    else if orgs[0].id == id then Some(orgs[0])
    else
      var r := FindById(orgs[1..], id);
      if r.None? then r
      else
        var k :| 0 <= k < |orgs[1..]| && orgs[1..][k] == r.value && forall j :: 0 <= j < k ==> orgs[1..][j].id != id;
        assert orgs[k + 1] == r.value && forall j :: 0 <= j < k + 1 ==> orgs[j].id != id;
        r
  }

  function RowsWithId(rows: seq<Organization>, id: string): (r: seq<Organization>)
    ensures forall o :: o in r <==> o in rows && o.id == id
  {
    if rows == [] then []
    else (if rows[0].id == id then [rows[0]] else []) + RowsWithId(rows[1..], id)
  }

  /** `.eq("id", id).single()`: a row only when exactly one row carries `id`. */
  function RemoteSingle(remote: RemoteFetch, id: string): (r: Option<Organization>)
    ensures r.Some? ==> remote.Fetched? && r.value in remote.rows && r.value.id == id
    ensures remote.Fetched? && |RowsWithId(remote.rows, id)| == 1 ==> r == Some(RowsWithId(remote.rows, id)[0])
    ensures remote.Fetched? && |RowsWithId(remote.rows, id)| != 1 ==> r.None?
  {
    if remote.Fetched? && |RowsWithId(remote.rows, id)| == 1 then
      assert RowsWithId(remote.rows, id)[0] in RowsWithId(remote.rows, id);
      Some(RowsWithId(remote.rows, id)[0])
    else None
  }

  /** handleGetOrganization: the static list first, then the remote table;
      the record comes back with its baseline score. */
  function GetOrganization(id: string, staticOrgs: seq<Organization>, remote: RemoteFetch): (r: Lookup)
    ensures r.Found? ==> r.result.org.id == id
    ensures r.Found? ==> r.result.alignmentScore == AlignmentScore(r.result.org, EmptyParams)
    ensures r.Found? ==> r.result.org in staticOrgs || (remote.Fetched? && r.result.org in remote.rows)
    ensures (exists o :: o in staticOrgs && o.id == id) ==> r.Found? && r.result.org in staticOrgs
    ensures (exists o :: o in staticOrgs && o.id == id) ==>
              exists k :: 0 <= k < |staticOrgs| && staticOrgs[k] == r.result.org
                          && forall j :: 0 <= j < k ==> staticOrgs[j].id != id
  {
    var org := if FindById(staticOrgs, id).Some? then FindById(staticOrgs, id) else RemoteSingle(remote, id);
    if org.Some? then Found(SearchResult(org.value, AlignmentScore(org.value, EmptyParams)))
    else NotFound
  }

  /** Ids are unique in the remote table (its primary key). */
  predicate UniqueIds(rows: seq<Organization>) {
    forall i, j :: 0 <= i < j < |rows| ==> rows[i].id != rows[j].id
  }

  lemma {:induction false} NoRowsWithId(rows: seq<Organization>, id: string)
    requires forall o :: o in rows ==> o.id != id
    ensures RowsWithId(rows, id) == []
  {
    if rows != [] {
      NoRowsWithId(rows[1..], id);
    }
  }

  lemma {:induction false} UniqueRowsWithId(rows: seq<Organization>, id: string)
    requires UniqueIds(rows)
    ensures |RowsWithId(rows, id)| <= 1
  {
    if rows != [] {
      UniqueRowsWithId(rows[1..], id);
      if rows[0].id == id {
        forall o | o in rows[1..] ensures o.id != id {
          var k :| 0 <= k < |rows[1..]| && rows[1..][k] == o;
          assert rows[k + 1] == o;
        }
        NoRowsWithId(rows[1..], id);
      }
    }
  }

  /** Not found exactly when the id is in neither the static list nor an
      available remote table. */
  lemma NotFoundIff(id: string, staticOrgs: seq<Organization>, remote: RemoteFetch)
    requires remote.Fetched? ==> UniqueIds(remote.rows)
    ensures GetOrganization(id, staticOrgs, remote).NotFound?
        <==> (forall o :: o in staticOrgs ==> o.id != id)
             && (remote.Fetched? ==> forall o :: o in remote.rows ==> o.id != id)
  {
    if remote.Fetched? {
      UniqueRowsWithId(remote.rows, id);
      var m := RowsWithId(remote.rows, id);
      if exists o :: o in remote.rows && o.id == id {
        var o :| o in remote.rows && o.id == id;
        assert o in m;
      } else {
        NoRowsWithId(remote.rows, id);
      }
    }
  }
}
