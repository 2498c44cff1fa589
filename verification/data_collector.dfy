/**
 * The data collector of app/data_collector.py.
 *
 * The news-search provider is an oracle: whether its client session opens,
 * and what it answers to each `(query, max_results)` request. Wall-clock
 * ISO timestamps are opaque strings supplied by the caller.
 */
module DataCollector {
  import opened Basics
  import Text

  /** One search hit, as the provider's dictionary: any field may be missing. */
  datatype NewsItem = NewsItem(
    title: Option<string>,
    source: Option<string>,
    date: Option<string>,
    body: Option<string>,
    url: Option<string>)

  /** What one news query yields: the hits, or the exception it raised. */
  datatype QueryOutcome = Hits(items: seq<NewsItem>) | QueryFailed(message: string)

  /** Whether entering the provider's client (`with DDGS() as ddgs`) succeeds. */
  datatype Opening = Opens | OpenFails(message: string)

  datatype SearchProvider = SearchProvider(opening: Opening, news: (string, int) -> QueryOutcome)

  /** Number of sector-news items `collect_sector_data` asks for. */
  const NewsLimit := 10
  /** Companies whose news is fetched, from the front of the roster. */
  const CompanyFetchLimit := 3
  const CompanyNewsResults := 3
  const MarketNewsResults := 5
  const MarketQuery := "Sensex Nifty Indian stock market today"
  const MarketIndices: seq<string> := ["SENSEX", "NIFTY 50", "NIFTY BANK"]

  /** The three templated queries for a sector's news. */
  function SearchQueries(sector: string): seq<string> {
    [ sector + " sector India market news 2024",
      sector + " industry India stock market",
      sector + " companies India financial news" ]
  }

  /** The hits of the queries that succeeded, in query order; failed queries contribute nothing. */
  function SuccessfulHits(outcomes: seq<QueryOutcome>): (r: seq<NewsItem>)
    ensures forall x :: x in r <==> exists k :: 0 <= k < |outcomes| && outcomes[k].Hits? && x in outcomes[k].items
  {
    if outcomes == [] then []
    else
      var last := outcomes[|outcomes| - 1];
      var front := outcomes[..|outcomes| - 1];
      assert forall k :: 0 <= k < |front| ==> front[k] == outcomes[k];
      SuccessfulHits(front) + (if last.Hits? then last.items else [])
  }

  /** Pooling distributes over concatenation: the hits of `a` come first, in their order. */
  lemma {:induction false} SuccessfulHitsAppend(a: seq<QueryOutcome>, b: seq<QueryOutcome>)
    ensures SuccessfulHits(a + b) == SuccessfulHits(a) + SuccessfulHits(b)
    decreases |b|
  {
    if b == [] {
      assert a + b == a;
    } else {
      var b' := b[..|b| - 1];
      assert (a + b)[..|a + b| - 1] == a + b';
      assert (a + b)[|a + b| - 1] == b[|b| - 1];
      SuccessfulHitsAppend(a, b');
    }
  }

  /** A single query contributes its hits, in their order, or nothing when it failed. */
  lemma SuccessfulHitsOne(o: QueryOutcome)
    ensures o.Hits? ==> SuccessfulHits([o]) == o.items
    ensures o.QueryFailed? ==> SuccessfulHits([o]) == []
  {
    assert [o][..0] == [];
  }

  /** The outcomes of the three sector queries, each asking for `limit // 3` results. */
  function QueryOutcomes(provider: SearchProvider, sector: string, limit: nat): (r: seq<QueryOutcome>)
    ensures |r| == 3
    ensures forall k :: 0 <= k < 3 ==> r[k] == provider.news(SearchQueries(sector)[k], limit / 3)
  {
    var qs := SearchQueries(sector);
    [ provider.news(qs[0], limit / 3), provider.news(qs[1], limit / 3), provider.news(qs[2], limit / 3) ]
  }

  /** The set of urls (possibly missing) of a list of items. */
  function Urls(items: seq<NewsItem>): set<Option<string>> {
    set x | x in items :: x.url
  }

  /** The first item of `items` with the given url, if any. */
  function FirstWithUrl(items: seq<NewsItem>, url: Option<string>): (r: Option<NewsItem>)
    ensures r.Some? ==> r.value in items && r.value.url == url
    ensures r.None? <==> url !in Urls(items)
  {
    if items == [] then None
    else if items[0].url == url then Some(items[0])
    else
      var rest := FirstWithUrl(items[1..], url);
      assert forall x :: x in items[1..] ==> x in items;
      assert Urls(items) == {items[0].url} + Urls(items[1..]);
      rest
  }

  /** The position of the first item of `items` with the given url, or `|items|` when there is none. */
  function FirstIndex(items: seq<NewsItem>, url: Option<string>): (i: nat)
    ensures i <= |items|
    ensures i < |items| ==> items[i].url == url
    ensures forall k :: 0 <= k < i ==> items[k].url != url
  {
    if items == [] then 0
    else if items[0].url == url then 0
    else 1 + FirstIndex(items[1..], url)
  }

  /** The de-duplication by url in `search_market_news`: keep an item iff its url (a missing url
      counts as a url of its own) is neither in `seen` nor carried by an earlier item. */
  function DedupFrom(items: seq<NewsItem>, seen: set<Option<string>>): (r: seq<NewsItem>)
    ensures |r| <= |items|
    ensures IsSubsequence(r, items)
    ensures Urls(r) == Urls(items) - seen
    ensures forall i, j :: 0 <= i < j < |r| ==> r[i].url != r[j].url
    ensures forall i :: 0 <= i < |r| ==> FirstWithUrl(items, r[i].url) == Some(r[i])
    ensures OrderedByFirst(items, r)
  {
    if items == [] then []
    else
      var x := items[0];
      var tail := items[1..];
      assert Urls(items) == {x.url} + Urls(tail);
      if x.url in seen then
        var r := DedupFrom(tail, seen);
        SubsequenceSkip(r, x, tail);
        assert [x] + tail == items;
        forall i | 0 <= i < |r|
          ensures FirstWithUrl(items, r[i].url) == Some(r[i])
        {
          assert r[i].url in Urls(r);
        }
        OrderedShift(x, tail, r);
        r
      else
        var rest := DedupFrom(tail, seen + {x.url});
        var r := [x] + rest;
        assert [x] + tail == items;
        assert r[1..] == rest;
        assert Urls(r) == {x.url} + Urls(rest);
        forall i, j | 0 <= i < j < |r|
          ensures r[i].url != r[j].url
        {
          if i == 0 {
            assert r[j] == rest[j - 1];
            assert rest[j - 1].url in Urls(rest);
          }
        }
        forall i | 0 <= i < |r|
          ensures FirstWithUrl(items, r[i].url) == Some(r[i])
        {
          if i > 0 {
            assert r[i] == rest[i - 1];
            assert rest[i - 1].url in Urls(rest);
          }
        }
        OrderedCons(x, tail, rest);
        r
  }

  /** The items of `r` appear in the order in which their urls first occur in `items`. */
  predicate OrderedByFirst(items: seq<NewsItem>, r: seq<NewsItem>) {
    forall i, j :: 0 <= i < j < |r| ==> FirstIndex(items, r[i].url) < FirstIndex(items, r[j].url)
  }

  /** Prepending an item with another url shifts every first position by one. */
  lemma OrderedShift(x: NewsItem, tail: seq<NewsItem>, r: seq<NewsItem>)
    requires OrderedByFirst(tail, r)
    requires x.url !in Urls(r)
    ensures OrderedByFirst([x] + tail, r)
  {
    var items := [x] + tail;
    assert items[1..] == tail;
    forall i | 0 <= i < |r|
      ensures FirstIndex(items, r[i].url) == 1 + FirstIndex(tail, r[i].url)
    {
      assert r[i].url in Urls(r);
    }
  }

  /** Keeping the head item in front of an ordered rest that avoids its url stays ordered. */
  lemma OrderedCons(x: NewsItem, tail: seq<NewsItem>, rest: seq<NewsItem>)
    requires OrderedByFirst(tail, rest)
    requires x.url !in Urls(rest)
    ensures OrderedByFirst([x] + tail, [x] + rest)
  {
    var items := [x] + tail;
    var r := [x] + rest;
    OrderedShift(x, tail, rest);
    assert FirstIndex(items, x.url) == 0;
    forall i, j | 0 <= i < j < |r|
      ensures FirstIndex(items, r[i].url) < FirstIndex(items, r[j].url)
    {
      assert r[j] == rest[j - 1];
      assert rest[j - 1].url in Urls(rest);
      if i > 0 {
        assert r[i] == rest[i - 1];
      }
    }
  }

  /** Prepending an element to the larger sequence keeps the subsequence relation. */
  lemma SubsequenceSkip(a: seq<NewsItem>, x: NewsItem, b: seq<NewsItem>)
    requires IsSubsequence(a, b)
    ensures IsSubsequence(a, [x] + b)
  {
    assert ([x] + b)[1..] == b;
  }

  /** The de-duplication loop of `search_market_news`, computing the same list as `DedupFrom(items, {})`. */
  method DedupByUrl(items: seq<NewsItem>) returns (unique: seq<NewsItem>)
    ensures unique == DedupFrom(items, {})
    ensures forall i, j :: 0 <= i < j < |unique| ==> unique[i].url != unique[j].url
    ensures Urls(unique) == Urls(items)
  {
    var seen: set<Option<string>> := {};
    unique := [];
    var i := 0;
    while i < |items|
      invariant 0 <= i <= |items|
      invariant unique + DedupFrom(items[i..], seen) == DedupFrom(items, {})
    {
      DedupStep(items, i, seen);
      if items[i].url !in seen {
        AppendAssoc(unique, [items[i]], DedupFrom(items[i + 1..], seen + {items[i].url}));
        seen := seen + {items[i].url};
        unique := unique + [items[i]];
      }
      i := i + 1;
    }
    assert items[i..] == [];
  }

  /** One step of the scan: what the next item contributes. */
  lemma DedupStep(items: seq<NewsItem>, i: nat, seen: set<Option<string>>)
    requires i < |items|
    ensures DedupFrom(items[i..], seen)
         == if items[i].url in seen then DedupFrom(items[i + 1..], seen)
            else [items[i]] + DedupFrom(items[i + 1..], seen + {items[i].url})
  {
    assert items[i..][1..] == items[i + 1..];
  }

  /** `search_market_news`: the first `limit` of the de-duplicated hits of the three sector
      queries; an unopenable provider yields no news rather than an error. */
  function SearchMarketNews(provider: SearchProvider, sector: string, limit: nat): (r: seq<NewsItem>)
    ensures provider.opening.OpenFails? ==> r == []
    ensures |r| <= limit
    ensures forall i, j :: 0 <= i < j < |r| ==> r[i].url != r[j].url
    ensures provider.opening.Opens? ==>
      var hits := SuccessfulHits(QueryOutcomes(provider, sector, limit));
      && r <= DedupFrom(hits, {})
      && |r| == Min(limit, |DedupFrom(hits, {})|)
      && IsSubsequence(r, hits)
      && (forall i :: 0 <= i < |r| ==> FirstWithUrl(hits, r[i].url) == Some(r[i]))
      && (|DedupFrom(hits, {})| <= limit ==> Urls(r) == Urls(hits))
  {
    if provider.opening.OpenFails? then []
    else
      var hits := SuccessfulHits(QueryOutcomes(provider, sector, limit));
      TruncatedDedup(hits, limit);
      Take(DedupFrom(hits, {}), limit)
  }

  /** Cutting the de-duplicated list to `limit` items keeps its front, and with it the
      properties of the whole list. */
  lemma TruncatedDedup(hits: seq<NewsItem>, limit: nat)
    ensures var r := Take(DedupFrom(hits, {}), limit);
      && r <= DedupFrom(hits, {})
      && |r| == Min(limit, |DedupFrom(hits, {})|)
      && |r| <= limit
      && (forall i, j :: 0 <= i < j < |r| ==> r[i].url != r[j].url)
      && IsSubsequence(r, hits)
      && (forall i :: 0 <= i < |r| ==> FirstWithUrl(hits, r[i].url) == Some(r[i]))
      && (|DedupFrom(hits, {})| <= limit ==> Urls(r) == Urls(hits))
  {
    var unique := DedupFrom(hits, {});
    var r := Take(unique, limit);
    assert forall i :: 0 <= i < |r| ==> r[i] == unique[i];
    TakeKeepsSubsequence(unique, limit, hits);
    if |unique| <= limit {
      assert r == unique;
      assert Urls(hits) - {} == Urls(hits);
    }
  }

  /** A prefix of a subsequence is a subsequence. */
  lemma {:induction false} TakeKeepsSubsequence(a: seq<NewsItem>, n: nat, b: seq<NewsItem>)
    requires IsSubsequence(a, b)
    ensures IsSubsequence(Take(a, n), b)
    decreases |b|
  {
    var t := Take(a, n);
    if |t| > 0 && |b| > 0 {
      if a[0] == b[0] && IsSubsequence(a[1..], b[1..]) {
        TakeKeepsSubsequence(a[1..], n - 1, b[1..]);
        assert Take(a[1..], n - 1) == t[1..];
      } else {
        TakeKeepsSubsequence(a, n, b[1..]);
      }
    }
  }

  /** The sector → company roster of `get_sector_companies`. */
  const SectorTable: map<string, seq<string>> := map[
    "pharmaceuticals" := ["Sun Pharma", "Dr. Reddy's", "Cipla", "Lupin", "Aurobindo Pharma", "Divi's Labs"],
    "technology" := ["TCS", "Infosys", "Wipro", "HCL Technologies", "Tech Mahindra", "Mindtree"],
    "banking" := ["HDFC Bank", "ICICI Bank", "State Bank of India", "Kotak Mahindra", "Axis Bank"],
    "automotive" := ["Tata Motors", "Mahindra", "Maruti Suzuki", "Bajaj Auto", "Hero MotoCorp"],
    "agriculture" := ["UPL", "Godrej Agrovet", "Kaveri Seed", "Rallis India", "Coromandel International"],
    "energy" := ["Reliance Industries", "ONGC", "Coal India", "NTPC", "Power Grid Corporation"],
    "steel" := ["Tata Steel", "JSW Steel", "SAIL", "Jindal Steel", "JSPL"],
    "cement" := ["UltraTech Cement", "Ambuja Cements", "ACC Limited", "Shree Cement", "JK Cement"],
    "fmcg" := ["Hindustan Unilever", "ITC", "Nestle India", "Britannia", "Godrej Consumer"],
    "telecom" := ["Bharti Airtel", "Reliance Jio", "Vodafone Idea", "BSNL"]
  ]

  /** `get_sector_companies`: the roster of the lower-cased sector; an unknown sector has
      an empty roster rather than an error, and every known one is non-empty. */
  function SectorCompanies(sector: string): (r: seq<string>)
    ensures r == [] <==> Text.Lower(sector) !in SectorTable
    ensures r != [] ==> r == SectorTable[Text.Lower(sector)]
  {
    var key := Text.Lower(sector);
    if key in SectorTable then
      assert |SectorTable[key]| >= 4 by { TableRostersNonEmpty(key); }
      SectorTable[key]
    else []
  }

  lemma TableRostersNonEmpty(key: string)
    requires key in SectorTable
    ensures |SectorTable[key]| >= 4
  {
  }

  /** The lookup does not depend on the case of its argument. */
  lemma SectorCompaniesIgnoresCase(sector: string)
    ensures SectorCompanies(sector) == SectorCompanies(Text.Lower(sector))
  {
    Text.LowerIdempotent(sector);
  }

  /** What `fetch_company_data` returns: news and the query on success, an error on failure. */
  datatype CompanyData = CompanyData(
    company: string,
    news: seq<NewsItem>,
    searchQuery: Option<string>,
    error: Option<string>)

  function CompanyQuery(company: string): string {
    company + " India stock price financial results 2024"
  }

  /** `fetch_company_data`: a failure of the provider becomes an error record with no news. */
  function FetchCompanyData(provider: SearchProvider, company: string): (r: CompanyData)
    ensures r.company == company
    ensures r.error.Some? <==> provider.opening.OpenFails? || provider.news(CompanyQuery(company), CompanyNewsResults).QueryFailed?
    ensures r.error.Some? ==> r.news == [] && r.searchQuery.None?
    ensures r.error.None? ==>
      && r.news == provider.news(CompanyQuery(company), CompanyNewsResults).items
      && r.searchQuery == Some(CompanyQuery(company))
  {
    if provider.opening.OpenFails? then CompanyData(company, [], None, Some(provider.opening.message))
    else
      match provider.news(CompanyQuery(company), CompanyNewsResults)
      case Hits(items) => CompanyData(company, items, Some(CompanyQuery(company)), None)
      case QueryFailed(m) => CompanyData(company, [], None, Some(m))
  }

  /** What `get_market_indicators` returns. */
  datatype MarketIndicators =
    | MarketData(marketNews: seq<NewsItem>, timestamp: string, indices: seq<string>)
    | MarketError(error: string, timestamp: string)

  /** `get_market_indicators`: headlines for the index query, or an error record carrying only a timestamp. */
  function GetMarketIndicators(provider: SearchProvider, stamp: string): (r: MarketIndicators)
    ensures r.timestamp == stamp
    ensures r.MarketError? <==> provider.opening.OpenFails? || provider.news(MarketQuery, MarketNewsResults).QueryFailed?
    ensures r.MarketData? ==> r.marketNews == provider.news(MarketQuery, MarketNewsResults).items && r.indices == MarketIndices
  {
    if provider.opening.OpenFails? then MarketError(provider.opening.message, stamp)
    else
      match provider.news(MarketQuery, MarketNewsResults)
      case Hits(items) => MarketData(items, stamp, MarketIndices)
      case QueryFailed(m) => MarketError(m, stamp)
  }

  /** A provider that never answers with more hits than it was asked for. */
  ghost predicate HonoursMaxResults(provider: SearchProvider) {
    forall q: string, n: int :: provider.news(q, n).Hits? ==> |provider.news(q, n).items| <= n
  }

  /** A company record depends on the provider only through its opening and its answer to that
      company's query; it never carries both news and an error, and a provider that honours
      `max_results` gives it at most three headlines. */
  lemma CompanyRecordFromQuery(p1: SearchProvider, p2: SearchProvider, company: string)
    requires p1.opening == p2.opening
    requires p1.news(CompanyQuery(company), CompanyNewsResults) == p2.news(CompanyQuery(company), CompanyNewsResults)
    ensures FetchCompanyData(p1, company) == FetchCompanyData(p2, company)
    ensures FetchCompanyData(p1, company).error.Some? ==> FetchCompanyData(p1, company).news == []
    ensures HonoursMaxResults(p1) ==> |FetchCompanyData(p1, company).news| <= CompanyNewsResults
  {
  }

  /** The market record depends on the provider only through its opening and its answer to the
      index query, and holds at most five headlines from a provider that honours `max_results`. */
  lemma MarketRecordFromQuery(p1: SearchProvider, p2: SearchProvider, stamp: string)
    requires p1.opening == p2.opening
    requires p1.news(MarketQuery, MarketNewsResults) == p2.news(MarketQuery, MarketNewsResults)
    ensures GetMarketIndicators(p1, stamp) == GetMarketIndicators(p2, stamp)
    ensures HonoursMaxResults(p1) && GetMarketIndicators(p1, stamp).MarketData? ==>
      |GetMarketIndicators(p1, stamp).marketNews| <= MarketNewsResults
  {
  }

  /** The record of a completed collection. */
  datatype SectorData = SectorData(
    sector: string,
    sectorNews: seq<NewsItem>,
    companies: seq<string>,
    companyData: seq<CompanyData>,
    marketIndicators: MarketIndicators,
    timestamp: string,
    dataPoints: int)

  /** A completed collection, or the top-level error record (which has no `data_points`). */
  datatype Collection =
    | Collected(data: SectorData)
    | CollectionFailed(sector: string, error: string, timestamp: string)

  /** `collect_sector_data`. Every sub-call swallows its own failure; only an exception escaping
      the composition itself (`fault`, which nothing in the shown code raises) produces the
      top-level error record. */
  function CollectSectorData(provider: SearchProvider, sector: string, stamp: string, fault: Option<string>): (r: Collection)
    ensures r.CollectionFailed? <==> fault.Some?
    ensures r.CollectionFailed? ==> r.sector == sector && r.error == fault.value && r.timestamp == stamp
    ensures r.Collected? ==>
      var d := r.data;
      && d.sector == sector
      && d.sectorNews == SearchMarketNews(provider, sector, NewsLimit)
      && |d.sectorNews| <= NewsLimit
      && d.companies == SectorCompanies(sector)
      && |d.companyData| == Min(CompanyFetchLimit, |d.companies|)
      && (forall i :: 0 <= i < |d.companyData| ==> d.companyData[i] == FetchCompanyData(provider, d.companies[i]))
      && d.marketIndicators == GetMarketIndicators(provider, stamp)
      && d.dataPoints == |d.sectorNews| + |d.companyData|
  {
    if fault.Some? then CollectionFailed(sector, fault.value, stamp)
    else
      var news := SearchMarketNews(provider, sector, NewsLimit);
      var companies := SectorCompanies(sector);
      var market := GetMarketIndicators(provider, stamp);
      var fetched := Take(companies, CompanyFetchLimit);
      var companyData := seq(|fetched|, i requires 0 <= i < |fetched| => FetchCompanyData(provider, fetched[i]));
      Collected(SectorData(sector, news, companies, companyData, market, stamp, |news| + |companyData|))
  }

  /** Whatever the provider answers, a collection counts at most ten news items and three companies. */
  lemma DataPointsBounded(provider: SearchProvider, sector: string, stamp: string)
    ensures var r := CollectSectorData(provider, sector, stamp, None);
      r.Collected? && 0 <= r.data.dataPoints <= NewsLimit + CompanyFetchLimit
  {
  }

  /** A sector outside the roster table still collects successfully, with no companies. */
  lemma UnknownSectorCollects(provider: SearchProvider, sector: string, stamp: string)
    requires Text.Lower(sector) !in SectorTable
    ensures var r := CollectSectorData(provider, sector, stamp, None);
      r.Collected? && r.data.companies == [] && r.data.companyData == []
      && r.data.dataPoints == |r.data.sectorNews|
  {
  }
}
