/**
 * The report generator of app/ai_analyzer.py.
 *
 * The language-model provider is an oracle: `probe` says how constructing a
 * model and sending it the health prompt turns out for each model name, and
 * `generate` says what the selected model answers to a prompt. The
 * `datetime.now()` strings are one opaque `stamp`.
 *
 * Long literal texts are written as concatenations of short pieces: the
 * verifier reasons about many short literals far more cheaply than about
 * one long one.
 */
module AiAnalyzer {
  import opened Basics
  import Text
  import DataCollector

  /** The model names tried, in order of preference. */
  const ModelNames: seq<string> := ["gemini-1.5-flash", "gemini-1.5-pro", "gemini-pro-latest", "gemini-pro"]

  /** How trying one model name at start-up turns out. */
  datatype Probe =
    | ConstructorRaises   // `GenerativeModel(name)` raised: `model` keeps its previous value
    | ProbeRaises         // the model was built, but the health prompt raised
    | ProbeEmpty          // the model was built, but answered with no text
    | ProbeAnswers        // the model was built and answered with text

  /** What a call of `generate_content` on the selected model turns out to be. */
  datatype Generation =
    | Response(text: string)   // a response; its text may be empty
    | NoResponse               // a falsy response object
    | Raises(message: string)  // the call (or reading `.text`) raised

  /** Index of the first name whose probe answers. */
  function FirstAnswering(names: seq<string>, probe: string -> Probe): (r: Option<nat>)
    ensures r.Some? ==> r.value < |names| && probe(names[r.value]) == ProbeAnswers
    ensures r.Some? ==> forall k :: 0 <= k < r.value ==> probe(names[k]) != ProbeAnswers
    ensures r.None? ==> forall k :: 0 <= k < |names| ==> probe(names[k]) != ProbeAnswers
  {
    if names == [] then None
    else if probe(names[0]) == ProbeAnswers then Some(0)
    else
      match FirstAnswering(names[1..], probe)
      case None => None
      case Some(i) => Some(i + 1)
  }

  /** The last name whose model could be constructed: every name after it raised. */
  function LastConstructed(names: seq<string>, probe: string -> Probe): (r: Option<string>)
    ensures r.Some? ==> r.value in names && probe(r.value) != ConstructorRaises
    ensures r.Some? ==> exists i :: 0 <= i < |names| && names[i] == r.value && AllRaiseAfter(names, probe, i)
    ensures r.None? <==> forall k :: 0 <= k < |names| ==> probe(names[k]) == ConstructorRaises
  {
    if names == [] then None
    else if probe(names[|names| - 1]) != ConstructorRaises then
      assert AllRaiseAfter(names, probe, |names| - 1);
      Some(names[|names| - 1])
    else
      var front := names[..|names| - 1];
      var r := LastConstructed(front, probe);
      assert forall k :: 0 <= k < |names| - 1 ==> front[k] == names[k];
      if r.Some? then
        var i :| 0 <= i < |front| && front[i] == r.value && AllRaiseAfter(front, probe, i);
        assert names[i] == r.value && AllRaiseAfter(names, probe, i);
        r
      else r
  }

  /** Every constructor after position `i` of `names` raised. */
  predicate AllRaiseAfter(names: seq<string>, probe: string -> Probe, i: int) {
    forall k :: 0 <= k < |names| && i < k ==> probe(names[k]) == ConstructorRaises
  }

  /** The start-up loop of `AIAnalyzer.__init__` over `names`: stop at the first model that
      answers; otherwise `model` is left at the last one that could be constructed. */
  method SelectFrom(names: seq<string>, probe: string -> Probe) returns (model: Option<string>)
    ensures FirstAnswering(names, probe).Some? ==> model == Some(names[FirstAnswering(names, probe).value])
    ensures FirstAnswering(names, probe).None? ==> model == LastConstructed(names, probe)
  {
    model := None;
    var i := 0;
    while i < |names|
      invariant 0 <= i <= |names|
      invariant forall k :: 0 <= k < i ==> probe(names[k]) != ProbeAnswers
      invariant model == LastConstructed(names[..i], probe)
    {
      assert names[..i + 1][..i] == names[..i];
      var outcome := probe(names[i]);
      if outcome != ConstructorRaises {
        model := Some(names[i]);
      }
      if outcome == ProbeAnswers {
        FirstAnsweringAt(names, probe, i);
        return;
      }
      i := i + 1;
    }
    assert names[..i] == names;
  }

  lemma {:induction false} FirstAnsweringAt(names: seq<string>, probe: string -> Probe, i: nat)
    requires i < |names| && probe(names[i]) == ProbeAnswers
    requires forall k :: 0 <= k < i ==> probe(names[k]) != ProbeAnswers
    ensures FirstAnswering(names, probe) == Some(i)
  {
    if i > 0 {
      FirstAnsweringAt(names[1..], probe, i - 1);
    }
  }

  /** `AIAnalyzer.__init__`: no model without a configured key, else the selection loop. */
  method SelectModel(apiKey: string, probe: string -> Probe) returns (model: Option<string>)
    ensures apiKey == "" ==> model == None
    ensures apiKey != "" && FirstAnswering(ModelNames, probe).Some? ==>
      model == Some(ModelNames[FirstAnswering(ModelNames, probe).value])
    ensures apiKey != "" && FirstAnswering(ModelNames, probe).None? ==>
      model == LastConstructed(ModelNames, probe)
  {
    if apiKey == "" {
      model := None;
    } else {
      model := SelectFrom(ModelNames, probe);
    }
  }

  /** The first line of every report this module writes itself. */
  function ReportHeading(sector: string): string {
    "# Market Analysis " + "Report: " + Text.Upper(sector) + " Sector"
  }

  /** `generate_fallback_analysis`: the template report used when no model text is available. */
  function FallbackAnalysis(sector: string, stamp: string): (r: string)
    ensures ReportHeading(sector) + "\n" <= r
    ensures Text.Contains(r, sector)
  {
    var lines := FallbackLines(sector, stamp);
    Text.JoinLinesOpens(lines);
    Text.ContainsSuffix(SectorFocusLabel, sector);
    Text.JoinLinesContains(lines, 8, sector);
    Text.JoinLines(lines)
  }

  /** The lines of the fallback template, the fixed closing sections counting as one. */
  function FallbackLines(sector: string, stamp: string): seq<string> {
    [ ReportHeading(sector),
      "",
      "## Generated " + "on: " + stamp,
      "",
      "## Executive " + "Summary",
      "This is a " + "simulated " + "analysis report " + "for the " + sector + " sector. To " + "get AI-powered " + "insights, "
        + "please configure " + "your Gemini " + "API key in " + "the .env file.",
      "",
      "## Market " + "Analysis",
      SectorFocusLabel + sector,
      FallbackClosing ]
  }

  /** The fixed sections of the fallback after the sector focus line, ending in a line break. */
  const FallbackClosing: string :=
    "- **Market:** " + "Indian Stock " + "Market\n"
    + "- **Analysis " + "Type:** Basic " + "Template\n"
    + "\n"
    + "## Trade Opportunities\n"
    + "### Investment " + "Themes\n"
    + "1. **Growth " + "Opportunities:** " + "Look for companies " + "with strong " + "fundamentals\n"
    + "2. **Value " + "Plays:** Identify " + "undervalued " + "stocks in " + "the sector\n"
    + "3. **Dividend " + "Stocks:** " + "Consider companies " + "with consistent " + "dividend history\n"
    + "\n"
    + "### Key Companies " + "to Watch\n"
    + "Based on the " + "sector, major " + "players typically " + "include established " + "market leaders "
        + "and emerging " + "growth companies.\n"
    + "\n"
    + "## Risk Analysis\n"
    + "### Key Risks\n"
    + "- Market volatility\n"
    + "- Regulatory " + "changes\n"
    + "- Economic " + "conditions\n"
    + "- Sector-specific " + "challenges\n"
    + "\n"
    + "### Risk Mitigation\n"
    + "- Diversification " + "across multiple " + "stocks\n"
    + "- Regular " + "portfolio " + "review\n"
    + "- Stop-loss " + "mechanisms\n"
    + "- Stay updated " + "with market " + "news\n"
    + "\n"
    + "## Recommendations\n"
    + "- **Time Horizon:** " + "Medium to " + "long-term " + "(1-3 years)\n"
    + "- **Risk Level:** " + "Moderate\n"
    + "- **Portfolio " + "Allocation:** " + "Consider sector " + "exposure within " + "broader portfolio\n"
    + "\n"
    + "---\n"
    + "*Note: This " + "is a template " + "analysis. " + "For detailed " + "AI-powered " + "insights, "
        + "please configure " + "the Gemini " + "API key.*\n"

  /** The report returned when the generation call raised: an error banner quoting the
      message, then the full fallback, which ends the report with a line break. */
  function ErrorReport(sector: string, message: string, stamp: string): (r: string)
    ensures ReportHeading(sector) + "\n" <= r
    ensures Text.Contains(r, message)
    ensures Text.Contains(r, FallbackAnalysis(sector, stamp))
    ensures var f := FallbackAnalysis(sector, stamp) + "\n";
      |f| <= |r| && r[|r| - |f|..] == f && Text.Contains(r[..|r| - |f|], message)
  {
    var lines := ErrorLines(sector, message, stamp);
    Text.JoinLinesOpens(lines);
    Text.ContainsSuffix(ErrorLead, message);
    Text.JoinLinesContains(lines, 4, message);
    Text.JoinLinesContains(lines, 10, FallbackAnalysis(sector, stamp));
    ErrorReportEnds(sector, message, stamp);
    Text.JoinLines(lines)
  }

  /** The error report is its banner, a line break, and the fallback with its own line break. */
  lemma ErrorReportEnds(sector: string, message: string, stamp: string)
    ensures var r := Text.JoinLines(ErrorLines(sector, message, stamp));
      var f := FallbackAnalysis(sector, stamp) + "\n";
      |f| <= |r| && r[|r| - |f|..] == f && Text.Contains(r[..|r| - |f|], message)
  {
    var lines := ErrorLines(sector, message, stamp);
    var banner := lines[..10];
    var fallback := FallbackAnalysis(sector, stamp);
    assert lines == banner + [fallback] + [""];
    Text.JoinLinesSnoc(banner + [fallback], "");
    Text.JoinLinesSnoc(banner, fallback);
    var head := Text.JoinLines(banner) + "\n";
    var r := Text.JoinLines(lines);
    assert r == head + (fallback + "\n");
    assert r[..|r| - |fallback + "\n"|] == head;
    assert r[|r| - |fallback + "\n"|..] == fallback + "\n";
    Text.ContainsSuffix(ErrorLead, message);
    assert banner[4] == ErrorLead + message;
    Text.JoinLinesContains(banner, 4, message);
    Text.ContainsExtend(Text.JoinLines(banner), message, "\n");
  }

  const SectorFocusLabel := "- **Sector " + "Focus:** "
  const ErrorLead := "An error occurred " + "while generating " + "the AI analysis: "

  function ErrorLines(sector: string, message: string, stamp: string): seq<string> {
    [ ReportHeading(sector),
      "",
      "## Error in " + "Analysis",
      "",
      ErrorLead + message,
      "",
      "Please check " + "your Gemini " + "API key configuration " + "and try again.",
      "",
      "---",
      "",
      FallbackAnalysis(sector, stamp),
      "" ]
  }

  // ---- Prompt construction (`format_data_for_analysis`) ----

  const NewsInPrompt := 5
  const NewsSummaryChars := 200
  const CompaniesInPrompt := 3
  const HeadlinesPerCompany := 2
  const MarketNewsInPrompt := 3
  const MarketSummaryChars := 100

  datatype NewsBlock = NewsBlock(title: string, source: string, date: string, summary: string)
  datatype Headline = Headline(title: string, date: string)
  datatype CompanyBlock = CompanyBlock(company: string, headlines: seq<Headline>)
  datatype MarketLine = MarketLine(title: string, summary: string)

  /** What the prompt shows, section by section; an absent section is not printed at all. */
  datatype Outline = Outline(
    sector: string,
    collectedAt: string,
    dataPoints: int,
    news: seq<NewsBlock>,
    companies: Option<seq<string>>,
    companyBlocks: Option<seq<CompanyBlock>>,
    market: Option<seq<MarketLine>>)

  /** A news item's field, or "N/A" when the item lacks it. */
  function OrNA(field: Option<string>): string {
    field.OrElse("N/A")
  }

  /** One sector-news block: title, source and date as given, and the first 200 characters of the body. */
  function NewsBlockOf(item: DataCollector.NewsItem): (b: NewsBlock)
    ensures b.summary <= OrNA(item.body) && |b.summary| == Min(NewsSummaryChars, |OrNA(item.body)|)
    ensures b.title == OrNA(item.title) && b.source == OrNA(item.source) && b.date == OrNA(item.date)
  {
    NewsBlock(OrNA(item.title), OrNA(item.source), OrNA(item.date), Take(OrNA(item.body), NewsSummaryChars))
  }

  /** One company block: the company's name and the title and date of its first two headlines. */
  function CompanyBlockOf(c: DataCollector.CompanyData): (b: CompanyBlock)
    ensures b.company == c.company
    ensures |b.headlines| == Min(HeadlinesPerCompany, |c.news|)
    ensures forall i :: 0 <= i < |b.headlines| ==>
      b.headlines[i] == Headline(OrNA(c.news[i].title), OrNA(c.news[i].date))
  {
    var shown := Take(c.news, HeadlinesPerCompany);
    CompanyBlock(c.company, seq(|shown|, i requires 0 <= i < |shown| => Headline(OrNA(shown[i].title), OrNA(shown[i].date))))
  }

  /** One market-context line: the title and the first 100 characters of the body. */
  function MarketLineOf(item: DataCollector.NewsItem): (m: MarketLine)
    ensures m.title == OrNA(item.title)
    ensures m.summary <= OrNA(item.body) && |m.summary| == Min(MarketSummaryChars, |OrNA(item.body)|)
  {
    MarketLine(OrNA(item.title), Take(OrNA(item.body), MarketSummaryChars))
  }

  /** The outline of the prompt for a completed collection, with the source's truncations. */
  function PromptOutline(data: DataCollector.SectorData): (o: Outline)
    ensures o.sector == data.sector && o.collectedAt == data.timestamp && o.dataPoints == data.dataPoints
    ensures |o.news| == Min(NewsInPrompt, |data.sectorNews|)
    ensures forall i :: 0 <= i < |o.news| ==> o.news[i] == NewsBlockOf(data.sectorNews[i])
    ensures o.companies.Some? <==> data.companies != []
    ensures o.companies.Some? ==> o.companies.value == data.companies
    ensures o.companyBlocks.Some? <==> data.companyData != []
    ensures o.companyBlocks.Some? ==>
      && |o.companyBlocks.value| == Min(CompaniesInPrompt, |data.companyData|)
      && forall i :: 0 <= i < |o.companyBlocks.value| ==> o.companyBlocks.value[i] == CompanyBlockOf(data.companyData[i])
    ensures o.market.Some? <==> data.marketIndicators.MarketData? && data.marketIndicators.marketNews != []
    ensures o.market.Some? ==>
      && |o.market.value| == Min(MarketNewsInPrompt, |data.marketIndicators.marketNews|)
      && forall i :: 0 <= i < |o.market.value| ==> o.market.value[i] == MarketLineOf(data.marketIndicators.marketNews[i])
  {
    var news := Take(data.sectorNews, NewsInPrompt);
    var blocks := Take(data.companyData, CompaniesInPrompt);
    Outline(
      data.sector,
      data.timestamp,
      data.dataPoints,
      seq(|news|, i requires 0 <= i < |news| => NewsBlockOf(news[i])),
      if data.companies != [] then Some(data.companies) else None,
      if data.companyData != [] then Some(seq(|blocks|, i requires 0 <= i < |blocks| => CompanyBlockOf(blocks[i]))) else None,
      if data.marketIndicators.MarketData? && data.marketIndicators.marketNews != [] then
        var shown := Take(data.marketIndicators.marketNews, MarketNewsInPrompt);
        Some(seq(|shown|, i requires 0 <= i < |shown| => MarketLineOf(shown[i])))
      else None)
  }

  function RenderNews(blocks: seq<NewsBlock>, number: nat): string
    decreases |blocks|
  {
    if blocks == [] then ""
    else
      var b := blocks[0];
      "\n### News " + Text.IntToString(number) + ":\n"
        + "**Title:** " + b.title + "\n"
        + "**Source:** " + b.source + "\n"
        + "**Date:** " + b.date + "\n"
        + "**Summary:** " + b.summary + "...\n"
        + RenderNews(blocks[1..], number + 1)
  }

  function RenderBullets(items: seq<string>): string {
    if items == [] then "" else "- " + items[0] + "\n" + RenderBullets(items[1..])
  }

  function RenderHeadlines(hs: seq<Headline>): string {
    if hs == [] then "" else "- **" + hs[0].title + "** (" + hs[0].date + ")\n" + RenderHeadlines(hs[1..])
  }

  function RenderCompanyBlocks(blocks: seq<CompanyBlock>): string {
    if blocks == [] then ""
    else "\n### " + blocks[0].company + ":\n" + RenderHeadlines(blocks[0].headlines) + RenderCompanyBlocks(blocks[1..])
  }

  function RenderMarket(lines: seq<MarketLine>): string {
    if lines == [] then ""
    else "- **" + lines[0].title + "** - " + lines[0].summary + "...\n" + RenderMarket(lines[1..])
  }

  /** The closing instructions of the prompt, naming the sector once. */
  function Requirements(sector: string): string {
    RequirementsOpening + sector + RequirementsClosing
  }

  const RequirementsOpening: string :=
    "\n\n## Analysis " + "Requirements:\n\n"
    + "Please provide " + "a comprehensive " + "market analysis " + "report for " + "the "

  const RequirementsClosing: string :=
    " sector in " + "India with " + "the following " + "structure:\n\n"
    + "1. **Executive " + "Summary**\n"
    + "   - Current " + "market sentiment\n" + "   - Key trends " + "and developments\n" + "   - Overall " + "sector outlook\n\n"
    + "2. **Market " + "Analysis**\n"
    + "   - Sector " + "performance " + "analysis\n " + "  - Key drivers " + "and challenges\n"
    + "   - Regulatory " + "environment " + "impact\n   " + "- Competition " + "landscape\n\n"
    + "3. **Trade " + "Opportunities**\n"
    + "   - Investment " + "opportunities " + "(with specific " + "company recommendations " + "if applicable)\n"
    + "   - Short-term " + "trading ideas\n" + "   - Long-term " + "investment " + "themes\n   " + "- Risk assessment\n\n"
    + "4. **Key Metrics " + "& Indicators**\n"
    + "   - Important " + "financial " + "metrics to " + "watch\n   - " + "Market indicators\n" + "   - Upcoming " + "events/catalysts\n\n"
    + "5. **Risk " + "Analysis**\n"
    + "   - Sector-specific " + "risks\n   - " + "Market risks\n" + "   - Regulatory " + "risks\n   - " + "Mitigation " + "strategies\n\n"
    + "6. **Recommendations**\n"
    + "   - Investment " + "recommendations " + "(Buy/Hold/Sell)\n" + "   - Portfolio " + "allocation " + "suggestions\n"
    + "   - Time " + "horizon considerations\n\n"
    + "Format the " + "response as " + "a well-structured " + "markdown document " + "that can be " + "saved as a " + ".md file.\n"
    + "Use bullet " + "points, headers, " + "and formatting " + "to make it " + "easily readable.\n"
    + "Base your " + "analysis strictly " + "on the provided " + "data and current " + "market conditions.\n"

  /** The opening of every prompt: the request title with the sector upper-cased, then the date. */
  function PromptOpening(sector: string, stamp: string): string {
    "\n# Market " + "Analysis Request " + "for " + Text.Upper(sector) + " Sector\n\n"
      + "## Analysis " + "Date: " + stamp + "\n\n"
  }

  /** The prompt text of an outline: it opens with the title and date, and ends with the
      requirements naming the sector; the sections between depend on the outline. */
  function RenderPrompt(o: Outline, stamp: string): string {
    PromptOpening(o.sector, stamp) + PromptSections(o) + Requirements(o.sector)
  }

  /** `r` starts with `opening` and ends with `closing`. */
  predicate Framed(r: string, opening: string, closing: string) {
    && opening <= r
    && |r| >= |closing| && r[|r| - |closing|..] == closing
  }

  lemma FramedConcat(a: string, b: string, c: string)
    ensures Framed(a + b + c, a, c)
  {
    assert (a + b + c)[..|a|] == a;
    assert (a + b + c)[|a + b|..] == c;
  }

  /** The sections between the opening and the requirements. */
  function PromptSections(o: Outline): string {
    "## Sector " + "Information:\n"
      + "- Sector: " + o.sector + "\n"
      + "- Data Collection " + "Timestamp: " + o.collectedAt + "\n"
      + "- Number of " + "Data Points: " + Text.IntToString(o.dataPoints) + "\n\n"
      + "## Recent " + "Sector News:\n"
      + RenderNews(o.news, 1)
      + (if o.companies.Some? then "\n## Major " + "Companies in " + o.sector + " Sector:\n" + RenderBullets(o.companies.value) else "")
      + (if o.companyBlocks.Some? then "\n## Company-Specific " + "News:\n" + RenderCompanyBlocks(o.companyBlocks.value) else "")
      + (if o.market.Some? then "\n## Overall " + "Market Context:\n" + RenderMarket(o.market.value) else "")
  }

  /** `format_data_for_analysis`: the prompt sent to the model for a completed collection. */
  function FormatPrompt(data: DataCollector.SectorData, stamp: string): string {
    RenderPrompt(PromptOutline(data), stamp)
  }

  /** Every prompt names the sector upper-cased in its title, carries the analysis date, and
      ends with the requirements naming the sector as written. */
  lemma PromptFraming(data: DataCollector.SectorData, stamp: string)
    ensures Framed(FormatPrompt(data, stamp), PromptOpening(data.sector, stamp), Requirements(data.sector))
  {
    var o := PromptOutline(data);
    FramedConcat(PromptOpening(o.sector, stamp), PromptSections(o), Requirements(o.sector));
  }

  /** Two collections agree on everything the prompt shows: the same header fields, the same
      first five news items, the same first three company records up to their first two
      headlines, and the same first three market headlines. */
  ghost predicate SameVisible(d1: DataCollector.SectorData, d2: DataCollector.SectorData) {
    && d1.sector == d2.sector && d1.timestamp == d2.timestamp && d1.dataPoints == d2.dataPoints
    && d1.companies == d2.companies
    && Take(d1.sectorNews, NewsInPrompt) == Take(d2.sectorNews, NewsInPrompt)
    && Min(CompaniesInPrompt, |d1.companyData|) == Min(CompaniesInPrompt, |d2.companyData|)
    && (forall i :: 0 <= i < Min(CompaniesInPrompt, |d1.companyData|) ==>
          && d1.companyData[i].company == d2.companyData[i].company
          && Take(d1.companyData[i].news, HeadlinesPerCompany) == Take(d2.companyData[i].news, HeadlinesPerCompany))
    && (d1.marketIndicators.MarketData? && d1.marketIndicators.marketNews != []
        <==> d2.marketIndicators.MarketData? && d2.marketIndicators.marketNews != [])
    && (d1.marketIndicators.MarketData? && d2.marketIndicators.MarketData? ==>
          Take(d1.marketIndicators.marketNews, MarketNewsInPrompt) == Take(d2.marketIndicators.marketNews, MarketNewsInPrompt))
  }

  /** News after the fifth, companies after the third, headlines after a company's second and
      market news after the third never reach the prompt. */
  lemma PromptIgnoresHidden(d1: DataCollector.SectorData, d2: DataCollector.SectorData, stamp: string)
    requires SameVisible(d1, d2)
    ensures FormatPrompt(d1, stamp) == FormatPrompt(d2, stamp)
  {
    var o1 := PromptOutline(d1);
    var o2 := PromptOutline(d2);
    assert o1.news == o2.news by {
      forall i | 0 <= i < |o1.news| ensures o1.news[i] == o2.news[i] {
        assert d1.sectorNews[i] == Take(d1.sectorNews, NewsInPrompt)[i];
        assert d2.sectorNews[i] == Take(d2.sectorNews, NewsInPrompt)[i];
      }
    }
    assert o1.companyBlocks == o2.companyBlocks by {
      assert d1.companyData == [] <==> d2.companyData == [];
      if o1.companyBlocks.Some? {
        assert |o1.companyBlocks.value| == |o2.companyBlocks.value|;
        forall i | 0 <= i < |o1.companyBlocks.value|
          ensures o1.companyBlocks.value[i] == o2.companyBlocks.value[i]
        {
          SameHeadlines(d1.companyData[i], d2.companyData[i]);
        }
        assert o1.companyBlocks.value == o2.companyBlocks.value;
      }
    }
    assert o1.market == o2.market by {
      if o1.market.Some? {
        forall i | 0 <= i < |o1.market.value| ensures o1.market.value[i] == o2.market.value[i] {
          assert d1.marketIndicators.marketNews[i] == Take(d1.marketIndicators.marketNews, MarketNewsInPrompt)[i];
          assert d2.marketIndicators.marketNews[i] == Take(d2.marketIndicators.marketNews, MarketNewsInPrompt)[i];
        }
      }
    }
    assert o1 == o2;
  }

  /** Company records agreeing on the name and the first two headlines give the same block. */
  lemma SameHeadlines(c1: DataCollector.CompanyData, c2: DataCollector.CompanyData)
    requires c1.company == c2.company
    requires Take(c1.news, HeadlinesPerCompany) == Take(c2.news, HeadlinesPerCompany)
    ensures CompanyBlockOf(c1) == CompanyBlockOf(c2)
  {
    var b1 := CompanyBlockOf(c1);
    var b2 := CompanyBlockOf(c2);
    forall i | 0 <= i < |b1.headlines| ensures b1.headlines[i] == b2.headlines[i] {
      assert c1.news[i] == Take(c1.news, HeadlinesPerCompany)[i];
      assert c2.news[i] == Take(c2.news, HeadlinesPerCompany)[i];
    }
  }

  /** `analyze_sector_data`: the model's text verbatim when there is some; the fallback when there
      is no model or no text; the error banner followed by the fallback when the call raises.
      It never returns an empty report. */
  function AnalyzeSectorData(model: Option<string>, data: DataCollector.SectorData,
                             generate: string -> Generation, stamp: string): (r: string)
    ensures model.None? ==> r == FallbackAnalysis(data.sector, stamp)
    ensures model.Some? ==>
      var g := generate(FormatPrompt(data, stamp));
      && (g.Response? && |g.text| > 0 ==> r == g.text)
      && (g.Response? && |g.text| == 0 ==> r == FallbackAnalysis(data.sector, stamp))
      && (g.NoResponse? ==> r == FallbackAnalysis(data.sector, stamp))
      && (g.Raises? ==> r == ErrorReport(data.sector, g.message, stamp))
  {
    if model.None? then FallbackAnalysis(data.sector, stamp)
    else Answer(generate(FormatPrompt(data, stamp)), data.sector, stamp)
  }

  /** What the model's outcome turns into once there is a model. */
  function Answer(g: Generation, sector: string, stamp: string): (r: string)
    ensures g.Response? && |g.text| > 0 ==> r == g.text
    ensures g.Response? && |g.text| == 0 ==> r == FallbackAnalysis(sector, stamp)
    ensures g.NoResponse? ==> r == FallbackAnalysis(sector, stamp)
    ensures g.Raises? ==> r == ErrorReport(sector, g.message, stamp)
  {
    if g.Raises? then ErrorReport(sector, g.message, stamp)
    else if g.Response? && |g.text| > 0 then g.text
    else FallbackAnalysis(sector, stamp)
  }

  /** Whatever the model does, the analyzer returns a non-empty report. */
  lemma AnalysisNeverEmpty(model: Option<string>, data: DataCollector.SectorData,
                           generate: string -> Generation, stamp: string)
    ensures |AnalyzeSectorData(model, data, generate, stamp)| > 0
  {
    var r := AnalyzeSectorData(model, data, generate, stamp);
    var heading := ReportHeading(data.sector) + "\n";
    assert |heading| > 0;
    if model.None? {
      assert heading <= r;
    } else {
      var g := generate(FormatPrompt(data, stamp));
      if g.Raises? {
        assert r == ErrorReport(data.sector, g.message, stamp);
        assert heading <= r;
      } else if !(g.Response? && |g.text| > 0) {
        assert r == FallbackAnalysis(data.sector, stamp);
        assert heading <= r;
      }
    }
  }

  const HealthPrompt := "Say 'API key " + "is working' " + "if you receive " + "this message."

  /** `validate_api_key`: true iff there is a model and its answer to the health prompt
      mentions "working" in any letter case; a raised call counts as false. */
  function ValidateApiKey(model: Option<string>, generate: string -> Generation): (r: bool)
    ensures r ==> model.Some? && generate(HealthPrompt).Response?
    ensures model.Some? && generate(HealthPrompt).Response? ==>
      (r <==> Text.Contains(Text.Lower(generate(HealthPrompt).text), "working"))
  {
    model.Some? && generate(HealthPrompt).Response?
      && Text.Contains(Text.Lower(generate(HealthPrompt).text), "working")
  }

  /** Start-up followed by `validate_api_key`: the key can only validate when one is configured
      and some model name could be constructed, and then exactly when the health answer
      mentions "working". */
  method StartAndValidate(apiKey: string, probe: string -> Probe, generate: string -> Generation)
    returns (valid: bool)
    ensures apiKey == "" ==> !valid
    ensures (forall k :: 0 <= k < |ModelNames| ==> probe(ModelNames[k]) == ConstructorRaises) ==> !valid
    ensures apiKey != "" && (exists k :: 0 <= k < |ModelNames| && probe(ModelNames[k]) != ConstructorRaises) ==>
      (valid <==> generate(HealthPrompt).Response? && Text.Contains(Text.Lower(generate(HealthPrompt).text), "working"))
  {
    var model := SelectModel(apiKey, probe);
    valid := ValidateApiKey(model, generate);
  }
}
