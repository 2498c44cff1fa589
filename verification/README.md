# Market analysis service — a Dafny model

This project models the core of a FastAPI service. The service takes the name of an
Indian market sector and returns an analysis report for it. The report is written by a
Gemini language model from news the service collects, and the service falls back to a
fixed template when no model is available.

Around those external calls sit small stateful rules, and the project models them as
pure functions over immutable maps and sequences:

- the per-identity rate limiter and its sweep (`RateLimiter`);
- the usage-tracking session table (`Auth`);
- the sector validator of the request model (`Models`);
- the collector's query fan-out, URL de-duplication, company roster and result shapes (`DataCollector`);
- the analyzer's model selection, prompt truncation, and its choice between the model's
  text, the fallback report and the error report (`AiAnalyzer`);
- the API-key gate, the HTML-or-JSON choice and the two exception-handler bodies (`ApiGate`);
- the markdown list-grouping pass, with Python's `split('\n')` / `'\n'.join` (`MarkdownLists`);
- the `analyze_sector` pipeline with its analysis cache, the cache sweep and the periodic
  cleanup round (`AnalysisService`).

`Basics` (option and result types, `Min`, `Take`, `Map`) and `Text` (Python's `strip`,
`lower`, `upper`, `title`, `in` on strings, `str(int)` with its parse-back, `'\n'.join`)
are shared helpers.

Modelling conventions:

- The clock is an integer number of seconds, passed in by the caller.
- The ISO and strftime renderings of the time are opaque strings passed in beside it.
- Search, the language model, Python's `hash()` and the regex inline passes are oracle
  parameters.
- Configuration (`API_KEY`, `REQUESTS_PER_MINUTE`, `REQUESTS_PER_HOUR`, `DEBUG`,
  `GEMINI_API_KEY`) is made of plain parameters.
- Every error the source raises or returns is a value of a result datatype.

## Model

| member | source | states |
|---|---|---|
| `RateLimiter.IdentityKey` | app/rate_limiter.py:21 | The identity is the user id when a non-empty one is given, otherwise the remote address. |
| `RateLimiter.Recent` | app/rate_limiter.py:34-35 | The hour filter keeps exactly the timestamps younger than the window and never lengthens the list; a list whose entries are all young is kept as it is. |
| `RateLimiter.RecentAppend` | app/rate_limiter.py:34-35 | Filtering distributes over concatenation, so what is kept stays in its original order. |
| `RateLimiter.RecentNarrower` | app/rate_limiter.py:34-40 | Filtering to the hour and later to a narrower window equals filtering straight to the narrower window. |
| `RateLimiter.Prepared` | app/rate_limiter.py:24-36 | An unseen identity starts with an empty list stamped `now`. A trim happens only when more than 300 s passed since the last one; the new list is `Recent` of the old one over the hour window, i.e. exactly the timestamps under an hour old, in order and with their multiplicity, and `last_cleanup` is restamped. Otherwise the entry is untouched. |
| `RateLimiter.CheckRateLimit` | app/rate_limiter.py:14-59 | The minute rejection happens iff the minute count reaches the limit. The hour rejection happens iff the minute check passed and the whole retained list reaches the hourly limit. Admission appends `now`. A rejection keeps the prepared entry. No other identity changes. |
| `RateLimiter.RejectionRecordsNothing` | app/rate_limiter.py:44-54 | A rejected call adds no timestamp: the identity's list only loses entries. |
| `RateLimiter.AdmissionRecordsNow` | app/rate_limiter.py:57-59 | An admitted call leaves the prepared list followed by exactly one new timestamp, `now`. |
| `RateLimiter.SameInstantAdmitted` | app/rate_limiter.py:39-57 | From an identity with no requests and `RPM <= RPH`, up to `RPM` calls at one instant are all admitted, and the list holds that many copies of `now`. |
| `RateLimiter.AdmitOneMore` | app/rate_limiter.py:39-57 | After `m` admitted calls at one instant, one more is admitted while `m` is below both limits. |
| `RateLimiter.RejectAtMinuteLimit` | app/rate_limiter.py:39-44 | After `m >= RPM` admitted calls at one instant, the next call at that instant is refused by the minute limit. |
| `RateLimiter.SameInstantBurstLimit` | app/rate_limiter.py:39-48 | Of `RPM + 1` calls at one instant from a fresh identity, the first `RPM` are admitted and the last is refused by the minute limit. |
| `RateLimiter.CleanupStorage` | app/rate_limiter.py:61-78 | The sweep removes exactly the identities without a timestamp younger than an hour. Survivors keep only their recent timestamps and their `last_cleanup`. |
| `RateLimiter.SweptStorageIsRecent` | app/rate_limiter.py:68-75 | After a sweep every surviving identity has a non-empty list of timestamps younger than an hour. |
| `RateLimiter.SweepIdempotent` | app/rate_limiter.py:61-78 | A second sweep at the same instant changes nothing. |
| `RateLimiter.SweepKeepsMinuteCount` | app/rate_limiter.py:33-78 | A sweep never changes the minute count of any later call. |
| `RateLimiter.PreparedKeepsMinute` | app/rate_limiter.py:33-40 | The creation and trim at the start of a call never change the minute count. |
| `RateLimiter.StaleTimestampCountsTowardHour` | app/rate_limiter.py:33-54 | Between trims (no more than 300 s since the last one), timestamps older than an hour still count toward the hourly limit: an identity holding at least `RPH` of them, and none younger, is refused by the hour limit. |
| `Auth.SessionId` | app/auth.py:9 | The id starts with `api_key_<hash>_`, and what follows is a decimal numeral that reads back as the creation second. |
| `Auth.CreateSession` | app/auth.py:7-16 | The id is `api_key_<hash>_<now>`. The new session has count 0 and creation and last-request times `now`. Only that id is added or replaced. |
| `Auth.GetSession` | app/auth.py:18-19 | It returns the stored session iff the id is present. |
| `Auth.CreateThenGet` | app/auth.py:7-19 | A lookup of a freshly created id finds the new session: the key's hash, count 0, created and last used at `now`. |
| `Auth.ActivityThenGet` | app/auth.py:18-24 | After recording activity a lookup of that id sees the count one higher and the time `now`; an unknown id stays unknown, and lookups of other ids see what they saw before. |
| `Auth.UpdateSessionActivity` | app/auth.py:21-24 | A known id gets its count plus one and its last time set to `now`. An unknown id leaves the table unchanged, and other sessions never change. |
| `Auth.CleanupExpiredSessions` | app/auth.py:26-35 | It removes exactly the sessions created more than 86400 s before `now`; the rest are unchanged. |
| `Auth.SameSecondReplaces` | app/auth.py:9-15 | Two creations for one key in one second share an id, and the second resets the count whatever happened in between. |
| `Auth.DistinctSecondsDistinctIds` | app/auth.py:9 | Creations for one key in different seconds get different ids, because the second can be read back from the id. |
| `Auth.SweepIgnoresActivity` | app/auth.py:21-35 | The sweep looks only at creation time, so it commutes with recording activity. |
| `Models.ValidateSector` | app/models.py:46-66 | It rejects iff the value is empty or all whitespace. An accepted value comes back stripped, with its case kept, and non-empty. |
| `Models.ValidateSectorIdempotent` | app/models.py:66 | Validating the returned value again gives the same result. |
| `Models.UnlistedSectorAccepted` | app/models.py:52-66 | A name outside the supported list is accepted all the same. |
| `DataCollector.SuccessfulHits` | app/data_collector.py:39-45 | The pooled results are exactly the items of the queries that succeeded, in query order; a failed query contributes nothing. Order and multiplicity are pinned by `SuccessfulHitsAppend` and `SuccessfulHitsOne`. |
| `DataCollector.SuccessfulHitsAppend` | app/data_collector.py:39-41 | The pool of `a + b` is the pool of `a` followed by the pool of `b`, so results are pooled in query order. |
| `DataCollector.SuccessfulHitsOne` | app/data_collector.py:39-45 | One successful query contributes exactly its hits, in their order; one failed query contributes nothing. |
| `DataCollector.QueryOutcomes` | app/data_collector.py:31-42 | There are three queries for the sector, each asking for `limit // 3` results. |
| `DataCollector.DedupFrom` | app/data_collector.py:47-54 | The de-duplicated list is a subsequence of the pooled results. It keeps the first item for each url, no two kept items share a url, and every url of the input appears. Kept items are ordered by the position where their url first occurs. |
| `DataCollector.DedupByUrl` | app/data_collector.py:47-54 | The source's loop with its `seen_urls` set computes the recursive reference definition. |
| `DataCollector.SearchMarketNews` | app/data_collector.py:24-59 | The result is the first `limit` items of the pooled hits de-duplicated by url (a prefix of that list, of length `min(limit, its length)`), so the urls are distinct and each item is the first with its url, in order. A provider that cannot be opened yields `[]`. |
| `DataCollector.TruncatedDedup` | app/data_collector.py:47-55 | Cutting the de-duplicated list to `limit` gives a prefix of it of length `min(limit, its length)`, and keeps the subsequence, first-occurrence and distinct-url properties. |
| `DataCollector.SectorCompanies` | app/data_collector.py:61-79 | The roster is the table entry of the lowercased sector; an unknown sector gives `[]`. |
| `DataCollector.SectorCompaniesIgnoresCase` | app/data_collector.py:79 | The lookup gives the same roster whatever the case of the sector name. |
| `DataCollector.FetchCompanyData` | app/data_collector.py:81-99 | A provider failure gives `{company, news: [], error}`; a success gives the news and the search query. |
| `DataCollector.GetMarketIndicators` | app/data_collector.py:101-119 | A provider failure gives `{error, timestamp}`; a success gives the market news, the timestamp and the three index names. |
| `DataCollector.CompanyRecordFromQuery` | app/data_collector.py:81-99 | A company record depends on the provider only through its opening and its answer to that company's query. An error record has no news, and a provider honouring `max_results` gives at most three headlines. |
| `DataCollector.MarketRecordFromQuery` | app/data_collector.py:101-119 | The market record depends on the provider only through its opening and its answer to the index query, and holds at most five headlines from a provider honouring `max_results`. |
| `DataCollector.CollectSectorData` | app/data_collector.py:121-158 | Only an exception escaping the composition gives the top-level error record, which has no `data_points`. A success has at most 10 news items and company data for the first three companies, in roster order. Its `data_points` is the number of news items plus the number of company records. |
| `DataCollector.DataPointsBounded` | app/data_collector.py:121-150 | Without an escaping exception a collection always completes, and its `data_points` lies between 0 and 13 (ten news items and three companies). |
| `DataCollector.UnknownSectorCollects` | app/data_collector.py:121-150 | An unknown sector still collects successfully, with no companies, and its data points count only news. |
| `AiAnalyzer.FirstAnswering` | app/ai_analyzer.py:22-29 | It finds the first model name whose probe answers with text, and none before it answers. |
| `AiAnalyzer.LastConstructed` | app/ai_analyzer.py:22-33 | It finds the last model name whose constructor did not raise (every name after it raised), or none iff every constructor raised. |
| `AiAnalyzer.SelectFrom` | app/ai_analyzer.py:22-33 | The selection loop stops at the first answering model. If none answers, `model` stays at the last constructed candidate, not None. |
| `AiAnalyzer.FirstAnsweringAt` | app/ai_analyzer.py:22-29 | An answering name with no answering name before it is the one found. |
| `AiAnalyzer.SelectModel` | app/ai_analyzer.py:10-38 | Without a Gemini key there is no model; otherwise the selection loop decides. |
| `AiAnalyzer.NewsBlockOf` | app/ai_analyzer.py:57-62 | A news block shows the item's title, source and date, each `N/A` when missing, and the body cut to its first 200 characters. |
| `AiAnalyzer.CompanyBlockOf` | app/ai_analyzer.py:75-78 | A company block shows the company name and its first two headlines at most, each the item's title and date with `N/A` for a missing one. |
| `AiAnalyzer.MarketLineOf` | app/ai_analyzer.py:84-85 | A market line shows the item's title (`N/A` when missing) and the body cut to its first 100 characters. |
| `AiAnalyzer.PromptOutline` | app/ai_analyzer.py:44-85 | The prompt carries the sector, the collection timestamp and `data_points`. It shows the blocks of the first 5 sector-news items in order, the whole roster iff it is non-empty, the blocks of the first 3 company records iff there are any, and the lines of the first 3 market items iff market news exists. |
| `AiAnalyzer.PromptFraming` | app/ai_analyzer.py:44-130 | Every prompt opens with the request title naming the sector upper-cased and the analysis date, and ends with the requirements naming the sector as written. |
| `AiAnalyzer.PromptIgnoresHidden` | app/ai_analyzer.py:40-133 | Two collections that agree on the header fields, the roster, the first five news items, the first three company records up to their first two headlines and the first three market items get the same prompt. |
| `AiAnalyzer.FallbackAnalysis` | app/ai_analyzer.py:135-180 | The fallback opens with the heading line carrying `sector.upper()` and contains the sector name verbatim. |
| `AiAnalyzer.ErrorReport` | app/ai_analyzer.py:203-216 | The error report opens with the same heading, quotes the error message before the fallback, and ends with the complete fallback report followed by a line break. |
| `AiAnalyzer.AnalyzeSectorData` | app/ai_analyzer.py:182-216 | With no model the result is the fallback. With a model: non-empty text comes back verbatim, an empty or missing response gives the fallback, and an exception gives the error report. |
| `AiAnalyzer.Answer` | app/ai_analyzer.py:195-216 | The three-way choice between the model's text, the fallback and the error report, once a model exists. |
| `AiAnalyzer.AnalysisNeverEmpty` | app/ai_analyzer.py:182-216 | Whatever the model does, the analyzer returns a non-empty report. |
| `AiAnalyzer.ValidateApiKey` | app/ai_analyzer.py:218-232 | The result is false without a model or when the call fails. Otherwise it is true iff the lowercased answer contains `working`. |
| `AiAnalyzer.StartAndValidate` | app/ai_analyzer.py:10-38 | After start-up, validation fails without a key and when every model constructor raised. With a key and some constructible model it succeeds iff the health answer mentions `working`. |
| `ApiGate.PresentedKey` | app/main.py:80 | The header key wins when present and non-empty; otherwise the query parameter is used. |
| `ApiGate.VerifyApiKey` | app/main.py:77-94 | A request is admitted iff the presented key is non-empty and is the configured key or one of the three demo keys. Every refusal is 401 with the same explanation. |
| `ApiGate.HeaderTakesPrecedence` | app/main.py:80-94 | A valid header key is enough, whatever the query says. |
| `ApiGate.InvalidHeaderShadowsQuery` | app/main.py:80-94 | A non-empty invalid header is refused even when the query carries a valid key. |
| `ApiGate.DemoKeysAdmitted` | app/main.py:83-88 | Each demo key is accepted whatever key is configured. |
| `ApiGate.EmptyKeyNeverAdmitted` | app/main.py:89-94 | A request without a non-empty key is refused, even when the configured key is empty. |
| `ApiGate.WantsHtml` | app/main.py:724-731 | `format=html` always gives HTML. Otherwise HTML needs `auto`, a lowercased User-Agent containing `mozilla`, `chrome` or `safari`, and a lowercased Accept header containing `text/html`. |
| `ApiGate.AutoWithoutAcceptIsJson` | app/main.py:724-731 | Under `auto` with no Accept header the reply is JSON, whatever the User-Agent. |
| `ApiGate.BrowserGetsHtml` | app/main.py:724-731 | Under `auto`, a User-Agent containing `mozilla`, `chrome` or `safari` together with an Accept header containing `text/html` gives HTML, in any letter case. |
| `ApiGate.NonBrowserGetsJson` | app/main.py:724-731 | Under `auto`, a User-Agent naming none of the three browsers gets JSON whatever the Accept header says. |
| `ApiGate.HeaderCaseIrrelevant` | app/main.py:724-731 | Lowercasing both headers beforehand does not change the choice. |
| `ApiGate.HttpExceptionResponse` | app/main.py:1031-1041 | The reply keeps the exception's status, its detail becomes `error`, and `detail` starts with `Status code: `. |
| `ApiGate.StatusRecoverable` | app/main.py:1031-1041 | The status parses back out of the reply's `detail`. |
| `ApiGate.GeneralExceptionResponse` | app/main.py:1043-1054 | The reply is always 500 `Internal server error`; the exception text appears only in DEBUG mode. |
| `ApiGate.NoLeakWithoutDebug` | app/main.py:1043-1054 | Outside DEBUG mode any two failures produce the same reply. |
| `MarkdownLists.Split` | app/main.py:750 | `split('\n')` gives at least one piece, and no piece holds a line break. |
| `MarkdownLists.JoinSplit` | app/main.py:750-772 | Joining the pieces of a split with line breaks gives the text back. |
| `MarkdownLists.SplitJoin` | app/main.py:750-772 | Splitting lines joined with line breaks gives the lines back when none holds a line break. |
| `MarkdownLists.GroupNoBreaks` | app/main.py:750-770 | The pass introduces no line break into any output line. |
| `MarkdownLists.GroupedSplitsBack` | app/main.py:750-772 | The joined page body splits back into exactly the lines the pass produced. |
| `MarkdownLists.GroupLists` | app/main.py:750-770 | The source's loop over the lines computes the recursive two-state definition of the pass. |
| `MarkdownLists.ProcessLine` | app/main.py:754-767 | One iteration emits the bracket the line calls for, then the line's rendering, and ends in the list state iff the line is a list line. |
| `MarkdownLists.GroupWellNested` | app/main.py:750-770 | `<ul>` opens only when no list is open and `</ul>` closes only an open one. Items occur only inside a list, other lines only outside one, and no list is left open. |
| `MarkdownLists.OneBracketPerRun` | app/main.py:750-770 | The number of `<ul>` equals the number of maximal runs of list lines, and the `</ul>` count matches it. |
| `MarkdownLists.GroupRendersEachLine` | app/main.py:750-770 | With the brackets removed, the output is each line's rendering in order: `<li>` for a list line, `<br>` for a blank one, `<p>line</p>` otherwise. |
| `MarkdownLists.IndentedItemKeepsDash` | app/main.py:754-760 | The item text is cut from the unstripped line, so `  - Growth` is listed as `- Growth`. |
| `AnalysisService.CacheKey` | app/main.py:639 | The cache key is the sector name followed by `_anonymous`. |
| `AnalysisService.CacheKeyInjective` | app/main.py:639 | Different sectors never share a cache key. |
| `AnalysisService.NormalizeSector` | app/main.py:629-635 | A blank sector is a 400 `Sector name cannot be empty`; anything else is stripped and lowercased, and is non-empty. |
| `AnalysisService.NormalizeIdempotent` | app/main.py:635 | A normalised name normalises to itself. |
| `AnalysisService.NormalizeAgreesWithValidator` | app/main.py:629-635 | The endpoint accepts exactly the names the request validator accepts, and uses the lowercase of the validator's result. |
| `AnalysisService.SessionIdAt` | app/main.py:677 | The session id starts with `anonymous_`, and what follows reads back as the request second. |
| `AnalysisService.SessionIdAtInjective` | app/main.py:677 | Analyses in different seconds get different session ids. |
| `AnalysisService.HtmlReport` | app/main.py:750-772 | Read back line by line, the HTML body is exactly the list grouping of the inline-marked report's lines. |
| `AnalysisService.ArtifactHeader` | app/main.py:694-698 | The artifact header names the session id and the data-source count. |
| `AnalysisService.Artifact` | app/main.py:694-700 | The artifact names the session id and ends with the report itself. |
| `AnalysisService.Publish` | app/main.py:677-731 | In JSON mode the reply is the record of the sector, the report, the reply time, `data_points` and `anonymous_<now>`. In HTML mode it is the page of the title-cased sector, the `api_key` query (default `demo-key-123`), the page date, `data_points`, the session id and the grouped report. Either way the report is cached under the request time. The artifact exists iff the file write succeeded, and it names the session and ends with the report. |
| `AnalysisService.Generate` | app/main.py:656-674 | The miss path succeeds iff both services return, the collection is not an error record and the report is non-empty. Otherwise (a collector exception, a collector error record, an analyzer exception or an empty report) it is a 500 that leaves the cache unchanged and writes no artifact. Cache entries of other sectors are never touched. |
| `AnalysisService.AnalyzeSector` | app/main.py:613-1028 | Every error leaves the cache unchanged. A blank sector is a 400. Cache entries of other sectors are never touched. |
| `AnalysisService.BlankSectorRejected` | app/main.py:629-633 | A blank sector is refused before the cache or any service is consulted. |
| `AnalysisService.FreshEntryServed` | app/main.py:642-653 | An entry younger than 1800 s is returned as the JSON record, whatever format was asked for, without consulting any service. |
| `AnalysisService.StaleEntryIgnored` | app/main.py:642-653 | An entry 1800 s old or older yields the same reply as an empty cache. |
| `AnalysisService.MissWritesCache` | app/main.py:656-718 | On a miss the request succeeds iff both services return and the report is non-empty. The cache then gains that report with the request time, the collection's `data_points` and the derived session id. |
| `AnalysisService.CollectorErrorIs500` | app/main.py:660-664 | A collector error record gives 500 `Error collecting market data: <error>` and leaves the cache unchanged. |
| `AnalysisService.MissThenHitAgrees` | app/main.py:642-1019 | In JSON mode, a repeat request within 1800 s receives the record the miss returned, except that its `timestamp` is the cached `created_at`. |
| `AnalysisService.FileWriteFailureIsolated` | app/main.py:680-705 | A failed artifact write changes neither the reply nor the cache. |
| `AnalysisService.CacheRoundTrip` | app/main.py:642-718 | A successful analysis is served back unchanged to any request for the same sector within 1800 s, whatever the services would do by then. |
| `AnalysisService.RealAnalyzerNeverEmpty` | app/main.py:666-674 | With the analyzer of app/ai_analyzer.py, the `Failed to generate analysis report` error cannot occur. |
| `AnalysisService.SweepCache` | app/main.py:110-117 | The cache sweep keeps exactly the entries at most 3600 s old, unchanged. |
| `AnalysisService.SweepAndServeWindows` | app/main.py:110-117 | The sweep keeps an entry iff it is at most 3600 s old. Entries aged 1800–3600 s survive but are not served, and a servable entry stays servable. |
| `AnalysisService.SweepInvisibleToRequests` | app/main.py:110-117 | Sweeping just before a request never changes its reply. |
| `AnalysisService.PeriodicCleanup` | app/main.py:104-117 | One round keeps exactly the sessions at most a day old, the identities with a timestamp under an hour old (each keeping `Recent` of its list over the hour window, in order, and its `last_cleanup` unchanged), and the cache entries at most 3600 s old. Kept sessions and cache entries are unchanged. |
| `AnalysisService.PeriodicCleanupIdempotent` | app/main.py:104-122 | A second round at the same instant changes nothing. |
| `AnalysisService.HandleAnalyze` | app/main.py:613-620 | A refused key gives 401 with the handler's rendering of the key rejection, without touching the cache. An admitted request gets `AnalyzeSector`'s cache and artifact, is 200 with its reply when that succeeds, and otherwise carries that error's status and its rendering. A reply is 200 iff it is not an error. |

## Left out

- The HTML page around the report (app/main.py:124-601, 775-1008). The HTML reply keeps the values the page interpolates (the title, the `api_key` echoed into the JSON link, the generation date, the data-source count, the session id and the report body), except the processing time.
- The header, bold and italic regex passes (app/main.py:738-747). They are the uninterpreted `inlineMarkup` parameter.
- FastAPI routing, CORS, dependency injection and the slowapi `10/minute` decorator. The decorator is a third-party limiter whose internals are not shown.
- The custom rate limiter is not wired into `analyze_sector`: the source only has a comment where the call would be, and the model follows the code.
- Network calls (DuckDuckGo search, the aiohttp session, the Gemini client) are oracle parameters.
- The synchronous wrapper `collect_sector_data_sync` is left out, because it is only an `asyncio.run` call.
- The lifespan task's endless loop and its five-minute sleep are left out; `AnalysisService.PeriodicCleanup` models one round.
- Concurrent interleavings on the shared dictionaries are left out, because the model is sequential.
- `RateLimiter.CheckRateLimit`: the two 429 rejections are told apart by the `Decision` constructor; their detail texts are not modelled.
- The clock is whole seconds: `time.time()` is a float in the source. Where one operation reads the clock several times (`create_session`, the start and current time of `analyze_sector`, and the three sweeps of `periodic_cleanup`, each of which reads it), the model uses one instant.
- The `datetime.now()` renderings are separate opaque inputs: in `analyze_sector` the `created_at` stamp, the artifact's "Generated on" line, the JSON reply's stamp and the page date are the four `Stamps` fields. `collect_sector_data` and `get_market_indicators` share one stamp, and the analyzer's date lines (in the prompt and in the fallback report) share one more.
- `processing_time` and its logging are left out.
- The `datetime` formatting strings are opaque inputs.
- Logging is left out.
- Environment loading in app/config.py is left out; its settings are parameters.
- Python's salted `hash()` is an uninterpreted function.
- `str.lower`, `str.upper` and `str.title` are modelled on ASCII letters only. `str.strip` uses Python's full set of whitespace characters.
- The Pydantic models other than `validate_sector` are left out; their records appear as datatypes.
- The markdown artifact's file name, directory creation and encoding are left out; the model keeps its content and whether the write succeeded.
- `periodic_cleanup`'s exception handler is left out, because the modelled sweeps cannot raise.
- `data.get('timestamp', 0)` in the cache sweep is modelled without its default, because every cached entry has a timestamp.
- Long literal texts are written as concatenations of short pieces. This is a representation choice only; the texts are those of the source.
