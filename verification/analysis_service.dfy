/**
 * The analysis endpoint of app/main.py: the analysis cache, the
 * `analyze_sector` pipeline around the collector and the analyzer, the cache
 * sweep, and the periodic cleanup that runs all three sweeps.
 *
 * The collector, the analyzer and the markdown header/bold/italic passes are
 * oracles in `Services`; whether writing the markdown artifact succeeds is a
 * flag. The clock is integer seconds and the ISO / strftime renderings of the
 * time are opaque strings in `Stamps`.
 */
module AnalysisService {
  import opened Basics
  import Text
  import Auth
  import RateLimiter
  import Models
  import DataCollector
  import AiAnalyzer
  import ApiGate
  import MarkdownLists

  /** A cached analysis younger than this many seconds is served instead of a new one. */
  const FreshFor := 1800
  /** The sweep drops cached analyses older than this many seconds. */
  const KeptFor := 3600

  const Ok200 := 200
  const BadRequest := 400
  const InternalError := 500

  const CollectorLead := "Error collecting " + "market data: "
  const InternalLead := "Internal server " + "error: "
  const EmptyReportMessage := "Failed to generate " + "analysis report"

  datatype CacheEntry = CacheEntry(report: string, timestamp: int, createdAt: string, dataSources: int, sessionId: string)

  type Cache = map<string, CacheEntry>

  const AnonymousSuffix := "_anonymous"

  /** The cache slot of a normalised sector: the sector name followed by a fixed suffix for
      the anonymous caller. */
  function CacheKey(sector: string): (r: string)
    ensures sector <= r && r[|sector|..] == AnonymousSuffix
  {
    sector + AnonymousSuffix
  }

  /** Different sectors never share a cache slot. */
  lemma CacheKeyInjective(a: string, b: string)
    requires CacheKey(a) == CacheKey(b)
    ensures a == b
  {
    assert |a| == |b|;
    assert a == CacheKey(a)[..|a|];
    assert b == CacheKey(b)[..|b|];
  }

  /** Validation and normalisation of the path parameter: a blank name is a 400, anything
      else is stripped and lowercased. */
  function NormalizeSector(raw: string): (r: Result<string, ApiGate.HttpError>)
    ensures r.Err? <==> Text.AllSpace(raw)
    ensures r.Err? ==> r.error == ApiGate.HttpError(BadRequest, Models.EmptySectorMessage)
    ensures r.Ok? ==> r.value != "" && r.value == Text.Lower(Text.Strip(raw))
  {
    if raw == "" || |Text.Strip(raw)| == 0 then Err(ApiGate.HttpError(BadRequest, Models.EmptySectorMessage))
    else Ok(Text.Lower(Text.Strip(raw)))
  }

  /** A normalised name normalises to itself, so it names the same cache slot. */
  lemma NormalizeIdempotent(raw: string)
    requires NormalizeSector(raw).Ok?
    ensures NormalizeSector(NormalizeSector(raw).value) == NormalizeSector(raw)
  {
    var once := Text.Lower(Text.Strip(raw));
    Text.LowerStripCommute(Text.Strip(raw));
    Text.StripIdempotent(raw);
    Text.LowerIdempotent(Text.Strip(raw));
    assert Text.Strip(once) == once;
  }

  /** The endpoint accepts exactly the names the request model accepts, and serves the
      lowercase of the name that model returns. */
  lemma NormalizeAgreesWithValidator(raw: string)
    ensures NormalizeSector(raw).Ok? <==> Models.ValidateSector(raw).Ok?
    ensures NormalizeSector(raw).Ok? ==> NormalizeSector(raw).value == Text.Lower(Models.ValidateSector(raw).value)
  {
  }

  /** What the endpoint receives besides the API key. */
  datatype Request = Request(
    sector: string,
    format: string,
    userAgent: Option<string>,
    accept: Option<string>,
    apiKeyQuery: Option<string>)

  /** A call into code outside the model: it returns a value or raises. */
  datatype Call<T> = Returned(value: T) | Raised(message: string)

  datatype Services = Services(
    collect: string -> Call<DataCollector.Collection>,
    analyze: DataCollector.SectorData -> Call<string>,
    inlineMarkup: string -> string,
    fileWriteSucceeds: bool)

  /** The renderings of the time at each place the endpoint reads it: `created_at`, the
      artifact's "Generated on" line, the JSON reply's `timestamp`, and the HTML page's
      "Generated" date. */
  datatype Stamps = Stamps(createdAt: string, fileStamp: string, respondedAt: string, pageStamp: string)

  /** The `SectorAnalysisResponse` record. */
  datatype AnalysisRecord = AnalysisRecord(sector: string, report: string, timestamp: string, dataSources: int, sessionId: string)

  /** The JSON record, or the HTML page reduced to the values it interpolates (all but the
      processing time): the title-cased sector, the "View JSON" link's key, the generation
      date, the data-source count, the session id and the report body. */
  datatype Reply =
    | Json(record: AnalysisRecord)
    | Html(title: string, jsonKey: string, generated: string, dataSources: int, sessionId: string, body: string)

  /** The key the page's "View JSON" link carries when the request had none in its query. */
  const LinkDefaultKey := "demo-key-123"

  /** The reply or error, the cache afterwards, and the markdown artifact written, if any. */
  datatype Outcome = Outcome(reply: Result<Reply, ApiGate.HttpError>, cache: Cache, artifact: Option<string>)

  /** A cached analysis is served while it is younger than 1800 seconds. */
  predicate Servable(cache: Cache, key: string, now: int) {
    key in cache && now - cache[key].timestamp < FreshFor
  }

  function CachedReply(sector: string, e: CacheEntry): Reply {
    Json(AnalysisRecord(sector, e.report, e.createdAt, e.dataSources, e.sessionId))
  }

  const AnonymousLabel := "anonymous_"

  /** The session id of an anonymous analysis: a fixed label and the request second in
      decimal, which can be read back from it. */
  function SessionIdAt(now: int): (r: string)
    ensures AnonymousLabel <= r
    ensures var tail := r[|AnonymousLabel|..]; Text.IsNumeral(tail) && Text.ParseInt(tail) == now
  {
    var r := AnonymousLabel + Text.IntToString(now);
    assert r[|AnonymousLabel|..] == Text.IntToString(now);
    Text.IntToStringIsNumeral(now);
    Text.ParseIntToString(now);
    r
  }

  /** Analyses at different seconds get different session ids. */
  lemma SessionIdAtInjective(t1: int, t2: int)
    requires SessionIdAt(t1) == SessionIdAt(t2)
    ensures t1 == t2
  {
  }

  /** The report as HTML: the inline passes, then the list grouping over its lines, joined with
      line breaks. Read back line by line, the page body is exactly the grouped lines. */
  function HtmlReport(report: string, inlineMarkup: string -> string): (r: string)
    ensures MarkdownLists.Split(r) == MarkdownLists.GroupFrom(MarkdownLists.Split(inlineMarkup(report)), false)
  {
    MarkdownLists.GroupedSplitsBack(inlineMarkup(report));
    Text.JoinLines(MarkdownLists.GroupFrom(MarkdownLists.Split(inlineMarkup(report)), false))
  }

  /** The header of the saved markdown artifact; the report follows it. It names the
      session id and the data-source count. */
  function ArtifactHeader(sector: string, stamp: string, sessionId: string, dataSources: int): (r: string)
    ensures Text.Contains(r, sessionId)
    ensures Text.Contains(r, Text.IntToString(dataSources))
  {
    var opening := "# Market Analysis " + "Report: " + Text.Title(sector) + " Sector\n\n" + "**Generated on:** " + stamp + "\n";
    var sessionLine := "**Session ID:** " + sessionId + "\n";
    var sourcesLine := "**Data Sources:** " + Text.IntToString(dataSources) + "\n\n";
    var front := opening + sessionLine;
    var back := sourcesLine + "---\n\n";
    Text.ContainsInfix("**Session ID:** ", sessionId, "\n");
    Text.ContainsPrepend(opening, sessionLine, sessionId);
    Text.ContainsExtend(front, sessionId, back);
    Text.ContainsInfix("**Data Sources:** ", Text.IntToString(dataSources), "\n\n");
    Text.ContainsExtend(sourcesLine, Text.IntToString(dataSources), "---\n\n");
    Text.ContainsPrepend(front, back, Text.IntToString(dataSources));
    front + back
  }

  /** An artifact names the session and ends with the report itself. */
  predicate ArtifactCarries(artifact: string, sessionId: string, report: string) {
    && Text.Contains(artifact, sessionId)
    && |artifact| >= |report| && artifact[|artifact| - |report|..] == report
  }

  /** The saved markdown artifact: the header, then the report. */
  function Artifact(sector: string, stamp: string, sessionId: string, dataSources: int, report: string): (a: string)
    ensures ArtifactCarries(a, sessionId, report)
  {
    var header := ArtifactHeader(sector, stamp, sessionId, dataSources);
    Text.ContainsExtend(header, sessionId, report);
    assert (header + report)[|header|..] == report;
    header + report
  }

  function Failure(cache: Cache, detail: string): Outcome {
    Outcome(Err(ApiGate.HttpError(InternalError, detail)), cache, None)
  }

  /** A successful analysis: save the artifact (a failed write is swallowed), cache the report
      under the request-start time, and reply as HTML or JSON. */
  function Publish(cache: Cache, sector: string, req: Request, data: DataCollector.SectorData,
                   report: string, now: int, stamps: Stamps, svc: Services): (r: Outcome)
    ensures !ApiGate.WantsHtml(req.format, req.userAgent, req.accept) ==>
      r.reply == Ok(Json(AnalysisRecord(sector, report, stamps.respondedAt, data.dataPoints, SessionIdAt(now))))
    ensures ApiGate.WantsHtml(req.format, req.userAgent, req.accept) ==>
      r.reply == Ok(Html(Text.Title(sector), req.apiKeyQuery.OrElse(LinkDefaultKey), stamps.pageStamp,
                         data.dataPoints, SessionIdAt(now), HtmlReport(report, svc.inlineMarkup)))
    ensures r.cache == cache[CacheKey(sector) := CacheEntry(report, now, stamps.createdAt, data.dataPoints, SessionIdAt(now))]
    ensures r.artifact.Some? <==> svc.fileWriteSucceeds
    ensures r.artifact.Some? ==> ArtifactCarries(r.artifact.value, SessionIdAt(now), report)
  {
    var sid := SessionIdAt(now);
    var artifact := if svc.fileWriteSucceeds then Some(Artifact(sector, stamps.fileStamp, sid, data.dataPoints, report)) else None;
    var reply :=
      if ApiGate.WantsHtml(req.format, req.userAgent, req.accept) then
        Html(Text.Title(sector), req.apiKeyQuery.OrElse(LinkDefaultKey), stamps.pageStamp,
             data.dataPoints, sid, HtmlReport(report, svc.inlineMarkup))
      else
        Json(AnalysisRecord(sector, report, stamps.respondedAt, data.dataPoints, sid));
    Outcome(Ok(reply), cache[CacheKey(sector) := CacheEntry(report, now, stamps.createdAt, data.dataPoints, sid)], artifact)
  }

  /** The cache-miss path: collect, analyze, then publish; each failure is a 500 that leaves
      the cache as it was. */
  function Generate(cache: Cache, sector: string, req: Request, now: int, stamps: Stamps, svc: Services): (r: Outcome)
    ensures r.reply.Err? ==> r.cache == cache && r.artifact.None? && r.reply.error.status == InternalError
    ensures forall k :: k in cache && k != CacheKey(sector) ==> k in r.cache && r.cache[k] == cache[k]
    ensures r.reply.Ok? <==> Succeeds(svc, sector)
  {
    var collected := svc.collect(sector);
    if collected.Raised? then Failure(cache, InternalLead + collected.message)
    else if collected.value.CollectionFailed? then Failure(cache, CollectorLead + collected.value.error)
    else
      var analyzed := svc.analyze(collected.value.data);
      if analyzed.Raised? then Failure(cache, InternalLead + analyzed.message)
      else if analyzed.value == "" then Failure(cache, EmptyReportMessage)
      else Publish(cache, sector, req, collected.value.data, analyzed.value, now, stamps, svc)
  }

  /** `analyze_sector`, from validation to the reply. */
  function AnalyzeSector(cache: Cache, req: Request, now: int, stamps: Stamps, svc: Services): (r: Outcome)
    ensures r.reply.Err? ==> r.cache == cache && r.artifact.None?
    ensures Text.AllSpace(req.sector) ==> r.reply == Err(ApiGate.HttpError(BadRequest, Models.EmptySectorMessage))
    ensures forall k :: k in cache && k != CacheKey(Text.Lower(Text.Strip(req.sector))) ==> k in r.cache && r.cache[k] == cache[k]
  {
    var normalized := NormalizeSector(req.sector);
    if normalized.Err? then Outcome(Err(normalized.error), cache, None)
    else
      var key := CacheKey(normalized.value);
      if Servable(cache, key, now) then Outcome(Ok(CachedReply(normalized.value, cache[key])), cache, None)
      else Generate(cache, normalized.value, req, now, stamps, svc)
  }

  /** A blank name is refused before the cache or any service is consulted. */
  lemma BlankSectorRejected(cache: Cache, req: Request, now: int, stamps: Stamps, svc: Services)
    requires Text.AllSpace(req.sector)
    ensures AnalyzeSector(cache, req, now, stamps, svc)
         == Outcome(Err(ApiGate.HttpError(BadRequest, Models.EmptySectorMessage)), cache, None)
  {
  }

  /** A fresh cache entry is returned as the JSON record, whatever format was asked for,
      without consulting the collector or the analyzer. */
  lemma FreshEntryServed(cache: Cache, req: Request, now: int, stamps: Stamps, svc: Services)
    requires !Text.AllSpace(req.sector)
    requires Servable(cache, CacheKey(Text.Lower(Text.Strip(req.sector))), now)
    ensures var sector := Text.Lower(Text.Strip(req.sector));
      var e := cache[CacheKey(sector)];
      AnalyzeSector(cache, req, now, stamps, svc)
        == Outcome(Ok(Json(AnalysisRecord(sector, e.report, e.createdAt, e.dataSources, e.sessionId))), cache, None)
  {
  }

  /** An entry 1800 seconds old or older is not served: the request goes as if the cache
      held nothing for that sector. */
  lemma StaleEntryIgnored(cache: Cache, req: Request, now: int, stamps: Stamps, svc: Services)
    requires !Text.AllSpace(req.sector)
    requires !Servable(cache, CacheKey(Text.Lower(Text.Strip(req.sector))), now)
    ensures AnalyzeSector(cache, req, now, stamps, svc).reply == AnalyzeSector(map[], req, now, stamps, svc).reply
  {
  }

  /** The outcome of the two services for one sector, and whether it ends in a report. */
  predicate Succeeds(svc: Services, sector: string) {
    && svc.collect(sector).Returned?
    && svc.collect(sector).value.Collected?
    && svc.analyze(svc.collect(sector).value.data).Returned?
    && svc.analyze(svc.collect(sector).value.data).value != ""
  }

  /** On a cache miss the request succeeds exactly when both services do and the report is
      non-empty; then the cache gains the report under the request time, with the collection's
      `data_points` and the session id derived from that time. */
  lemma MissWritesCache(cache: Cache, req: Request, now: int, stamps: Stamps, svc: Services)
    requires !Text.AllSpace(req.sector)
    requires !Servable(cache, CacheKey(Text.Lower(Text.Strip(req.sector))), now)
    ensures var sector := Text.Lower(Text.Strip(req.sector));
      var r := AnalyzeSector(cache, req, now, stamps, svc);
      && (r.reply.Ok? <==> Succeeds(svc, sector))
      && (Succeeds(svc, sector) ==>
            var data := svc.collect(sector).value.data;
            r.cache == cache[CacheKey(sector) := CacheEntry(svc.analyze(data).value, now, stamps.createdAt,
                                                            data.dataPoints, SessionIdAt(now))])
  {
  }

  /** A collector error record becomes a 500 naming the error. */
  lemma CollectorErrorIs500(cache: Cache, req: Request, now: int, stamps: Stamps, svc: Services)
    requires !Text.AllSpace(req.sector)
    requires !Servable(cache, CacheKey(Text.Lower(Text.Strip(req.sector))), now)
    requires svc.collect(Text.Lower(Text.Strip(req.sector))).Returned?
    requires svc.collect(Text.Lower(Text.Strip(req.sector))).value.CollectionFailed?
    ensures AnalyzeSector(cache, req, now, stamps, svc)
         == Failure(cache, CollectorLead + svc.collect(Text.Lower(Text.Strip(req.sector))).value.error)
  {
  }

  /** Whether the artifact could be written changes neither the reply nor the cache: two runs
      whose services differ only in that flag end alike. */
  lemma FileWriteFailureIsolated(cache: Cache, req: Request, now: int, stamps: Stamps, writing: Services, failing: Services)
    requires writing.collect == failing.collect && writing.analyze == failing.analyze
    requires writing.inlineMarkup == failing.inlineMarkup
    requires writing.fileWriteSucceeds && !failing.fileWriteSucceeds
    ensures AnalyzeSector(cache, req, now, stamps, failing).reply == AnalyzeSector(cache, req, now, stamps, writing).reply
    ensures AnalyzeSector(cache, req, now, stamps, failing).cache == AnalyzeSector(cache, req, now, stamps, writing).cache
    ensures AnalyzeSector(cache, req, now, stamps, failing).artifact.None?
  {
    var normalized := NormalizeSector(req.sector);
    if normalized.Ok? && !Servable(cache, CacheKey(normalized.value), now) {
      GenerateIgnoresWrite(cache, normalized.value, req, now, stamps, writing, failing);
    }
  }

  /** The miss path with and without a successful write differs only in the artifact. */
  lemma GenerateIgnoresWrite(cache: Cache, sector: string, req: Request, now: int, stamps: Stamps,
                             writing: Services, failing: Services)
    requires writing.collect == failing.collect && writing.analyze == failing.analyze
    requires writing.inlineMarkup == failing.inlineMarkup
    requires !failing.fileWriteSucceeds
    ensures Generate(cache, sector, req, now, stamps, failing).reply == Generate(cache, sector, req, now, stamps, writing).reply
    ensures Generate(cache, sector, req, now, stamps, failing).cache == Generate(cache, sector, req, now, stamps, writing).cache
    ensures Generate(cache, sector, req, now, stamps, failing).artifact.None?
  {
    var collected := writing.collect(sector);
    if collected.Returned? && collected.value.Collected? {
      var data := collected.value.data;
      var analyzed := writing.analyze(data);
      if analyzed.Returned? && analyzed.value != "" {
        var a := Publish(cache, sector, req, data, analyzed.value, now, stamps, failing);
        var b := Publish(cache, sector, req, data, analyzed.value, now, stamps, writing);
        assert a.reply == b.reply && a.cache == b.cache;
      }
    }
  }

  /** A successful analysis is served again, unchanged and from the cache, to any request for
      the same sector within 1800 seconds, whatever the services would do by then. */
  lemma CacheRoundTrip(cache: Cache, req: Request, now: int, stamps: Stamps, svc: Services,
                       again: Request, later: int, laterStamps: Stamps, laterSvc: Services)
    requires !Text.AllSpace(req.sector)
    requires !Servable(cache, CacheKey(Text.Lower(Text.Strip(req.sector))), now)
    requires Succeeds(svc, Text.Lower(Text.Strip(req.sector)))
    requires Text.Lower(Text.Strip(again.sector)) == Text.Lower(Text.Strip(req.sector))
    requires now <= later < now + FreshFor
    ensures var sector := Text.Lower(Text.Strip(req.sector));
      var data := svc.collect(sector).value.data;
      var first := AnalyzeSector(cache, req, now, stamps, svc);
      AnalyzeSector(first.cache, again, later, laterStamps, laterSvc).reply
        == Ok(Json(AnalysisRecord(sector, svc.analyze(data).value, stamps.createdAt, data.dataPoints, SessionIdAt(now))))
  {
    var sector := Text.Lower(Text.Strip(req.sector));
    MissWritesCache(cache, req, now, stamps, svc);
    var first := AnalyzeSector(cache, req, now, stamps, svc);
    assert Text.Strip(req.sector) != "";
    assert !Text.AllSpace(again.sector);
    FreshEntryServed(first.cache, again, later, laterStamps, laterSvc);
  }

  /** In JSON mode the miss reply carries the report it caches: a repeat request within 1800
      seconds receives the same record, except that its `timestamp` is the cached `created_at`
      rather than the time of the first reply. */
  lemma MissThenHitAgrees(cache: Cache, req: Request, now: int, stamps: Stamps, svc: Services,
                          again: Request, later: int, laterStamps: Stamps, laterSvc: Services)
    requires !Text.AllSpace(req.sector)
    requires !Servable(cache, CacheKey(Text.Lower(Text.Strip(req.sector))), now)
    requires Succeeds(svc, Text.Lower(Text.Strip(req.sector)))
    requires !ApiGate.WantsHtml(req.format, req.userAgent, req.accept)
    requires Text.Lower(Text.Strip(again.sector)) == Text.Lower(Text.Strip(req.sector))
    requires now <= later < now + FreshFor
    ensures var first := AnalyzeSector(cache, req, now, stamps, svc);
      var second := AnalyzeSector(first.cache, again, later, laterStamps, laterSvc);
      && first.reply.Ok? && first.reply.value.Json?
      && second.reply == Ok(Json(first.reply.value.record.(timestamp := stamps.createdAt)))
  {
    var sector := Text.Lower(Text.Strip(req.sector));
    assert Text.Strip(req.sector) != "";
    var data := svc.collect(sector).value.data;
    var first := Generate(cache, sector, req, now, stamps, svc);
    assert first == Publish(cache, sector, req, data, svc.analyze(data).value, now, stamps, svc);
    CacheRoundTrip(cache, req, now, stamps, svc, again, later, laterStamps, laterSvc);
  }

  /** The analyzer of app/ai_analyzer.py never yields an empty report, so with it the
      "Failed to generate analysis report" error cannot happen. */
  lemma RealAnalyzerNeverEmpty(cache: Cache, req: Request, now: int, stamps: Stamps, svc: Services,
                               model: Option<string>, generate: string -> AiAnalyzer.Generation, stamp: string)
    requires forall d :: svc.analyze(d) == Returned(AiAnalyzer.AnalyzeSectorData(model, d, generate, stamp))
    ensures AnalyzeSector(cache, req, now, stamps, svc).reply != Err(ApiGate.HttpError(InternalError, EmptyReportMessage))
  {
    var normalized := NormalizeSector(req.sector);
    if normalized.Ok? && !Servable(cache, CacheKey(normalized.value), now) {
      GenerateWithRealAnalyzer(cache, normalized.value, req, now, stamps, svc, model, generate, stamp);
    }
  }

  lemma GenerateWithRealAnalyzer(cache: Cache, sector: string, req: Request, now: int, stamps: Stamps, svc: Services,
                                 model: Option<string>, generate: string -> AiAnalyzer.Generation, stamp: string)
    requires forall d :: svc.analyze(d) == Returned(AiAnalyzer.AnalyzeSectorData(model, d, generate, stamp))
    ensures Generate(cache, sector, req, now, stamps, svc).reply != Err(ApiGate.HttpError(InternalError, EmptyReportMessage))
  {
    var r := Generate(cache, sector, req, now, stamps, svc);
    var collected := svc.collect(sector);
    if collected.Raised? {
      assert r.reply.error.detail[0] == 'I';
    } else if collected.value.CollectionFailed? {
      assert r.reply.error.detail[0] == 'E';
    } else {
      AiAnalyzer.AnalysisNeverEmpty(model, collected.value.data, generate, stamp);
    }
  }

  /** The sweep inside `periodic_cleanup`: drop exactly the entries older than 3600 seconds. */
  function SweepCache(cache: Cache, now: int): (r: Cache)
    ensures forall k :: k in r <==> k in cache && now - cache[k].timestamp <= KeptFor
    ensures forall k :: k in r ==> r[k] == cache[k]
  {
    map k | k in cache && now - cache[k].timestamp <= KeptFor :: cache[k]
  }

  /** An entry aged between 1800 and 3600 seconds survives the sweep but is no longer served;
      one older than 3600 is gone. */
  lemma SweepAndServeWindows(cache: Cache, key: string, now: int)
    requires key in cache
    ensures key in SweepCache(cache, now) <==> now - cache[key].timestamp <= KeptFor
    ensures FreshFor <= now - cache[key].timestamp <= KeptFor ==>
      key in SweepCache(cache, now) && !Servable(SweepCache(cache, now), key, now)
    ensures Servable(cache, key, now) ==> Servable(SweepCache(cache, now), key, now)
  {
  }

  /** Sweeping just before a request never changes the reply: what the sweep drops could not
      have been served. */
  lemma SweepInvisibleToRequests(cache: Cache, req: Request, now: int, stamps: Stamps, svc: Services)
    ensures AnalyzeSector(SweepCache(cache, now), req, now, stamps, svc).reply
         == AnalyzeSector(cache, req, now, stamps, svc).reply
  {
    var swept := SweepCache(cache, now);
    var normalized := NormalizeSector(req.sector);
    if normalized.Ok? {
      var key := CacheKey(normalized.value);
      if key in cache {
        SweepAndServeWindows(cache, key, now);
      }
      assert Servable(swept, key, now) <==> Servable(cache, key, now);
      if !Servable(cache, key, now) {
        GenerateReplyIgnoresCache(swept, cache, normalized.value, req, now, stamps, svc);
      }
    }
  }

  /** On a miss the reply does not depend on what else the cache holds. */
  lemma GenerateReplyIgnoresCache(c1: Cache, c2: Cache, sector: string, req: Request, now: int, stamps: Stamps, svc: Services)
    ensures Generate(c1, sector, req, now, stamps, svc).reply == Generate(c2, sector, req, now, stamps, svc).reply
  {
    var collected := svc.collect(sector);
    if collected.Returned? && collected.value.Collected? {
      var data := collected.value.data;
      var analyzed := svc.analyze(data);
      if analyzed.Returned? && analyzed.value != "" {
        var a := Publish(c1, sector, req, data, analyzed.value, now, stamps, svc);
        var b := Publish(c2, sector, req, data, analyzed.value, now, stamps, svc);
        assert a.reply == b.reply;
      }
    }
  }

  /** The state the periodic task sweeps. */
  datatype ServiceState = ServiceState(sessions: Auth.Sessions, rateStorage: RateLimiter.Storage, cache: Cache)

  /** One round of `periodic_cleanup`: expire sessions, sweep the rate-limit storage, then the
      cache. Afterwards every session is at most a day old, every identity has a timestamp
      younger than an hour and keeps only those, and every cached analysis is at most an hour
      old; nothing within those bounds is dropped, and kept sessions and analyses are unchanged. */
  function PeriodicCleanup(s: ServiceState, now: int): (r: ServiceState)
    ensures forall id :: id in r.sessions <==> id in s.sessions && now - s.sessions[id].createdAt <= Auth.SessionLifetime
    ensures forall id :: id in r.sessions ==> r.sessions[id] == s.sessions[id]
    ensures forall k :: k in r.rateStorage <==> k in s.rateStorage && RateLimiter.ActiveAt(s.rateStorage[k], now)
    ensures forall k :: k in r.rateStorage ==>
      forall t :: t in r.rateStorage[k].requests <==> t in s.rateStorage[k].requests && now - t < RateLimiter.HourWindow
    ensures forall k :: k in r.rateStorage ==>
      r.rateStorage[k] == RateLimiter.Entry(RateLimiter.Recent(s.rateStorage[k].requests, now, RateLimiter.HourWindow),
                                            s.rateStorage[k].lastCleanup)
    ensures forall k :: k in r.cache <==> k in s.cache && now - s.cache[k].timestamp <= KeptFor
    ensures forall k :: k in r.cache ==> r.cache[k] == s.cache[k]
  {
    ServiceState(
      Auth.CleanupExpiredSessions(s.sessions, now),
      RateLimiter.CleanupStorage(s.rateStorage, now),
      SweepCache(s.cache, now))
  }

  /** A second round at the same instant finds nothing more to do. */
  lemma PeriodicCleanupIdempotent(s: ServiceState, now: int)
    ensures PeriodicCleanup(PeriodicCleanup(s, now), now) == PeriodicCleanup(s, now)
  {
    var once := PeriodicCleanup(s, now);
    RateLimiter.SweepIdempotent(s.rateStorage, now);
    assert Auth.CleanupExpiredSessions(once.sessions, now) == once.sessions;
    assert SweepCache(once.cache, now) == once.cache;
  }

  /** The whole endpoint: the key check runs first, and any refusal is rendered by the HTTP
      exception handler under its own status. */
  datatype Served = Served(status: int, body: Result<Reply, ApiGate.ErrorResponse>, cache: Cache, artifact: Option<string>)

  function HandleAnalyze(configured: string, keyHeader: Option<string>,
                         cache: Cache, req: Request, now: int, stamps: Stamps, svc: Services): (r: Served)
    ensures var gate := ApiGate.VerifyApiKey(configured, keyHeader, req.apiKeyQuery);
      gate.Denied? ==>
        && r.status == ApiGate.Unauthorized && r.cache == cache && r.artifact.None?
        && r.body == Err(ApiGate.HttpExceptionResponse(gate.error, stamps.respondedAt))
    ensures ApiGate.VerifyApiKey(configured, keyHeader, req.apiKeyQuery).Admitted? ==>
      var o := AnalyzeSector(cache, req, now, stamps, svc);
      && r.cache == o.cache && r.artifact == o.artifact
      && (r.body.Ok? <==> o.reply.Ok?)
      && (o.reply.Ok? ==> r.body.value == o.reply.value)
      && (o.reply.Err? ==> r.status == o.reply.error.status
                           && r.body == Err(ApiGate.HttpExceptionResponse(o.reply.error, stamps.respondedAt)))
    ensures r.body.Ok? <==> r.status == Ok200
    ensures r.body.Err? ==> r.body.error.status == r.status && r.cache == cache
  {
    var gate := ApiGate.VerifyApiKey(configured, keyHeader, req.apiKeyQuery);
    if gate.Denied? then
      Served(gate.error.status, Err(ApiGate.HttpExceptionResponse(gate.error, stamps.respondedAt)), cache, None)
    else
      var o := AnalyzeSector(cache, req, now, stamps, svc);
      if o.reply.Ok? then Served(Ok200, Ok(o.reply.value), o.cache, o.artifact)
      else Served(o.reply.error.status, Err(ApiGate.HttpExceptionResponse(o.reply.error, stamps.respondedAt)), o.cache, o.artifact)
  }
}
