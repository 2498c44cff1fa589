/**
 * The request gate and response shaping of app/main.py: the API-key check that
 * guards the analysis endpoint, the choice between the HTML page and the JSON
 * record, and the bodies produced by the two exception handlers.
 *
 * Request headers and query parameters are optional strings; the configured
 * key and the DEBUG flag are parameters.
 */
module ApiGate {
  import opened Basics
  import Text

  /** An `HTTPException`: a status code and its detail text. */
  datatype HttpError = HttpError(status: int, detail: string)

  const Unauthorized := 401
  const InternalError := 500

  const KeyRejection := "Invalid or missing " + "API Key. Use header " + "'x-api-key' or query " + "parameter " + "'?api_key=your-key'."

  /** The keys accepted besides the configured one. */
  const DemoKeys: seq<string> := ["demo-key-123", "guest-access-456", "public-api-789"]

  /** `valid_api_keys`: the configured key first, then the demo keys. */
  function ValidKeys(configured: string): seq<string> {
    [configured] + DemoKeys
  }

  /** The key a request presents: Python's `header or query`, so an empty header counts as absent. */
  function PresentedKey(header: Option<string>, query: Option<string>): (r: Option<string>)
    ensures r == header || r == query
    ensures header.Some? && header.value != "" ==> r == header
    ensures header.None? || header.value == "" ==> r == query
  {
    if header.Some? && header.value != "" then header else query
  }

  /** Whether the gate lets a request through. */
  datatype Gate = Admitted | Denied(error: HttpError)

  /** `verify_api_key`: admit iff the presented key is non-empty and one of the valid keys;
      every other request is refused with 401 and the same explanation. */
  function VerifyApiKey(configured: string, header: Option<string>, query: Option<string>): (r: Gate)
    ensures r.Admitted? <==>
      exists key :: key in ValidKeys(configured) && key != ""
        && ((header == Some(key)) || ((header.None? || header.value == "") && query == Some(key)))
    ensures r.Denied? ==> r.error == HttpError(Unauthorized, KeyRejection)
  {
    var key := PresentedKey(header, query);
    if key.None? || key.value == "" || key.value !in ValidKeys(configured) then
      Denied(HttpError(Unauthorized, KeyRejection))
    else
      assert key.value in ValidKeys(configured);
      Admitted
  }

  /** A valid non-empty header decides alone: the query parameter is not looked at. */
  lemma HeaderTakesPrecedence(configured: string, key: string, query: Option<string>)
    requires key != "" && key in ValidKeys(configured)
    ensures VerifyApiKey(configured, Some(key), query) == Admitted
  {
  }

  /** A non-empty header that is not a valid key is refused even when the query carries a valid one. */
  lemma InvalidHeaderShadowsQuery(configured: string, header: string, query: string)
    requires header != "" && header !in ValidKeys(configured)
    requires query in ValidKeys(configured)
    ensures VerifyApiKey(configured, Some(header), Some(query)).Denied?
  {
  }

  /** Each demo key is accepted from the query string whatever key is configured. */
  lemma DemoKeysAdmitted(configured: string, i: nat)
    requires i < |DemoKeys|
    ensures VerifyApiKey(configured, None, Some(DemoKeys[i])) == Admitted
    ensures VerifyApiKey(configured, Some(""), Some(DemoKeys[i])) == Admitted
  {
    assert DemoKeys[i] in ValidKeys(configured);
  }

  /** No request without a non-empty key gets through, not even when the configured key is empty. */
  lemma EmptyKeyNeverAdmitted(configured: string, header: Option<string>, query: Option<string>)
    requires header.None? || header.value == ""
    requires query.None? || query.value == ""
    ensures VerifyApiKey(configured, header, query).Denied?
  {
  }

  /** The browser tokens looked for in the lowercased User-Agent header. */
  const BrowserTokens: seq<string> := ["mozilla", "chrome", "safari"]

  /** A User-Agent (absent counts as empty) that names one of the browser tokens, in any letter case. */
  predicate BrowserLike(userAgent: Option<string>) {
    exists token :: token in BrowserTokens && Text.Contains(Text.Lower(userAgent.OrElse("")), token)
  }

  /** Whether the reply is the HTML page: an explicit `format=html`, or `format=auto` from a
      browser-like User-Agent whose Accept header asks for `text/html`; both headers are
      compared lowercased and default to the empty string. */
  function WantsHtml(format: string, userAgent: Option<string>, accept: Option<string>): (r: bool)
    ensures format == "html" ==> r
    ensures r ==> format == "html" || format == "auto"
    ensures format == "auto" && r ==> BrowserLike(userAgent)
    ensures format == "auto" && r ==> Text.Contains(Text.Lower(accept.OrElse("")), "text/html")
  {
    var ua := Text.Lower(userAgent.OrElse(""));
    var acc := Text.Lower(accept.OrElse(""));
    format == "html"
      || (format == "auto"
          && (Text.Contains(ua, "mozilla") || Text.Contains(ua, "chrome") || Text.Contains(ua, "safari"))
          && Text.Contains(acc, "text/html"))
  }

  /** Without an Accept header, `auto` always answers with JSON, whatever the User-Agent. */
  lemma AutoWithoutAcceptIsJson(userAgent: Option<string>)
    ensures !WantsHtml("auto", userAgent, None)
  {
    assert !Text.Contains("", "text/html");
  }

  /** Under `auto`, a client whose User-Agent names no browser gets JSON whatever it accepts. */
  lemma NonBrowserGetsJson(userAgent: Option<string>, accept: Option<string>)
    requires !BrowserLike(userAgent)
    ensures !WantsHtml("auto", userAgent, accept)
  {
  }

  /** Under `auto`, a browser-like User-Agent asking for HTML gets the page, whichever of the
      three tokens it names and in whatever letter case it sends its headers. */
  lemma BrowserGetsHtml(userAgent: string, accept: string)
    requires BrowserLike(Some(userAgent))
    requires Text.Contains(Text.Lower(accept), "text/html")
    ensures WantsHtml("auto", Some(userAgent), Some(accept))
  {
    var token :| token in BrowserTokens && Text.Contains(Text.Lower(userAgent), token);
  }

  /** Lowercasing the headers beforehand does not change the choice. */
  lemma HeaderCaseIrrelevant(format: string, userAgent: string, accept: string)
    ensures WantsHtml(format, Some(Text.Lower(userAgent)), Some(Text.Lower(accept)))
         == WantsHtml(format, Some(userAgent), Some(accept))
  {
    Text.LowerIdempotent(userAgent);
    Text.LowerIdempotent(accept);
  }

  /** The JSON body of an error reply, with the status it is sent under. */
  datatype ErrorResponse = ErrorResponse(status: int, error: string, detail: string, timestamp: string)

  const StatusLabel := "Status code: "

  /** `http_exception_handler`: the exception's detail becomes `error`, and `detail` names the status. */
  function HttpExceptionResponse(e: HttpError, stamp: string): (r: ErrorResponse)
    ensures r.status == e.status && r.error == e.detail && r.timestamp == stamp
    ensures StatusLabel <= r.detail
  {
    ErrorResponse(e.status, e.detail, StatusLabel + Text.IntToString(e.status), stamp)
  }

  /** The status can be read back from the reply's `detail`. */
  lemma StatusRecoverable(e: HttpError, stamp: string)
    ensures var d := HttpExceptionResponse(e, stamp).detail;
      && |d| > |StatusLabel|
      && Text.ParseInt(d[|StatusLabel|..]) == e.status
  {
    var d := HttpExceptionResponse(e, stamp).detail;
    assert d[|StatusLabel|..] == Text.IntToString(e.status);
    Text.ParseIntToString(e.status);
  }

  const GenericDetail := "An unexpected " + "error occurred"

  /** `general_exception_handler`: always 500; the exception text is shown only in DEBUG mode. */
  function GeneralExceptionResponse(message: string, debug: bool, stamp: string): (r: ErrorResponse)
    ensures r.status == InternalError && r.error == "Internal server error" && r.timestamp == stamp
    ensures debug ==> r.detail == message
    ensures !debug ==> r.detail == GenericDetail
  {
    ErrorResponse(InternalError, "Internal server error", if debug then message else GenericDetail, stamp)
  }

  /** Outside DEBUG mode two different failures produce the same reply: nothing of the
      exception text leaks. */
  lemma NoLeakWithoutDebug(m1: string, m2: string, stamp: string)
    ensures GeneralExceptionResponse(m1, false, stamp) == GeneralExceptionResponse(m2, false, stamp)
  {
  }
}
