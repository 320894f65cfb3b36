/** The `/analyze` request handler: scheme prefixing of the submitted URL, the
    fetch and its acceptance test, then the on-page analysis.

    The network is a parameter: `fetch` says what `requests.get` does for a
    given URL, either a response (its status code and its body, already
    parsed) or an exception with its message. */
module App {
  import opened Wrappers
  import opened PyStrings
  import opened Soup
  import opened SeoAnalysis

  const SchemeStart := "http"
  const DefaultScheme := "http://"
  const StatusOk := 200

  const FailedFetchMessage := "Failed to fetch the URL"
  const FetchErrorPrefix := "Error fetching URL: "

  /** The submitted URL after scheme prefixing: any input that does not start
      with `http` gets `http://` in front; nothing is trimmed or validated. */
  function NormalizeUrl(url: string): (r: string)
    ensures StartsWith(r, SchemeStart)
    ensures StartsWith(url, SchemeStart) ==> r == url
    ensures !StartsWith(url, SchemeStart) ==> r == DefaultScheme + url
  {
    if StartsWith(url, SchemeStart) then url else DefaultScheme + url
  }

  /** Prefixing twice is prefixing once. */
  lemma NormalizeUrlIdempotent(url: string)
    ensures NormalizeUrl(NormalizeUrl(url)) == NormalizeUrl(url)
  {
  }

  /** The test is a plain prefix test: `httpbin.org` keeps no scheme, an
      upper-case `HTTPS://` scheme is not recognised, and an empty input
      becomes `http://`. */
  lemma NormalizeUrlExamples()
    ensures NormalizeUrl("httpbin.org") == "httpbin.org"
    ensures NormalizeUrl("HTTPS://example.com") == "http://HTTPS://example.com"
    ensures NormalizeUrl("example.com") == "http://example.com"
    ensures NormalizeUrl("") == "http://"
  {
    assert StartsWith("httpbin.org", SchemeStart) by {
      assert "httpbin.org"[..4] == "http";
    }
    assert !StartsWith("HTTPS://example.com", SchemeStart) by {
      assert "HTTPS://example.com"[0] != SchemeStart[0];
    }
    assert !StartsWith("example.com", SchemeStart) by {
      assert "example.com"[0] != SchemeStart[0];
    }
  }

  /** The response is used only when its status code is exactly 200. */
  predicate FetchAccepted(status: int) {
    status == StatusOk
  }

  datatype FetchOutcome = Response(status: int, document: Document) | Raised(message: string)

  /** Why the handler fails with an uncaught exception: the form has no `url`
      field, or the analysis itself fails. */
  datatype Crash = MissingUrlField | AnalysisCrashed(error: AnalysisError)

  /** What the handler answers: the results page, the index page with an
      error message, or an internal server error. */
  datatype Page =
    | ResultsPage(analysis: SeoReport)
    | IndexWithError(error: string)
    | ServerError(cause: Crash)

  /** What the handler answers once the fetch of the prefixed URL is over: the
      exception's message, the generic failure for any status but 200, or the
      analysis of the page. */
  function Respond(outcome: FetchOutcome): (p: Page)
    ensures p.ResultsPage? <==>
      outcome.Response? && FetchAccepted(outcome.status) && BasicSeoAnalysis(outcome.document).Ok?
    ensures p.ResultsPage? ==> p.analysis == BasicSeoAnalysis(outcome.document).value
    ensures outcome.Response? && !FetchAccepted(outcome.status) ==> p == IndexWithError(FailedFetchMessage)
    ensures outcome.Raised? ==> p == IndexWithError(FetchErrorPrefix + outcome.message)
    ensures outcome.Response? && FetchAccepted(outcome.status) && BasicSeoAnalysis(outcome.document).Err? ==>
      p == ServerError(AnalysisCrashed(BasicSeoAnalysis(outcome.document).error))
    ensures p.ServerError? ==> p.cause.AnalysisCrashed?
  {
    match outcome
    case Raised(message) => IndexWithError(FetchErrorPrefix + message)
    case Response(status, document) =>
      if !FetchAccepted(status) then IndexWithError(FailedFetchMessage)
      else
        match BasicSeoAnalysis(document)
        case Err(e) => ServerError(AnalysisCrashed(e))
        case Ok(report) => ResultsPage(report)
  }

  /** `analyze()` without the performance-API call: a missing `url` field is a
      server error; otherwise the prefixed URL is fetched and the outcome
      answered. */
  function Analyze(form: Option<string>, fetch: string -> FetchOutcome): (p: Page)
    ensures form.None? <==> p == ServerError(MissingUrlField)
    ensures form.Some? ==> p == Respond(fetch(NormalizeUrl(form.value)))
  {
    match form
    case None => ServerError(MissingUrlField)
    case Some(raw) => Respond(fetch(NormalizeUrl(raw)))
  }

  /** For a page that can be analysed, the results page appears exactly when
      the status is 200, so every other 2xx status gives the error page too. */
  lemma OnlyStatus200IsAnalysed(status: int, doc: Document)
    requires BasicSeoAnalysis(doc).Ok?
    ensures Respond(Response(status, doc)).ResultsPage? <==> status == 200
    ensures 200 < status < 300 ==> Respond(Response(status, doc)) == IndexWithError(FailedFetchMessage)
  {
  }

  /** The only URL fetched is the prefixed one: two networks that agree on it
      give the same page. */
  lemma AnalyzeFetchesNormalizedUrl(raw: string, f1: string -> FetchOutcome, f2: string -> FetchOutcome)
    requires f1(NormalizeUrl(raw)) == f2(NormalizeUrl(raw))
    ensures Analyze(Some(raw), f1) == Analyze(Some(raw), f2)
  {
  }
}
