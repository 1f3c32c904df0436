/**
 * The two entry points of the audit helper, `auditRequest` and
 * `auditResponse`. Each asks the URL gate first; when the gate refuses,
 * nothing is logged. Otherwise each builds the sections its audit toggles ask
 * for (a switched-off section is present as `undefined`) and logs the payload
 * once. The single call to the logging sink is the returned `Some(payload)`;
 * `None` means the sink was never called.
 */
module LoggerHelper {
  import opened AuditTypes
  import opened Redaction
  import opened RecordBuilders

  /** The URL the gate is asked about; an absent request has none. */
  function UrlOf(req: Option<Request>): (u: Option<string>)
  {
    match req
    case None => None
    case Some(q) => Some(q.url)
  }

  /** The timestamp `elapsed` is measured from; an absent request has none. */
  function TimestampOf(req: Option<Request>): (t: Option<int>)
  {
    match req
    case None => None
    case Some(q) => Some(q.timestamp)
  }

  /**
   * `auditRequest`: logs `{ request: <record or undefined>, ...additionalAudit }`
   * exactly when the gate accepts the request's URL.
   */
  function AuditRequest(req: Request, opts: AuditOptions, shouldAuditURL: Option<string> -> bool, fmt: Formatter)
    : (r: Option<RequestPayload>)
    ensures r.Some? <==> shouldAuditURL(Some(req.url))
    ensures r.Some? ==> (r.value.request.Some? <==> opts.request.audit)
    ensures r.Some? && opts.request.audit ==>
      r.value.request.value == BuildRequestRecord(Some(req), opts.request, fmt)
    ensures r.Some? ==> r.value.additional == req.additionalAudit
  {
    if !shouldAuditURL(Some(req.url)) then None
    else
      var section := if opts.request.audit then Some(BuildRequestRecord(Some(req), opts.request, fmt)) else None;
      Some(RequestPayload(section, req.additionalAudit))
  }

  /**
   * `auditResponse`: logs `{ request: <record or undefined>, response: <record or undefined> }`
   * exactly when the gate accepts the request's URL. No test sets
   * `additionalAudit` for `auditResponse`; the model logs no extra fields
   * here. A present response needs its request, whose timestamp `elapsed` is
   * measured from.
   */
  function AuditResponse(
    req: Option<Request>, resp: Option<Response>, opts: AuditOptions,
    shouldAuditURL: Option<string> -> bool, fmt: Formatter)
    : (r: Option<ResponsePayload>)
    requires resp.Some? ==> req.Some?
    ensures r.Some? <==> shouldAuditURL(UrlOf(req))
    ensures r.Some? ==> (r.value.request.Some? <==> opts.request.audit)
    ensures r.Some? ==> (r.value.response.Some? <==> opts.response.audit)
    ensures r.Some? && opts.request.audit ==>
      r.value.request.value == BuildRequestRecord(req, opts.request, fmt)
    ensures r.Some? && opts.response.audit ==>
      r.value.response.value == BuildResponseRecord(resp, TimestampOf(req), fmt)
  {
    if !shouldAuditURL(UrlOf(req)) then None
    else
      var request := if opts.request.audit then Some(BuildRequestRecord(req, opts.request, fmt)) else None;
      var response := if opts.response.audit then Some(BuildResponseRecord(resp, TimestampOf(req), fmt)) else None;
      Some(ResponsePayload(request, response))
  }

  /** A gate that refuses the URL keeps both entry points from calling the sink. */
  lemma RefusedUrlLogsNothing(
    req: Request, resp: Option<Response>, opts: AuditOptions,
    shouldAuditURL: Option<string> -> bool, fmt: Formatter)
    requires !shouldAuditURL(Some(req.url))
    ensures AuditRequest(req, opts, shouldAuditURL, fmt) == None
    ensures AuditResponse(Some(req), resp, opts, shouldAuditURL, fmt) == None
  {
  }

  /** With the request section switched off and no additional audit, `auditRequest` logs exactly `{ request: undefined }`. */
  lemma RequestAuditOffLogsUndefined(req: Request, opts: AuditOptions, shouldAuditURL: Option<string> -> bool, fmt: Formatter)
    requires shouldAuditURL(Some(req.url)) && !opts.request.audit && req.additionalAudit == map[]
    ensures AuditRequest(req, opts, shouldAuditURL, fmt) == Some(RequestPayload(None, map[]))
  {
  }

  /**
   * Additional audit fields sit beside the request section and leave it
   * unchanged: the payload with them differs from the one without them only
   * in its additional fields.
   */
  lemma AdditionalAuditOnlyAddsSiblings(
    req: Request, extra: map<string, Value>, opts: AuditOptions,
    shouldAuditURL: Option<string> -> bool, fmt: Formatter)
    requires shouldAuditURL(Some(req.url))
    ensures
      var plain := AuditRequest(req.(additionalAudit := map[]), opts, shouldAuditURL, fmt);
      var merged := AuditRequest(req.(additionalAudit := extra), opts, shouldAuditURL, fmt);
      && plain.Some? && merged.Some?
      && merged.value == plain.value.(additional := extra)
      && plain.value.additional == map[]
  {
  }

  /**
   * Both entry points log the same request section: the one `auditResponse`
   * logs beside the response is the one `auditRequest` logs for that request.
   */
  lemma SameRequestSectionInBoth(
    req: Request, resp: Option<Response>, opts: AuditOptions,
    shouldAuditURL: Option<string> -> bool, fmt: Formatter)
    requires shouldAuditURL(Some(req.url))
    ensures
      var a := AuditRequest(req, opts, shouldAuditURL, fmt);
      var b := AuditResponse(Some(req), resp, opts, shouldAuditURL, fmt);
      a.Some? && b.Some? && a.value.request == b.value.request
  {
  }

  /**
   * `auditResponse` with neither request nor response logs the two sentinel
   * records: "N/A" everywhere, except the response's `elapsed`, which is 0.
   */
  lemma AbsentRequestAndResponseLogSentinels(opts: AuditOptions, shouldAuditURL: Option<string> -> bool, fmt: Formatter)
    requires shouldAuditURL(None) && opts.request.audit && opts.response.audit
    ensures AuditResponse(None, None, opts, shouldAuditURL, fmt) == Some(ResponsePayload(
      Some(RequestRecord(Text("N/A"), Text("N/A"), Text("N/A"), Text("N/A"), Text("N/A"), Text("N/A"), Text("N/A"))),
      Some(ResponseRecord(Text("N/A"), Text("N/A"), Text("N/A"), Number(0), Text("N/A")))))
  {
  }

  /** The logged response section measures `elapsed` from the request's timestamp, whatever the request toggle says. */
  lemma LoggedElapsedIsTimestampGap(
    req: Request, resp: Response, opts: AuditOptions,
    shouldAuditURL: Option<string> -> bool, fmt: Formatter)
    requires shouldAuditURL(Some(req.url)) && opts.response.audit
    ensures
      var r := AuditResponse(Some(req), Some(resp), opts, shouldAuditURL, fmt);
      && r.Some? && r.value.response.Some?
      && r.value.response.value.elapsed == Number(resp.timestamp - req.timestamp)
      && r.value.response.value.statusCode == Number(resp.statusCode)
      && r.value.response.value.body == Text(resp.body)
  {
  }

  /** The request of the test fixture, stamped at `t0`. */
  function FixtureRequest(t0: int): Request
  {
    Request("POST", "somepath/123", FixtureQuery, map["header1" := "some-value"],
            Dict(map["body" := "body"]), t0, map[])
  }

  /** With `maskQuery = ["q1"]`, the fixture's logged query is `{ q1: "XXXXX", q2: "fishy" }` and all else is as sent. */
  lemma FixtureMaskedRequestAudit(t0: int, shouldAuditURL: Option<string> -> bool, fmt: Formatter)
    requires shouldAuditURL(Some("somepath/123"))
    ensures
      var opts := AuditOptions(RequestOptions(true, ["q1"], []), ResponseOptions(true));
      AuditRequest(FixtureRequest(t0), opts, shouldAuditURL, fmt) == Some(RequestPayload(Some(RequestRecord(
        Text("POST"), Text("somepath/123"),
        Dict(map["q1" := "XXXXX", "q2" := "fishy"]),
        Dict(map["header1" := "some-value"]),
        Text(fmt.isoString(t0)), Number(t0),
        Text(fmt.serialize(Dict(map["body" := "body"]))))), map[]))
  {
    MaskOneParameter();
    ExcludeAbsentHeadersIsIdentity(map["header1" := "some-value"], []);
  }

  /**
   * With both sections on and no redaction, `auditResponse` on the fixture
   * request and a 200 response stamped at `t1` logs the full expected request
   * record beside the full expected response record.
   */
  lemma FixtureResponseAudit(t0: int, t1: int, body: string, shouldAuditURL: Option<string> -> bool, fmt: Formatter)
    requires shouldAuditURL(Some("somepath/123"))
    ensures
      var opts := AuditOptions(RequestOptions(true, [], []), ResponseOptions(true));
      AuditResponse(Some(FixtureRequest(t0)), Some(Response(200, body, t1)), opts, shouldAuditURL, fmt)
      == Some(ResponsePayload(
        Some(RequestRecord(
          Text("POST"), Text("somepath/123"),
          Dict(map["q1" := "something", "q2" := "fishy"]),
          Dict(map["header1" := "some-value"]),
          Text(fmt.isoString(t0)), Number(t0),
          Text(fmt.serialize(Dict(map["body" := "body"]))))),
        Some(ResponseRecord(Number(200), Text(fmt.isoString(t1)), Number(t1), Number(t1 - t0), Text(body)))))
  {
  }
}
