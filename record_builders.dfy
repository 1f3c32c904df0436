/**
 * The two record builders. Each turns its source object into an audit record,
 * or into the "N/A" sentinel record when the object is absent.
 */
module RecordBuilders {
  import opened AuditTypes
  import opened Redaction

  /**
   * The request section. Method and URL are copied, the query is masked, the
   * excluded headers are dropped, the timestamp is given in both forms and the
   * body is serialised. An absent request gives "N/A" in every field.
   */
  function BuildRequestRecord(req: Option<Request>, opts: RequestOptions, fmt: Formatter): (r: RequestRecord)
    ensures req.None? ==>
      r == RequestRecord(NotAvailable, NotAvailable, NotAvailable, NotAvailable, NotAvailable, NotAvailable, NotAvailable)
    ensures req.Some? ==> r.httpMethod == Text(req.value.httpMethod) && r.url == Text(req.value.url)
    ensures req.Some? ==> r.query.Dict? && IsMaskedCopy(req.value.query, opts.maskQuery, r.query.entries)
    ensures req.Some? ==> r.headers.Dict? && IsFilteredCopy(req.value.headers, opts.excludeHeaders, r.headers.entries)
    ensures req.Some? ==>
      r.timestamp == Text(fmt.isoString(req.value.timestamp)) && r.timestampMs == Number(req.value.timestamp)
    ensures req.Some? ==> r.body == Text(fmt.serialize(req.value.body))
  {
    match req
    case None =>
      RequestRecord(NotAvailable, NotAvailable, NotAvailable, NotAvailable, NotAvailable, NotAvailable, NotAvailable)
    case Some(q) =>
      RequestRecord(
        Text(q.httpMethod),
        Text(q.url),
        Dict(MaskQuery(q.query, opts.maskQuery)),
        Dict(ExcludeHeaders(q.headers, opts.excludeHeaders)),
        Text(fmt.isoString(q.timestamp)),
        Number(q.timestamp),
        Text(fmt.serialize(q.body)))
  }

  /**
   * The response section. Status code and body are copied, the timestamp is
   * given in both forms, and `elapsed` is the response timestamp minus the
   * paired request's. An absent response gives "N/A" in every field except
   * `elapsed`, which is 0. A present response needs the request's timestamp.
   */
  function BuildResponseRecord(resp: Option<Response>, requestTimestamp: Option<int>, fmt: Formatter): (r: ResponseRecord)
    requires resp.Some? ==> requestTimestamp.Some?
    ensures resp.None? ==> r == ResponseRecord(NotAvailable, NotAvailable, NotAvailable, Number(0), NotAvailable)
    ensures resp.Some? ==> r.statusCode == Number(resp.value.statusCode) && r.body == Text(resp.value.body)
    ensures resp.Some? ==>
      r.timestamp == Text(fmt.isoString(resp.value.timestamp)) && r.timestampMs == Number(resp.value.timestamp)
    ensures resp.Some? ==> r.elapsed == Number(resp.value.timestamp - requestTimestamp.value)
  {
    match resp
    case None =>
      ResponseRecord(NotAvailable, NotAvailable, NotAvailable, Number(0), NotAvailable)
    case Some(p) =>
      ResponseRecord(
        Number(p.statusCode),
        Text(fmt.isoString(p.timestamp)),
        Number(p.timestamp),
        Number(p.timestamp - requestTimestamp.value),
        Text(p.body))
  }

  /**
   * For a present request and response, `elapsed` is the gap between the two
   * records' `timestamp_ms` fields, and it is not negative when the response
   * was stamped no earlier than the request.
   */
  lemma ElapsedSpansTimestamps(req: Request, resp: Response, opts: RequestOptions, fmt: Formatter)
    ensures
      var q := BuildRequestRecord(Some(req), opts, fmt);
      var p := BuildResponseRecord(Some(resp), Some(req.timestamp), fmt);
      && q.timestampMs.Number? && p.timestampMs.Number? && p.elapsed.Number?
      && p.timestampMs.n == q.timestampMs.n + p.elapsed.n
      && (resp.timestamp >= req.timestamp ==> p.elapsed.n >= 0)
  {
  }
}
