/**
 * Values handled by the audit-logging helper: the incoming request and
 * response, the per-call audit options, the audit records it builds and the
 * payloads it hands to the logging sink.
 *
 * JavaScript field values are dynamically typed (a record field holds a
 * string, a number or a string map, and the same field holds the string
 * "N/A" when the source object is absent), so record fields are `Value`s.
 */
module AuditTypes {

  datatype Option<+T> = None | Some(value: T)

  /** A field value of an audit record: a string, an integer or a flat string map. */
  datatype Value = Text(s: string) | Number(n: int) | Dict(entries: map<string, string>)

  /** The sentinel written in every field of a record whose source is absent. */
  const NotAvailable: Value := Text("N/A")

  /** The token that replaces the value of a masked query parameter. */
  const Mask: string := "XXXXX"

  /**
   * An incoming request. `timestamp` is the point in time the request was
   * stamped with, in epoch milliseconds; an absent `additionalAudit` is the
   * empty map.
   */
  datatype Request = Request(
    httpMethod: string,
    url: string,
    query: map<string, string>,
    headers: map<string, string>,
    body: Value,
    timestamp: int,
    additionalAudit: map<string, Value>)

  /** An outgoing response; its body is already a string. */
  datatype Response = Response(statusCode: int, body: string, timestamp: int)

  /** `options.request`: the toggle and the two redaction lists. */
  datatype RequestOptions = RequestOptions(audit: bool, maskQuery: seq<string>, excludeHeaders: seq<string>)

  /** `options.response`: the toggle. */
  datatype ResponseOptions = ResponseOptions(audit: bool)

  datatype AuditOptions = AuditOptions(request: RequestOptions, response: ResponseOptions)

  /**
   * The two library formatters the records use: ISO-8601 rendering of an
   * epoch-millisecond timestamp and JSON serialisation of a request body.
   */
  datatype Formatter = Formatter(isoString: int -> string, serialize: Value -> string)

  /** The request section (`httpMethod` is the `method` field): `method, url, query, headers, timestamp, timestamp_ms, body`. */
  datatype RequestRecord = RequestRecord(
    httpMethod: Value,
    url: Value,
    query: Value,
    headers: Value,
    timestamp: Value,
    timestampMs: Value,
    body: Value)

  /** The response section: `status_code, timestamp, timestamp_ms, elapsed, body`. */
  datatype ResponseRecord = ResponseRecord(
    statusCode: Value,
    timestamp: Value,
    timestampMs: Value,
    elapsed: Value,
    body: Value)

  /**
   * What `auditRequest` logs: `{ request: <record or undefined>, ...additional }`.
   * `request == None` is the explicit `undefined` of a switched-off section;
   * `additional` holds the top-level siblings of `request`.
   */
  datatype RequestPayload = RequestPayload(request: Option<RequestRecord>, additional: map<string, Value>)

  /** What `auditResponse` logs: `{ request: <record or undefined>, response: <record or undefined> }`. */
  datatype ResponsePayload = ResponsePayload(request: Option<RequestRecord>, response: Option<ResponseRecord>)
}
