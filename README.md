# Audit-record construction of express-request-logger

A Dafny model of the audit helper `lib/logger-helper` of express-request-logger,
as its test suite `test/logger-helper-test.js` pins it down. The helper has two
entry points:

- `auditRequest(request, options)` asks the URL gate (`utils.shouldAuditURL`);
  if the gate refuses, nothing is logged. Otherwise it logs
  `{ request: <record or undefined>, ...request.additionalAudit }` once.
- `auditResponse(request, response, options)` asks the same gate and then logs
  `{ request: <record or undefined>, response: <record or undefined> }` once.

A section whose `audit` toggle is off is present as `undefined`; it is not
dropped. The request record copies `method` and `url`. It masks the query
parameters named in `maskQuery` with `"XXXXX"` and drops the headers named in
`excludeHeaders`. It gives the timestamp as an ISO string and in epoch
milliseconds, and it serialises the body. The response record copies the status
code and body, gives the timestamp in both forms, and sets `elapsed` to the
response timestamp minus the request timestamp. An absent request or response
gives a record with `"N/A"` in every field, except the response's `elapsed`,
which is `0`.

How the model is laid out:

- `AuditTypes` (audit_types.dfy) holds the inputs, options, records and payloads.
  Record fields are `Value`s (a string, an integer or a flat string map), because
  the same JavaScript field holds a map or the string `"N/A"`.
- `Redaction` (redaction.dfy) has `MaskQuery` and `ExcludeHeaders`. Each walks
  its option list one name at a time and builds a new map.
- `RecordBuilders` (record_builders.dfy) builds the request record and the
  response record.
- `LoggerHelper` (logger_helper.dfy) has the two entry points.

The logging sink becomes the returned `Option`. `Some(payload)` is the one call
to `options.logger.info`, and `None` means the sink was never called. The URL
gate is a function parameter `shouldAuditURL: Option<string> -> bool`. It gets
the request's URL, or `None` when `auditResponse` is called without a request.
The date and JSON formatting is a `Formatter` parameter, which holds an
ISO-string function and a serialiser. Timestamps are integers of epoch
milliseconds.

The tests leave some cases open. The model resolves them as follows:

- A `maskQuery` name that the query lacks: no test covers it; the model adds
  no key for such a name.
- `additionalAudit` in `auditResponse`: no test sets it there; the model logs
  no extra fields beside `request` and `response`.
- `auditResponse` with a request but no response logs the response sentinel.
- `auditResponse` with a response but no request has no defined `elapsed`. It is
  excluded by a `requires`.

## Model

| member | source | states |
|---|---|---|
| `Redaction.MaskQuery` | test/logger-helper-test.js:145-173 | every query key is kept; a key named in `maskQuery` gets the value `"XXXXX"`, every other key keeps its value |
| `Redaction.ExcludeHeaders` | test/logger-helper-test.js:175-210 | a header is in the result exactly when it was in the request and is not named in `excludeHeaders`; kept headers keep their values |
| `Redaction.MaskQueryDependsOnNameSet` | test/logger-helper-test.js:160-173 | masking depends only on which names the `maskQuery` list contains, not on their order or repetition; no test asserts this (the tests use one fixed list), it justifies modelling the JavaScript array as a list whose only meaning is its set of names |
| `Redaction.ExcludeHeadersDependsOnNameSet` | test/logger-helper-test.js:188-197 | exclusion depends only on which names the `excludeHeaders` list contains; no test asserts this (the tests use one fixed list), it justifies modelling the JavaScript array as a list whose only meaning is its set of names |
| `Redaction.ExcludeAbsentHeadersIsIdentity` | test/logger-helper-test.js:198-210 | an exclude list naming only absent headers leaves the header map unchanged |
| `Redaction.MaskOneParameter` | test/logger-helper-test.js:146-159 | masking `q1` in `{q1: "something", q2: "fishy"}` gives `{q1: "XXXXX", q2: "fishy"}` |
| `Redaction.MaskBothParameters` | test/logger-helper-test.js:160-173 | masking `q1` and `q2` masks both |
| `Redaction.ExcludeTwoHeaders` | test/logger-helper-test.js:188-197 | excluding `header-to-exclude` and `another` leaves only `header1` |
| `RecordBuilders.BuildRequestRecord` | test/logger-helper-test.js:30-40 | method and URL are copied; the query is the masked copy and the headers the filtered copy; the timestamp appears as ISO string and milliseconds; the body is serialised; an absent request gives "N/A" in all seven fields |
| `RecordBuilders.BuildResponseRecord` | test/logger-helper-test.js:41-47 | status code and body are copied; the timestamp appears in both forms; `elapsed` is the response timestamp minus the request timestamp; an absent response gives "N/A" everywhere except `elapsed = 0`; a present response needs the request timestamp |
| `RecordBuilders.ElapsedSpansTimestamps` | test/logger-helper-test.js:14-16 | `elapsed` equals the response record's `timestamp_ms` minus the request record's, and is not negative when the response is not earlier than the request |
| `LoggerHelper.AuditRequest` | test/logger-helper-test.js:57-143 | the sink is called (once) exactly when the gate accepts the URL; the request section is present exactly when `request.audit` is on and is then the request record; `additionalAudit` becomes the top-level siblings |
| `LoggerHelper.AuditResponse` | test/logger-helper-test.js:214-299 | the sink is called (once) exactly when the gate accepts; each section is present exactly when its toggle is on and is then the built record; the response record measures `elapsed` from the request's timestamp |
| `LoggerHelper.RefusedUrlLogsNothing` | test/logger-helper-test.js:89-96 | when the gate refuses, neither entry point calls the sink (also lines 247-254) |
| `LoggerHelper.RequestAuditOffLogsUndefined` | test/logger-helper-test.js:105-111 | with `request.audit` off and no additional audit, `auditRequest` logs exactly `{request: undefined}` |
| `LoggerHelper.AdditionalAuditOnlyAddsSiblings` | test/logger-helper-test.js:113-143 | the payload with additional audit equals the one without, except for the added top-level fields; an empty map adds none |
| `LoggerHelper.SameRequestSectionInBoth` | test/logger-helper-test.js:256-265 | `auditResponse` logs the same request section as `auditRequest` does for that request |
| `LoggerHelper.AbsentRequestAndResponseLogSentinels` | test/logger-helper-test.js:300-326 | with no request and no response, the logged records are all "N/A" except `elapsed: 0` |
| `LoggerHelper.LoggedElapsedIsTimestampGap` | test/logger-helper-test.js:267-277 | whatever the request toggle, the logged response section carries the copied status code and body and `elapsed` is the timestamp gap |
| `LoggerHelper.FixtureResponseAudit` | test/logger-helper-test.js:256-265 | the fixture request and a 200 response log exactly the expected `{request, response}` payload, with `elapsed` the timestamp gap |
| `LoggerHelper.FixtureMaskedRequestAudit` | test/logger-helper-test.js:146-156 | the fixture request with `maskQuery = ["q1"]` logs the full expected record with `q1` masked |

## Left out

- The helper's own code, `lib/logger-helper.js`, is not part of this model. The model follows the behaviour its tests assert.
- `utils.shouldAuditURL`: its URL matching is not part of this model. It is an opaque function parameter.
- The logging sink `options.logger.info` and the call counting around it are left out. The single call is the returned `Option`.
- `toISOString`, `valueOf` and `JSON.stringify` are library formatting. They are the `Formatter` parameter, and timestamps are integer milliseconds.
- Defaulting of unset options is left out: no test leaves a toggle unset. The model takes options whose toggles and lists are all given.
- RecordBuilders.BuildResponseRecord: a present response without a request timestamp is excluded by its `requires`; nothing is stated for that input.
- LoggerHelper.AuditResponse: a response without its request is excluded by its `requires`; for that input nothing is stated, not even that a refusing gate logs nothing.
- `auditRequest` with an absent request is left out because no test asserts it. `AuditRequest` takes a present request.
- An `additionalAudit` key named `request` is left out: the tests do not say which of the two wins. The payload keeps the section and the additional fields in separate fields.
- Nested JSON values are left out. Bodies and additional-audit values are strings, integers or flat string maps.
- The response body is taken to be a string already and is copied as it is, as in the fixture. Serialising a non-string response body is not modelled.
- Exceptions for malformed options and failures inside the gate are left out. Options are typed values, and the gate is total.
