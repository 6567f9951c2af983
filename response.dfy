/** The HTTP envelopes of `backend/app/utils/response.py`. The JSON body is
    kept as the dictionary that `json.dumps` would serialise. */
module Responses {
  import opened Py

  type Headers = map<string, string>

  /** The body dictionary, whose `success` key is `true` exactly for
      `SuccessBody`; an optional field is `None` when its key is absent. */
  datatype Body =
    | SuccessBody(data: PyValue, timestamp: string, message: Option<string>)
    | ErrorBody(error: string, timestamp: string, errorCode: Option<string>, details: Option<map<string, PyValue>>)
  {
    /** The dictionary that `json.dumps` serialises. */
    function ToDict(): (d: map<string, PyValue>)
      ensures "success" in d && d["success"] == PyBool(this.SuccessBody?)
      ensures "timestamp" in d && d["timestamp"] == PyStr(timestamp)
      ensures this.SuccessBody? ==>
                && d.Keys == {"success", "data", "timestamp"} + (if message.Some? then {"message"} else {})
                && d["data"] == data
                && (message.Some? ==> d["message"] == PyStr(message.value))
      ensures this.ErrorBody? ==>
                && d.Keys == {"success", "error", "timestamp"} + (if errorCode.Some? then {"error_code"} else {})
                                                                + (if details.Some? then {"details"} else {})
                && d["error"] == PyStr(error)
                && (errorCode.Some? ==> d["error_code"] == PyStr(errorCode.value))
                && (details.Some? ==> d["details"] == PyDict(details.value))
    {
      match this
      case SuccessBody(data, timestamp, message) =>
        var d := map["success" := PyBool(true), "data" := data, "timestamp" := PyStr(timestamp)];
        if message.Some? then d["message" := PyStr(message.value)] else d
      case ErrorBody(error, timestamp, errorCode, details) =>
        var d := map["success" := PyBool(false), "error" := PyStr(error), "timestamp" := PyStr(timestamp)];
        var d' := if errorCode.Some? then d["error_code" := PyStr(errorCode.value)] else d;
        if details.Some? then d'["details" := PyDict(details.value)] else d'
    }
  }

  datatype Response = Response(statusCode: int, headers: Headers, body: Body)

  /** The four JSON/CORS headers every envelope starts from. */
  const DefaultHeaders: Headers := map[
    "Content-Type" := "application/json",
    "Access-Control-Allow-Origin" := "*",
    "Access-Control-Allow-Methods" := "POST, OPTIONS",
    "Access-Control-Allow-Headers" := "Content-Type"
  ]

  /** `default_headers.update(headers)` when `headers` is truthy. */
  function MergedHeaders(headers: Option<Headers>): (h: Headers)
    ensures h.Keys == DefaultHeaders.Keys + (if headers.Some? then headers.value.Keys else {})
    ensures headers.Some? ==> forall k :: k in headers.value ==> h[k] == headers.value[k]
    ensures forall k :: k in DefaultHeaders && (headers.None? || k !in headers.value) ==>
              h[k] == DefaultHeaders[k]
  {
    if headers.Some? && |headers.value| > 0 then DefaultHeaders + headers.value else DefaultHeaders
  }

  /** A string argument that Python's `if s:` accepts. */
  predicate Given(s: Option<string>) {
    s.Some? && s.value != ""
  }

  /** The envelope `success(...)` returns: `message` is kept only when truthy. */
  function SuccessResponse(
    data: PyValue, timestamp: string,
    statusCode: int := 200, message: Option<string> := None, headers: Option<Headers> := None): (r: Response)
    ensures r.statusCode == statusCode && r.headers == MergedHeaders(headers)
    ensures r.body.SuccessBody? && r.body.data == data && r.body.timestamp == timestamp
    ensures r.body.message.Some? <==> Given(message)
    ensures r.body.message.Some? ==> r.body.message == message
  {
    Response(statusCode, MergedHeaders(headers),
             SuccessBody(data, timestamp, if Given(message) then message else None))
  }

  /** The envelope `error(...)` returns: `error_code` and `details` are kept
      only when truthy. */
  function ErrorResponse(
    message: string, timestamp: string,
    statusCode: int := 400, errorCode: Option<string> := None,
    details: Option<map<string, PyValue>> := None, headers: Option<Headers> := None): (r: Response)
    ensures r.statusCode == statusCode && r.headers == MergedHeaders(headers)
    ensures r.body.ErrorBody? && r.body.error == message && r.body.timestamp == timestamp
    ensures r.body.errorCode.Some? <==> Given(errorCode)
    ensures r.body.errorCode.Some? ==> r.body.errorCode == errorCode
    ensures r.body.details.Some? <==> details.Some? && |details.value| > 0
    ensures r.body.details.Some? ==> r.body.details == details
  {
    Response(statusCode, MergedHeaders(headers),
             ErrorBody(message, timestamp,
                       if Given(errorCode) then errorCode else None,
                       if details.Some? && |details.value| > 0 then details else None))
  }

  /** `success(...)`: fills in the body and the headers step by step. */
  method Success(
    data: PyValue, timestamp: string,
    statusCode: int := 200, message: Option<string> := None, headers: Option<Headers> := None)
    returns (r: Response)
    ensures r == SuccessResponse(data, timestamp, statusCode, message, headers)
  {
    var body := SuccessBody(data, timestamp, None);
    if message.Some? && message.value != "" {
      body := body.(message := message);
    }
    var defaultHeaders := DefaultHeaders;
    if headers.Some? && |headers.value| > 0 {
      defaultHeaders := defaultHeaders + headers.value;
    }
    r := Response(statusCode, defaultHeaders, body);
  }

  /** `error(...)`: fills in the body and the headers step by step. */
  method Error(
    message: string, timestamp: string,
    statusCode: int := 400, errorCode: Option<string> := None,
    details: Option<map<string, PyValue>> := None, headers: Option<Headers> := None)
    returns (r: Response)
    ensures r == ErrorResponse(message, timestamp, statusCode, errorCode, details, headers)
  {
    var body := ErrorBody(message, timestamp, None, None);
    if errorCode.Some? && errorCode.value != "" {
      body := body.(errorCode := errorCode);
    }
    if details.Some? && |details.value| > 0 {
      body := body.(details := details);
    }
    var defaultHeaders := DefaultHeaders;
    if headers.Some? && |headers.value| > 0 {
      defaultHeaders := defaultHeaders + headers.value;
    }
    r := Response(statusCode, defaultHeaders, body);
  }

  /** Without explicit arguments the success status is 200, the error status
      400, both carry exactly the default headers, and no optional field is set. */
  lemma StatusAndHeaderDefaults(data: PyValue, message: string, timestamp: string)
    ensures SuccessResponse(data, timestamp) == Response(200, DefaultHeaders, SuccessBody(data, timestamp, None))
    ensures ErrorResponse(message, timestamp) == Response(400, DefaultHeaders, ErrorBody(message, timestamp, None, None))
  {
  }

  /** `validation_error(field, reason)` */
  function ValidationError(field: string, reason: string, timestamp: string): (r: Response)
    ensures r.statusCode == 400 && r.headers == DefaultHeaders
    ensures r.body == ErrorBody("Error de validación en campo '" + field + "'", timestamp,
                                Some("VALIDATION_ERROR"),
                                Some(map["field" := PyStr(field), "reason" := PyStr(reason)]))
  {
    ErrorResponse("Error de validación en campo '" + field + "'", timestamp, 400,
                  Some("VALIDATION_ERROR"), Some(map["field" := PyStr(field), "reason" := PyStr(reason)]))
  }

  /** `not_found(resource)` */
  function NotFound(resource: string, timestamp: string): (r: Response)
    ensures r.statusCode == 404 && r.headers == DefaultHeaders
    ensures r.body == ErrorBody("Recurso no encontrado: " + resource, timestamp, Some("NOT_FOUND"), None)
  {
    ErrorResponse("Recurso no encontrado: " + resource, timestamp, 404, Some("NOT_FOUND"))
  }

  /** `internal_error(exception)` */
  function InternalError(exception: PyException, timestamp: string): (r: Response)
    ensures r.statusCode == 500 && r.headers == DefaultHeaders
    ensures r.body == ErrorBody("Error interno del servidor", timestamp, Some("INTERNAL_ERROR"),
                                Some(map["exception" := PyStr(exception.message)]))
  {
    ErrorResponse("Error interno del servidor", timestamp, 500, Some("INTERNAL_ERROR"),
                  Some(map["exception" := PyStr(exception.message)]))
  }
}
