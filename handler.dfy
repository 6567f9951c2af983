/** The Lambda entry points of `backend/handler.py`: the request pipeline
    (method check, body parsing, input validation, size limit, Markdown to
    HTML, HTML to DOCX, upload) and the health check. Everything the
    pipeline calls out to — the JSON parser, the two conversion libraries,
    the S3 SDK, `uuid.uuid4()` and the clock — comes in as a parameter. */
module Handler {
  import opened Py
  import opened Text
  import opened Responses
  import AppConfig
  import MarkdownToHtml
  import HtmlToDocx
  import Storage

  const Version := "0.1.0"
  const DoneMessage := "Conversión completada exitosamente"
  const MethodMessage := "Método no permitido. Use POST"
  const JsonMessage := "JSON inválido en el body"
  const ContentRequired := "Campo requerido"
  const FormatReason := "Formato de salida inválido. Use: 'docx' o 'html'"
  const TooLargePrefix := "Contenido demasiado grande. Máximo: "
  const MarkdownFailed := "Error al convertir Markdown"
  const DocxFailed := "Error al generar documento DOCX"
  const UploadFailed := "Error al subir archivo a S3"
  const JsonTypePrefix := "the JSON object must be str, bytes or bytearray, not "

  /** What the handler reaches outside itself for. */
  datatype Services = Services(
    /** `json.loads` on a string: `None` when it raises `JSONDecodeError`. */
    parseJson: string -> Option<PyValue>,
    markdown: MarkdownToHtml.Renderer,
    addHtml: HtmlToDocx.HtmlParser,
    save: HtmlToDocx.Saver,
    putObject: Storage.PutObjectRequest -> Option<string>,
    presign: Storage.PresignRequest -> Outcome<string>,
    /** The value `uuid.uuid4()` returns during the upload. */
    uuid: string)

  /** The status codes the handler can answer with. */
  predicate KnownStatus(r: Response) {
    r.statusCode in {200, 400, 405, 413, 422, 500}
  }

  /** The HTTP method lookup that precedes the `try`: `httpMethod` (REST
      API), else `requestContext.http.method` (HTTP API v2) when the event
      has a `requestContext`. A non-dictionary on the way raises. */
  function ResolveMethod(event: map<string, PyValue>): (r: Result<PyValue, PyException>)
    ensures Truthy(Get(event, "httpMethod", PyNone)) || "requestContext" !in event ==>
              r == Success(Get(event, "httpMethod", PyNone))
    ensures r.Failure? ==> r.error.AttributeError?
    ensures r.Failure? <==>
              && !Truthy(Get(event, "httpMethod", PyNone)) && "requestContext" in event
              && (!event["requestContext"].PyDict?
                  || !Get(event["requestContext"].entries, "http", PyDict(map[])).PyDict?)
  {
    var verb := Get(event, "httpMethod", PyNone);
    if Truthy(verb) || "requestContext" !in event then Success(verb)
    else
      var context := event["requestContext"];
      if !context.PyDict? then Failure(NoAttribute(context, "get"))
      else
        var http := Get(context.entries, "http", PyDict(map[]));
        if !http.PyDict? then Failure(NoAttribute(http, "get"))
        else Success(Get(http.entries, "method", PyNone))
  }

  /** `lambda_handler(event, context)`: the response, or the exception that
      escapes from the method lookup outside the `try`. Every response
      carries one of the handler's status codes. */
  function LambdaHandler(event: map<string, PyValue>, cfg: AppConfig.Config, now: string, io: Services): (r: Result<Response, PyException>)
    ensures r.Failure? <==> ResolveMethod(event).Failure?
    ensures r.Failure? ==> r.error.AttributeError?
    ensures r.Success? ==> KnownStatus(r.value)
    ensures r.Success? && ResolveMethod(event).value != PyStr("POST") ==>
              r.value == ErrorResponse(MethodMessage, now, 405)
  {
    match ResolveMethod(event)
    case Failure(e) => Failure(e)
    case Success(verb) => Success(Handle(verb, event, cfg, now, io))
  }

  /** The body of the `try`, from the method check on; an exception that
      reaches the final `except` becomes `internal_error(e)`. */
  function Handle(verb: PyValue, event: map<string, PyValue>, cfg: AppConfig.Config, now: string, io: Services): (r: Response)
    ensures KnownStatus(r)
  {
    if verb != PyStr("POST") then ErrorResponse(MethodMessage, now, 405)
    else
      var raw := Get(event, "body", PyStr("{}"));
      if !raw.PyStr? then InternalError(TypeError(JsonTypePrefix + TypeName(raw)), now)
      else match io.parseJson(raw.s)
        case None => ErrorResponse(JsonMessage, now, 400)
        case Some(body) =>
          if !body.PyDict? then InternalError(NoAttribute(body, "get"), now)
          else Validate(body.entries, cfg, now, io)
  }

  /** Steps 3 and 4: reads `content` and `output_format` (lower-cased before
      anything is checked), then checks presence, format and size. */
  function Validate(body: map<string, PyValue>, cfg: AppConfig.Config, now: string, io: Services): (r: Response)
    ensures KnownStatus(r)
  {
    var content := Get(body, "content", PyNone);
    var requested := Get(body, "output_format", PyStr("docx"));
    if !requested.PyStr? then InternalError(NoAttribute(requested, "lower"), now)
    else
      var format := Lower(requested.s);
      if !Truthy(content) then ValidationError("content", ContentRequired, now)
      else if format !in AppConfig.SupportedOutputFormats then ValidationError("output_format", FormatReason, now)
      else if !content.PyStr? then InternalError(NoAttribute(content, "encode"), now)
      else if Utf8Length(content.s) > cfg.maxFileSizeBytes then
        ErrorResponse(TooLargePrefix + IntToDecimal(cfg.maxFileSizeMb) + "MB", now, 413)
      else Process(content.s, format, cfg, now, io)
  }

  /** The `details` of a failed stage: the text of the exception. */
  function StageDetails(e: string): map<string, PyValue> {
    map["error" := PyStr(e)]
  }

  /** Steps 5 to 9, for accepted content and a supported format. */
  function Process(content: string, format: string, cfg: AppConfig.Config, now: string, io: Services): (r: Response)
    ensures r.statusCode in {200, 422, 500}
    ensures r.statusCode == 200 <==> r.body.SuccessBody?
    ensures r.body.ErrorBody? ==> r.body.errorCode.None? && r.body.details.Some? && "error" in r.body.details.value
  {
    match MarkdownToHtml.Convert(PyStr(content), None, io.markdown)
    case Failure(e) => ErrorResponse(MarkdownFailed, now, 422, None, Some(StageDetails(e.message)))
    case Success(html) =>
      if format == "html" then
        SuccessResponse(PyDict(map[
          "html" := PyStr(html),
          "output_format" := PyStr(format),
          "size_bytes" := PyInt(Utf8Length(html))]), now, 200, Some(DoneMessage))
      else match HtmlToDocx.Converted(PyStr(html), None, io.addHtml, io.save)
        case Failure(e) => ErrorResponse(DocxFailed, now, 500, None, Some(StageDetails(e.message)))
        case Success(document) =>
          // `S3Client(use_mock=False)`: the handler always talks to S3.
          match Storage.S3Upload(io.putObject, io.presign, cfg.bucketName, Storage.FileKey(io.uuid, format),
                                 document, cfg.presignedUrlExpiry)
          case Failure(e) => ErrorResponse(UploadFailed, now, 500, None, Some(StageDetails(e.message)))
          case Success(url) =>
            SuccessResponse(PyDict(map[
              "download_url" := PyStr(url),
              "output_format" := PyStr(format),
              "size_bytes" := PyInt(|document|),
              "expires_in" := PyInt(cfg.presignedUrlExpiry)]), now, 200, Some(DoneMessage))
  }

  /** `health_check(event, context)` */
  function HealthCheck(cfg: AppConfig.Config, now: string): (r: Response)
    ensures r.statusCode == 200 && r.headers == DefaultHeaders
    ensures r.body == SuccessBody(
              PyDict(map["status" := PyStr("healthy"), "version" := PyStr(Version),
                         "environment" := PyStr(cfg.environment)]),
              now, Some("Service is running"))
  {
    SuccessResponse(PyDict(map["status" := PyStr("healthy"), "version" := PyStr(Version),
                               "environment" := PyStr(cfg.environment)]),
                    now, 200, Some("Service is running"))
  }

  /** HTTP API v2 events carry no `httpMethod`: the method is read from
      `requestContext.http.method`, and a missing `http` reads as `{}`. */
  lemma HttpApiV2Method(event: map<string, PyValue>, context: map<string, PyValue>)
    requires !Truthy(Get(event, "httpMethod", PyNone))
    requires "requestContext" in event && event["requestContext"] == PyDict(context)
    ensures "http" in context && context["http"].PyDict? ==>
              ResolveMethod(event) == Success(Get(context["http"].entries, "method", PyNone))
    ensures "http" !in context ==> ResolveMethod(event) == Success(PyNone)
  {
  }

  /** Any method other than exactly "POST" is answered with 405 whatever
      the body holds, and lower-case "post" is not "POST". */
  lemma NonPostRejected(event: map<string, PyValue>, cfg: AppConfig.Config, now: string, io: Services, body: PyValue)
    requires ResolveMethod(event).Success? && ResolveMethod(event).value != PyStr("POST")
    ensures LambdaHandler(event, cfg, now, io) == Success(ErrorResponse(MethodMessage, now, 405))
    ensures Handle(PyStr("post"), event["body" := body], cfg, now, io).statusCode == 405
  {
  }

  /** A missing body is parsed as the text "{}". */
  lemma MissingBodyIsEmptyObject(event: map<string, PyValue>, cfg: AppConfig.Config, now: string, io: Services)
    requires "body" !in event
    ensures Handle(PyStr("POST"), event, cfg, now, io) ==
            Handle(PyStr("POST"), event["body" := PyStr("{}")], cfg, now, io)
  {
    assert Get(event["body" := PyStr("{}")], "body", PyStr("{}")) == Get(event, "body", PyStr("{}"));
  }

  /** A body that does not parse is a 400; a JSON `null` body is not text
      at all and ends in the catch-all 500. */
  lemma BodyParsing(event: map<string, PyValue>, cfg: AppConfig.Config, now: string, io: Services)
    requires "body" in event
    ensures event["body"].PyStr? && io.parseJson(event["body"].s).None? ==>
              Handle(PyStr("POST"), event, cfg, now, io) == ErrorResponse(JsonMessage, now, 400)
    ensures event["body"] == PyNone ==>
              Handle(PyStr("POST"), event, cfg, now, io) ==
              InternalError(TypeError(JsonTypePrefix + "NoneType"), now)
  {
  }

  /** An empty JSON object, as the missing body parses, lacks `content`. */
  lemma EmptyObjectLacksContent(event: map<string, PyValue>, cfg: AppConfig.Config, now: string, io: Services)
    requires "body" !in event && io.parseJson("{}") == Some(PyDict(map[]))
    ensures Handle(PyStr("POST"), event, cfg, now, io) == ValidationError("content", ContentRequired, now)
  {
  }

  /** A parsed body that is not an object (a list, a string, a number)
      fails on `.get` and ends in the catch-all 500. */
  lemma NonObjectBody(text: string, body: PyValue, event: map<string, PyValue>, cfg: AppConfig.Config, now: string, io: Services)
    requires "body" in event && event["body"] == PyStr(text)
    requires io.parseJson(text) == Some(body) && !body.PyDict?
    ensures Handle(PyStr("POST"), event, cfg, now, io) == InternalError(NoAttribute(body, "get"), now)
  {
  }

  /** `output_format` is lower-cased before `content` is looked at: a
      non-string format is a 500 even when `content` is missing. */
  lemma FormatReadBeforeContent(body: map<string, PyValue>, cfg: AppConfig.Config, now: string, io: Services)
    requires "output_format" in body && !body["output_format"].PyStr?
    ensures Validate(body, cfg, now, io) == InternalError(NoAttribute(body["output_format"], "lower"), now)
    ensures !Truthy(Get(body, "content", PyNone)) ==> Validate(body, cfg, now, io).statusCode == 500
  {
  }

  /** Missing or falsy `content` is a validation error on "content". */
  lemma ContentRequiredCheck(body: map<string, PyValue>, cfg: AppConfig.Config, now: string, io: Services)
    requires Get(body, "output_format", PyStr("docx")).PyStr?
    ensures !Truthy(Get(body, "content", PyNone)) ==>
              Validate(body, cfg, now, io) == ValidationError("content", ContentRequired, now)
  {
  }

  /** A missing format is "docx". */
  lemma FormatDefault(body: map<string, PyValue>, cfg: AppConfig.Config, now: string, io: Services)
    requires "output_format" !in body
    ensures Validate(body, cfg, now, io) == Validate(body["output_format" := PyStr("docx")], cfg, now, io)
  {
    var given := body["output_format" := PyStr("docx")];
    assert "content" != "output_format";
    assert Get(given, "content", PyNone) == Get(body, "content", PyNone);
    assert Lower("docx") == "docx";
  }

  /** The format is compared after lower-casing, so "DOCX" and "docx" are
      the same request. */
  lemma FormatCaseInsensitive(body: map<string, PyValue>, requested: string, cfg: AppConfig.Config, now: string, io: Services)
    ensures Validate(body["output_format" := PyStr(requested)], cfg, now, io) ==
            Validate(body["output_format" := PyStr(Lower(requested))], cfg, now, io)
  {
    LowerIdempotent(requested);
    var b1 := body["output_format" := PyStr(requested)];
    var b2 := body["output_format" := PyStr(Lower(requested))];
    assert "content" != "output_format";
    assert Get(b1, "content", PyNone) == Get(b2, "content", PyNone);
  }

  /** A format that is neither "docx" nor "html" once lower-cased is a
      validation error on "output_format" (given some content). */
  lemma FormatRejected(body: map<string, PyValue>, requested: string, cfg: AppConfig.Config, now: string, io: Services)
    requires Truthy(Get(body, "content", PyNone)) && "output_format" in body && body["output_format"] == PyStr(requested)
    requires Lower(requested) !in AppConfig.SupportedOutputFormats
    ensures Validate(body, cfg, now, io) == ValidationError("output_format", FormatReason, now)
  {
  }

  /** Truthy `content` that is not a string passes the presence and format
      checks and then fails on `.encode`, which the catch-all turns into a
      500 internal error. */
  lemma NonStringContent(body: map<string, PyValue>, requested: string, cfg: AppConfig.Config, now: string, io: Services)
    requires "content" in body && Truthy(body["content"]) && !body["content"].PyStr?
    requires Get(body, "output_format", PyStr("docx")) == PyStr(requested)
    requires Lower(requested) in AppConfig.SupportedOutputFormats
    ensures Validate(body, cfg, now, io) == InternalError(NoAttribute(body["content"], "encode"), now)
  {
  }

  /** The size bound is strict: content whose UTF-8 encoding is longer than
      the limit is a 413, content exactly at the limit goes on to conversion.
      Any non-empty text gets this far, whitespace-only text included. */
  lemma SizeBound(content: string, body: map<string, PyValue>, cfg: AppConfig.Config, now: string, io: Services)
    requires Get(body, "content", PyNone) == PyStr(content) && content != ""
    requires Get(body, "output_format", PyStr("docx")).PyStr?
    requires Lower(Get(body, "output_format", PyStr("docx")).s) in AppConfig.SupportedOutputFormats
    ensures Validate(body, cfg, now, io).statusCode == 413 <==> Utf8Length(content) > cfg.maxFileSizeBytes
    ensures Utf8Length(content) > cfg.maxFileSizeBytes ==>
              Validate(body, cfg, now, io).body.error == TooLargePrefix + IntToDecimal(cfg.maxFileSizeMb) + "MB"
    ensures Utf8Length(content) <= cfg.maxFileSizeBytes ==>
              Validate(body, cfg, now, io) ==
              Process(content, Lower(Get(body, "output_format", PyStr("docx")).s), cfg, now, io)
  {
  }

  /** Every rejection up to and including the size check happens before
      any conversion: its response does not depend on the libraries, the
      SDK or the fresh id. */
  lemma RejectedBeforeConversion(body: map<string, PyValue>, cfg: AppConfig.Config, now: string, io1: Services, io2: Services)
    requires Validate(body, cfg, now, io1).statusCode in {400, 413}
             || (Validate(body, cfg, now, io1).statusCode == 500 && Validate(body, cfg, now, io1).body.errorCode == Some("INTERNAL_ERROR"))
    ensures Validate(body, cfg, now, io1) == Validate(body, cfg, now, io2)
  {
  }

  /** The HTML path answers 200 with the html, the format and the html's
      UTF-8 size, and never builds a document or uploads anything. */
  lemma HtmlPath(content: string, html: string, cfg: AppConfig.Config, now: string, io: Services, other: Services)
    requires content != "" && io.markdown(content, MarkdownToHtml.DefaultExtensions) == Ok(html)
    requires other.markdown == io.markdown
    ensures Process(content, "html", cfg, now, io) ==
            SuccessResponse(PyDict(map["html" := PyStr(html), "output_format" := PyStr("html"),
                                       "size_bytes" := PyInt(Utf8Length(html))]),
                            now, 200, Some(DoneMessage))
    ensures Process(content, "html", cfg, now, io) == Process(content, "html", cfg, now, other)
  {
  }

  /** Each failing stage has its own status, fixed message and
      `details.error` carrying the text of the exception. */
  lemma StageFailures(content: string, format: string, cfg: AppConfig.Config, now: string, io: Services)
    requires content != "" && format in AppConfig.SupportedOutputFormats
    ensures io.markdown(content, MarkdownToHtml.DefaultExtensions).Fail? ==>
              Process(content, format, cfg, now, io) ==
              ErrorResponse(MarkdownFailed, now, 422, None,
                            Some(StageDetails(MarkdownToHtml.FailurePrefix + io.markdown(content, MarkdownToHtml.DefaultExtensions).message)))
    ensures format == "docx" && io.markdown(content, MarkdownToHtml.DefaultExtensions).Ok? ==>
              var html := io.markdown(content, MarkdownToHtml.DefaultExtensions).value;
              !IsBlank(html) && io.addHtml([], PyStr(html)).Fail? ==>
                Process(content, format, cfg, now, io) ==
                ErrorResponse(DocxFailed, now, 500, None,
                              Some(StageDetails(HtmlToDocx.FailurePrefix + io.addHtml([], PyStr(html)).message)))
    ensures format == "docx" && io.markdown(content, MarkdownToHtml.DefaultExtensions).Ok? ==>
              var html := io.markdown(content, MarkdownToHtml.DefaultExtensions).value;
              !IsBlank(html) && io.addHtml([], PyStr(html)).Ok? && io.save(io.addHtml([], PyStr(html)).value).Fail? ==>
                Process(content, format, cfg, now, io) ==
                ErrorResponse(DocxFailed, now, 500, None,
                              Some(StageDetails(HtmlToDocx.FailurePrefix + io.save(io.addHtml([], PyStr(html)).value).message)))
  {
  }

  /** Whitespace-only Markdown that renders to blank HTML is returned as is
      for "html", but makes the DOCX builder's emptiness check fail. */
  lemma BlankRendering(content: string, html: string, cfg: AppConfig.Config, now: string, io: Services)
    requires content != "" && io.markdown(content, MarkdownToHtml.DefaultExtensions) == Ok(html) && IsBlank(html)
    ensures Process(content, "html", cfg, now, io).statusCode == 200
    ensures Process(content, "docx", cfg, now, io) ==
            ErrorResponse(DocxFailed, now, 500, None, Some(StageDetails(HtmlToDocx.EmptyMessage)))
  {
  }

  /** An upload failure is a 500 whose `details.error` is the storage
      error's text. */
  lemma UploadFailure(content: string, html: string, document: Bytes, cfg: AppConfig.Config, now: string, io: Services)
    requires content != "" && io.markdown(content, MarkdownToHtml.DefaultExtensions) == Ok(html)
    requires HtmlToDocx.Converted(PyStr(html), None, io.addHtml, io.save) == Success(document)
    requires Storage.S3Upload(io.putObject, io.presign, cfg.bucketName, Storage.FileKey(io.uuid, "docx"),
                              document, cfg.presignedUrlExpiry).Failure?
    ensures var e := Storage.S3Upload(io.putObject, io.presign, cfg.bucketName, Storage.FileKey(io.uuid, "docx"),
                                      document, cfg.presignedUrlExpiry).error;
            && Process(content, "docx", cfg, now, io) == ErrorResponse(UploadFailed, now, 500, None, Some(StageDetails(e.message)))
            && StartsWith(e.message, Storage.UploadErrorPrefix)
  {
    assert MarkdownToHtml.Convert(PyStr(content), None, io.markdown) == Success(html);
  }

  /** The DOCX path: the built bytes go to S3 (never to the local mock)
      under `<uuid>.docx` with the Word content type, and the answer is 200
      with the presigned URL, the byte length and the configured expiry. */
  lemma DocxPath(content: string, html: string, value: HtmlToDocx.DocumentValue, document: Bytes, url: string,
                 cfg: AppConfig.Config, now: string, io: Services)
    requires content != "" && io.markdown(content, MarkdownToHtml.DefaultExtensions) == Ok(html) && !IsBlank(html)
    requires io.addHtml([], PyStr(html)) == Ok(value) && io.save(value) == Ok(document)
    requires io.putObject(Storage.PutObjectRequest(cfg.bucketName, Storage.FileKey(io.uuid, "docx"), document,
                                                   Storage.ContentType(Storage.FileKey(io.uuid, "docx")))).None?
    requires io.presign(Storage.PresignRequest("get_object", cfg.bucketName, Storage.FileKey(io.uuid, "docx"),
                                               cfg.presignedUrlExpiry)) == Ok(url)
    ensures Process(content, "docx", cfg, now, io) ==
            SuccessResponse(PyDict(map["download_url" := PyStr(url), "output_format" := PyStr("docx"),
                                       "size_bytes" := PyInt(|document|),
                                       "expires_in" := PyInt(cfg.presignedUrlExpiry)]),
                            now, 200, Some(DoneMessage))
  {
  }
}
