# Markdown to DOCX converter: a verified model of the backend core

This project models the Python backend of a serverless Markdown converter.
An AWS Lambda handler receives a JSON request holding Markdown `content` and an
`output_format` (`docx` or `html`). It renders the Markdown to HTML. For
`html` it returns the HTML. For `docx` it builds a Word document, uploads it
to S3 and returns a presigned download URL.

Each Python module becomes one Dafny module, in the style the source uses:

- `handler.dfy` (`Handler`) models `lambda_handler` and `health_check` as pure
  functions from the event to the response envelope. The JSON parser, the
  Markdown and DOCX libraries, the S3 SDK, `uuid.uuid4()` and the clock are
  parameters (`Services`, `now`).
- `response.dfy` (`Responses`) models the envelope builders. `success` and
  `error` are methods that fill the body and headers step by step. Each is
  proved equal to a specification function whose contract states the
  conditional fields.
- `config.dfy` (`AppConfig`) models the configuration: defaults, derived
  fields, `validate` and `get_config_dict`.
- `storage.dfy` (`Storage`) models the S3 client. `S3Client` is a class over a
  mutable `FileSystem` (a map from path to bytes plus a set of directories).
  Its methods write and delete mock files in place. `ClientRegistry` holds the
  module-level singleton.
- `markdown_to_html.dfy` (`MarkdownToHtml`) models the Markdown converter's
  guards, default extensions and error wrapping.
- `html_to_docx.dfy` (`HtmlToDocx`) models the DOCX converter. The document is
  an object graph of paragraphs and runs. `ApplyCustomStyles` is the nested
  loop that overwrites every run's font size in place.
- `py.dfy` (`Py`) and `text.dfy` (`Text`) hold the Python vocabulary the rest
  uses: JSON-shaped values, truthiness, exception texts, `str.lower`,
  `str.strip`, `str.replace`, and the UTF-8 length.

Behaviour of the code worth knowing:

- Not every exception path returns a response. The method lookup runs before
  the `try` block (`backend/handler.py:44-47`). A `requestContext` or
  `requestContext.http` that is not a dictionary therefore raises
  `AttributeError` out of the handler (`Handler.ResolveMethod`).
- A JSON body that is not an object is not reported as a 400. It fails on
  `.get` and ends in the catch-all 500 (`Handler.NonObjectBody`). So does a
  `null` body, a non-string `output_format`, or a truthy `content` that is
  not a string (`Handler.NonStringContent`).
- The handler always uploads to S3, never to the local mock
  (`backend/handler.py:128`). A DOCX request therefore writes no local file.
- The mock directory is created when the client is constructed, not on the
  first upload (`backend/app/storage/s3_client.py:40-41`).
- The handler never calls `Config.validate`. The expiry it reports is the
  configured one, checked or not.

## Model

| member | source | states |
|---|---|---|
| Handler.ResolveMethod | backend/handler.py:44-47 | the method comes from `httpMethod`; only when that is falsy and `requestContext` is present does it come from `requestContext.http.method`; a non-dictionary on that path raises `AttributeError`, and nothing else does |
| Handler.HttpApiV2Method | backend/handler.py:45-47 | for HTTP API v2 events the method is `requestContext.http.method`, and a missing `http` gives no method |
| Handler.LambdaHandler | backend/handler.py:22-54 | the handler raises exactly when the method lookup does; every response has status 200, 400, 405, 413, 422 or 500; any method other than "POST" gives the 405 envelope |
| Handler.NonPostRejected | backend/handler.py:53-54 | any method other than exactly "POST", lower-case "post" included, gives 405 whatever the body holds |
| Handler.Handle | backend/handler.py:51-60 | every outcome of the method check, body parsing and later steps is one of the handler's status codes |
| Handler.MissingBodyIsEmptyObject | backend/handler.py:58 | a missing body is handled as the text "{}" |
| Handler.EmptyObjectLacksContent | backend/handler.py:58-68 | a missing body therefore fails the content check with a 400 on "content" |
| Handler.BodyParsing | backend/handler.py:57-60 | a body that does not parse is a 400 "JSON inválido en el body"; a `null` body raises `TypeError` in `json.loads` and becomes a 500 internal error carrying that text |
| Handler.NonObjectBody | backend/handler.py:63-152 | a parsed body that is not an object fails on `.get` and becomes a 500 internal error naming its type |
| Handler.Validate | backend/handler.py:62-83 | every outcome of validation and the later steps is one of the handler's status codes |
| Handler.NonStringContent | backend/handler.py:63-83 | truthy `content` that is not a string, with a supported format, fails on `.encode` and becomes a 500 internal error naming its type |
| Handler.FormatReadBeforeContent | backend/handler.py:63-64 | `output_format.lower()` runs before the content check, so a non-string format is a 500 even when `content` is missing |
| Handler.ContentRequiredCheck | backend/handler.py:67-68 | missing or falsy `content` is the validation error on field "content" with reason "Campo requerido" |
| Handler.FormatDefault | backend/handler.py:64 | a missing `output_format` is "docx" |
| Handler.FormatCaseInsensitive | backend/handler.py:64-71 | the format is compared after lower-casing, so "DOCX" and "docx" give the same response |
| Handler.FormatRejected | backend/handler.py:71-75 | a format that is neither "docx" nor "html" once lower-cased is the validation error on field "output_format" |
| Handler.SizeBound | backend/handler.py:78-83 | 413 exactly when the UTF-8 length of the content exceeds `MAX_FILE_SIZE_BYTES`, with the limit in MB in the message; content at the limit, whitespace-only content included, goes on to conversion |
| Handler.RejectedBeforeConversion | backend/handler.py:62-83 | every 400, 413 or internal-error response of validation is the same whatever the libraries, the SDK and the fresh id do, so no conversion happens before it |
| Handler.Process | backend/handler.py:90-148 | conversion answers 200, 422 or 500; 200 exactly for a success body; every stage failure carries `details.error` and no error code |
| Handler.HtmlPath | backend/handler.py:103-112 | the HTML answer is 200 with the html, the format and the html's UTF-8 size, and it does not depend on the DOCX builder, the save or the upload |
| Handler.StageFailures | backend/handler.py:91-124 | a render failure is a 422 "Error al convertir Markdown"; a build failure, in the HTML parser or in `document.save`, is a 500 "Error al generar documento DOCX"; each has `details.error` set to the converter's prefixed exception text, the library's own text included |
| Handler.BlankRendering | backend/handler.py:103-124 | Markdown that renders to blank HTML is returned as is for "html", but the DOCX builder rejects it with a 500 whose detail is "El contenido HTML no puede estar vacío" |
| Handler.UploadFailure | backend/handler.py:127-137 | an upload failure is a 500 "Error al subir archivo a S3" whose `details.error` is the storage error's text, which starts with "Error al subir archivo: " |
| Handler.DocxPath | backend/handler.py:114-148 | whatever the environment, the document is sent to S3 with `put_object` under `<uuid>.docx`, and the answer is 200 with the presigned URL, "docx", the document's byte length and `PRESIGNED_URL_EXPIRY` |
| Handler.HealthCheck | backend/handler.py:155-169 | 200 with the default headers and the fixed payload: status "healthy", version "0.1.0", the configured environment, message "Service is running" |
| Responses.MergedHeaders | backend/app/utils/response.py:42-50 | the headers are the four JSON/CORS defaults plus the caller's; the caller's override, and no default is removed |
| Responses.Body.ToDict | backend/app/utils/response.py:33-92 | the serialised body has `success` true exactly for a success body, always a `timestamp`, and exactly the keys `data`/`message` or `error`/`error_code`/`details`, each optional key present exactly when its field is |
| Responses.SuccessResponse | backend/app/utils/response.py:12-57 | `success=true` with `data` and `timestamp`; `message` is present exactly when non-empty; the status and headers are as given |
| Responses.Success | backend/app/utils/response.py:12-57 | building the body and headers step by step gives `SuccessResponse` |
| Responses.ErrorResponse | backend/app/utils/response.py:59-108 | `success=false` with `error` set to the message and `timestamp`; `error_code` and `details` are present exactly when truthy |
| Responses.Error | backend/app/utils/response.py:59-108 | building the body and headers step by step gives `ErrorResponse` |
| Responses.StatusAndHeaderDefaults | backend/app/utils/response.py:12-17 | without explicit arguments the success status is 200, the error status is 400, and the headers are exactly the defaults |
| Responses.ValidationError | backend/app/utils/response.py:111-127 | 400 `VALIDATION_ERROR`, the message names the field, and the details are exactly `{field, reason}` |
| Responses.NotFound | backend/app/utils/response.py:130-144 | 404 `NOT_FOUND` naming the resource, without details |
| Responses.InternalError | backend/app/utils/response.py:147-161 | 500 `INTERNAL_ERROR`, "Error interno del servidor", `details.exception` set to the exception's text |
| AppConfig.Load | backend/app/config.py:18-37 | every setting takes its environment value or its default; `MAX_FILE_SIZE_BYTES` is `MAX_FILE_SIZE_MB * 1024 * 1024`; the two flags hold exactly for "PROD" and "DEVELOPMENT" |
| AppConfig.DefaultsWhenUnset | backend/app/config.py:18-37 | with nothing set: "md-converter-bucket", "us-east-1", 300 s, 10 MB (10485760 bytes), "development" with neither flag set, "INFO" |
| AppConfig.FlagsAreCaseSensitive | backend/app/config.py:32-34 | the flags compare the environment name case-sensitively |
| AppConfig.Validate | backend/app/config.py:39-56 | accepted exactly when it is not a production configuration with the default bucket and the expiry is within [60, 3600]; the production check comes first, and each rejection carries its own `ValueError` text |
| AppConfig.ExpiryBoundaries | backend/app/config.py:52-55 | once the production bucket check passes, 60 and 3600 are accepted; 59 and 3601 are rejected with the expiry message |
| AppConfig.ConfigDict | backend/app/config.py:58-71 | exactly six keys, each equal to its configuration field |
| Storage.MockModeFor | backend/app/storage/s3_client.py:33-36 | an explicit `use_mock` is taken as given; without one, mock mode holds exactly when the environment is "development" |
| Storage.ModeSelection | backend/app/storage/s3_client.py:33-36 | an explicit `use_mock` wins; otherwise mock mode holds exactly for the lower-case "development", so "DEVELOPMENT" does not select it |
| Storage.DefaultEnvironmentMocksButIsNotDevelopment | backend/app/storage/s3_client.py:33-34 | with the default environment the client mocks, yet `IS_DEVELOPMENT` is false |
| Storage.S3Client.constructor | backend/app/storage/s3_client.py:26-45 | mock mode has no SDK client and creates `/tmp/s3-mock` with its parents; otherwise an S3 client for the configured region; no file changes |
| Storage.FileKeyInjective | backend/app/storage/s3_client.py:70 | `<id>.<extension>` keys are equal exactly when the ids and the extensions are, so distinct uuids never share a key |
| Storage.S3Client.UploadAndGetUrl | backend/app/storage/s3_client.py:47-83 | the key uses a uuid the client has not issued before; `expires_in` defaults to `PRESIGNED_URL_EXPIRY`; mock mode stores as `MockUpload`; S3 mode leaves the disk alone and returns what `S3Upload` does |
| Storage.MockUpload | backend/app/storage/s3_client.py:72-101 | the write succeeds exactly when the path's parent directory exists and the path is not a directory; success maps the path to the bytes and returns "file://" plus the path; failure leaves the files alone and names the bucket and the key |
| Storage.MockUploadStoresOrFails | backend/app/storage/s3_client.py:72-101 | a mock upload either stores exactly the given bytes (empty included) under the key's path, changes no other file and returns "file://" plus that path, or changes nothing and raises a `StorageError` with the bucket and the key |
| Storage.MockUploadSucceeds | backend/app/storage/s3_client.py:96-99 | with the mock directory present, a key whose extension has no '/' can always be written |
| Storage.LocatorEndsWithExtension | backend/app/storage/s3_client.py:70-101 | the locator ends with "." and the extension |
| Storage.S3Upload | backend/app/storage/s3_client.py:103-131 | success exactly when `put_object` and `generate_presigned_url` both succeed, returning the URL; any failure is a `StorageError` with the bucket and the key whose text is "Error al subir archivo: " followed by the text of the failing call, `put_object` or `generate_presigned_url` |
| Storage.LastSegment | backend/app/storage/s3_client.py:143 | `split(sep)[-1]`: the longest suffix without the separator |
| Storage.ContentType | backend/app/storage/s3_client.py:133-152 | the result is one of the four MIME types or "application/octet-stream" |
| Storage.ContentTypeOfKey | backend/app/storage/s3_client.py:143-152 | the content type of a generated key is the MIME type of its lower-cased extension, or the octet stream for an unknown one |
| Storage.ContentTypeDocx | backend/app/storage/s3_client.py:143-152 | a ".docx" key gets the Word MIME type |
| Storage.ContentTypeNoExtension | backend/app/storage/s3_client.py:143-152 | a key with an empty extension gets "application/octet-stream" |
| Storage.S3Client.DeleteFile | backend/app/storage/s3_client.py:154-177 | outside mock mode, or for a URL that is not `file://`, it returns True and changes nothing; otherwise it removes the derived path if it is a file and returns True, or raises a `StorageError` if it is a directory |
| Storage.LocatorPathRoundTrip | backend/app/storage/s3_client.py:166-167 | removing "file://" from a mock locator gives back the written path |
| Storage.MockRoundTrip | backend/app/storage/s3_client.py:47-174 | two mock uploads get different locators; the path a locator names holds exactly the uploaded bytes; deleting by that locator removes the file, keeps the other one and answers `True`; deleting again still answers `True` |
| Storage.DistinctMockPaths | backend/app/storage/s3_client.py:70 | two distinct uuids give two distinct mock paths |
| Storage.DeleteTwice | backend/app/storage/s3_client.py:154-174 | deleting a mock file by its locator twice answers `True` both times, removes that file and keeps any other |
| Storage.UploadThenRemoveRestores | backend/app/storage/s3_client.py:164-170 | uploading to a fresh path and then deleting it restores the store; deleting again changes nothing |
| Storage.ClientRegistry.GetS3Client | backend/app/storage/s3_client.py:183-198 | a client is built only when none exists; later calls return the same instance and ignore `use_mock` |
| Storage.ClientRegistry.Reset | backend/app/storage/s3_client.py:180 | the shared instance is cleared |
| Storage.ClientRegistry.UploadAndGetUrl | backend/app/storage/s3_client.py:201-213 | the shortcut uploads through the shared client, created with automatic mode if absent, using the default expiry; the client has then issued one more id, and the disk gained the mock directories only if the call created a mock client |
| Storage.ShortcutTwice | backend/app/storage/s3_client.py:183-213 | two shortcut calls after a reset share one automatic-mode client, which has then issued exactly the two ids |
| MarkdownToHtml.Convert | backend/app/converter/markdown_to_html.py:12-60 | `None` and "" raise `ValueError`; other non-strings raise `TypeError`; any other string, blank included, is rendered; a library failure is an `Exception` with the "Error al convertir Markdown: " prefix |
| MarkdownToHtml.ExtensionsDefault | backend/app/converter/markdown_to_html.py:43-50 | leaving `extensions` out is the same as passing the four defaults in order; an explicit list, even an empty one, is used unchanged |
| MarkdownToHtml.WhitespaceIsRendered | backend/app/converter/markdown_to_html.py:40-41 | non-empty text made only of Python whitespace is never rejected by the guards |
| MarkdownToHtml.ConvertWithMetadata | backend/app/converter/markdown_to_html.py:63-90 | no guards; the result has exactly the keys `html` and `metadata`; `html` is the library's HTML and `metadata` is the library's `Meta` mapping, each key with its list of lines, so empty when there is no metadata block; library failures propagate |
| MarkdownToHtml.MetaValue | backend/app/converter/markdown_to_html.py:89 | the metadata keeps its keys, and each key maps to a list of exactly its lines, in order |
| MarkdownToHtml.MetadataExtensionList | backend/app/converter/markdown_to_html.py:75-83 | metadata conversion uses the four defaults followed by "meta" |
| HtmlToDocx.Converted | backend/app/converter/html_to_docx.py:14-59 | non-strings, `None` included, raise `TypeError` before the emptiness check; empty or blank HTML raises `ValueError`; a parser or save failure inside the `try` is an `Exception` whose text is "Error al convertir HTML a DOCX: " followed by the library's text; success returns the saved bytes of the styled document |
| HtmlToDocx.Convert | backend/app/converter/html_to_docx.py:14-59 | building the document, styling it in place and saving it gives `Converted` |
| HtmlToDocx.Styled | backend/app/converter/html_to_docx.py:48-49 | styles apply only when `custom_styles` is truthy and has "font_size"; `None` and `{}` leave the document unstyled |
| HtmlToDocx.ApplyCustomStyles | backend/app/converter/html_to_docx.py:90-102 | with "font_size" present every run of every paragraph ends with that size and keeps its text; without it no run changes |
| HtmlToDocx.WithFontSize | backend/app/converter/html_to_docx.py:99-102 | the same paragraphs and runs with the same texts, every run at the given size |
| HtmlToDocx.WithFontSizeIdempotent | backend/app/converter/html_to_docx.py:99-102 | applying the same font size twice is applying it once |
| HtmlToDocx.StyledValue | backend/app/converter/html_to_docx.py:100-102 | once every run has the size, the document's contents are the styled contents |
| HtmlToDocx.Document.constructor | backend/app/converter/html_to_docx.py:41-46 | the document built from the parser's output holds exactly that output in fresh runs |
| HtmlToDocx.ConvertWithTemplate | backend/app/converter/html_to_docx.py:62-87 | no guards and no wrapping; it starts from the template when the path is truthy and from a blank document otherwise |
| HtmlToDocx.AddAndSave | backend/app/converter/html_to_docx.py:80-87 | success exactly when the parser and the save both succeed, returning the saved bytes; the parser's or the save's exception propagates with its own text |
| HtmlToDocx.TemplateFreeAgreesWithConvert | backend/app/converter/html_to_docx.py:62-87 | without a template or styles, both entry points succeed on the same non-blank HTML with the same bytes |
| HtmlToDocx.TemplateSkipsGuards | backend/app/converter/html_to_docx.py:75-81 | input that `convert` rejects reaches the parser in `convert_with_template` |
| Text.Lower | backend/handler.py:64 | `str.lower()` keeps the length and lower-cases each character |
| Text.LowerIdempotent | backend/handler.py:64 | lower-casing twice is lower-casing once |
| Text.StripEmptyIffBlank | backend/app/converter/html_to_docx.py:36 | `s.strip() == ""` holds exactly for strings made only of whitespace |
| Text.Utf8Length | backend/handler.py:78 | the UTF-8 length lies between one and four bytes per character |
| Text.Utf8LengthAsciiIff | backend/handler.py:78 | the UTF-8 length equals the number of characters exactly for ASCII text |
| Text.RemoveAllAbsent | backend/app/storage/s3_client.py:167 | `replace` leaves a string unchanged when a character of the pattern never occurs in it |

## Left out

- Logging, the Lambda `context` object (`context.aws_request_id` is read before anything else) and `logger.setLevel`.
- `json.loads` is the `parseJson` parameter. `JSONDecodeError` is `None`, and JSON numbers with a fraction are not modelled (`PyValue` has no floats).
- `json.dumps` of the body and `datetime.utcnow().isoformat()` are left out: the envelope keeps the body as a record with a `ToDict` view, and the timestamp is the `now` parameter.
- python-markdown, htmldocx and python-docx are function parameters. Rendering, HTML parsing and DOCX serialisation are not modelled. A document holds paragraphs of runs only, so tables, headers and other parts that `document.paragraphs` does not list are outside the model.
- boto3 (`boto3.client`, `put_object`, `generate_presigned_url`) is represented by an `SdkClient` value and two function parameters. Creating the SDK client is taken never to fail.
- `uuid.uuid4()` is the `id` or `uuid` parameter. Inside a client, `S3Client.UploadAndGetUrl` requires it to be well-formed and not issued before. The handler's single upload needs no such requirement.
- The filesystem is a map from path strings to bytes plus a set of directory paths. `Path` normalisation (".", "..", repeated "/", `absolute()` of a relative path) is not modelled.
- Storage.S3Client.constructor: in mock mode, requires that no file occupies `/tmp` or `/tmp/s3-mock`, because a failing `mkdir` is not modelled.
- Storage.MockUpload: of the `open` failures, only a directory at the path, a file as its parent, and a missing parent are told apart. A file further up the path is reported as "No such file or directory", where Python says "Not a directory".
- Storage.S3Client.DeleteFile: a directory at the path is the only `unlink` failure modelled; the `OSError` texts leave Python's escaping of the path out.
- Environment parsing (`os.getenv`, `int(...)`, and the `ValueError` of a non-numeric value) is left out: `Environment` holds already converted values.
- Text.Lower: only ASCII letters are lower-cased. Membership in {"docx", "html"} is the same as with Python's full Unicode `lower`, because no non-ASCII character lower-cases to one of those letters.
- Text.Utf8Length: a lone surrogate cannot occur, because a Dafny `char` is a Unicode scalar value. In the program, `json.loads` of `"\ud800"` yields one, `.encode('utf-8')` then raises, and the request ends in a 500; that behaviour is dropped.
- HtmlToDocx.ApplyCustomStyles: the font size is an integer. python-docx's `Length` conversion and a failing assignment are not modelled.
- `backend/app/converter/exceptions.py` is not part of this model. `StorageError` is a datatype with message, bucket and key; the conversion errors are `PyException` values.
- `backend/local_test.py`, the test suite and the frontend are not part of this model.
