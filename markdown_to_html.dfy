/** The Markdown front end of `backend/app/converter/markdown_to_html.py`:
    input guards and the default extension list around the python-markdown
    library, which is a function parameter here. */
module MarkdownToHtml {
  import opened Py
  import opened Text

  /** `markdown.markdown(text, extensions=..., output_format="html5")` */
  type Renderer = (string, seq<string>) -> Outcome<string>

  /** `markdown.Markdown(extensions=...).convert(text)` together with the
      `Meta` mapping it collects (key to list of lines). */
  type MetaRenderer = (PyValue, seq<string>) -> Outcome<(string, map<string, seq<string>>)>

  const DefaultExtensions: seq<string> := ["fenced_code", "tables", "nl2br", "sane_lists"]
  const MetadataExtensions: seq<string> := DefaultExtensions + ["meta"]

  const EmptyMessage := "El contenido Markdown no puede estar vacío"
  const TypeMessage := "El contenido debe ser un string"
  const FailurePrefix := "Error al convertir Markdown: "

  /** `convert(markdown_text, extensions)`: `None` and `""` raise `ValueError`,
      any other non-string raises `TypeError`, every other string (blank
      ones included) goes to the library, whose failure is re-raised as
      `Exception` with a fixed prefix. */
  function Convert(markdownText: PyValue, extensions: Option<seq<string>>, markdown: Renderer): (r: Result<string, PyException>)
    ensures r.Failure? && r.error.ValueError? <==> markdownText == PyNone || markdownText == PyStr("")
    ensures r.Failure? && r.error.TypeError? <==> !markdownText.PyNone? && !markdownText.PyStr?
    ensures r.Failure? && (r.error.ValueError? || r.error.TypeError?) ==>
              r.error.message == if r.error.ValueError? then EmptyMessage else TypeMessage
    ensures r.Failure? ==> r.error.ValueError? || r.error.TypeError? || r.error.Exception?
    ensures markdownText.PyStr? && markdownText.s != "" ==>
              var rendered := markdown(markdownText.s, extensions.GetOr(DefaultExtensions));
              && (r.Success? <==> rendered.Ok?)
              && (r.Success? ==> r.value == rendered.value)
              && (r.Failure? ==> r.error == Exception(FailurePrefix + rendered.message))
  {
    if markdownText.PyNone? then Failure(ValueError(EmptyMessage))
    else if !markdownText.PyStr? then Failure(TypeError(TypeMessage))
    else if markdownText.s == "" then Failure(ValueError(EmptyMessage))
    else
      var used := if extensions.None? then DefaultExtensions else extensions.value;
      match markdown(markdownText.s, used)
      case Ok(html) => Success(html)
      case Fail(m) => Failure(Exception(FailurePrefix + m))
  }

  /** Leaving `extensions` out is the same as passing the four defaults, in
      their order; an explicit list, even an empty one, is passed through. */
  lemma ExtensionsDefault(markdownText: PyValue, extensions: seq<string>, markdown: Renderer)
    ensures Convert(markdownText, None, markdown) == Convert(markdownText, Some(DefaultExtensions), markdown)
    ensures markdownText.PyStr? && markdownText.s != "" ==>
              Convert(markdownText, Some(extensions), markdown) ==
                match markdown(markdownText.s, extensions)
                case Ok(html) => Success(html)
                case Fail(m) => Failure(Exception(FailurePrefix + m))
  {
  }

  /** Whitespace-only text is not rejected: it is rendered like any other. */
  lemma WhitespaceIsRendered(markdownText: string, markdown: Renderer)
    requires markdownText != "" && IsBlank(markdownText)
    ensures !Convert(PyStr(markdownText), None, markdown).Failure?
            || Convert(PyStr(markdownText), None, markdown).error.Exception?
  {
  }

  /** `convert_with_metadata(markdown_text)`: no guards; the library's own
      exception propagates unchanged. */
  function ConvertWithMetadata(markdownText: PyValue, markdown: MetaRenderer): (r: Result<map<string, PyValue>, PyException>)
    ensures r.Success? <==> markdown(markdownText, MetadataExtensions).Ok?
    ensures r.Success? ==>
              var (html, meta) := markdown(markdownText, MetadataExtensions).value;
              && r.value.Keys == {"html", "metadata"}
              && r.value["html"] == PyStr(html)
              && r.value["metadata"] == PyDict(MetaValue(meta))
    ensures r.Failure? ==> r.error == Raised(markdown(markdownText, MetadataExtensions).message)
  {
    match markdown(markdownText, MetadataExtensions)
    case Ok((html, meta)) =>
      Success(map["html" := PyStr(html), "metadata" := PyDict(MetaValue(meta))])
    case Fail(m) => Failure(Raised(m))
  }

  /** The `Meta` mapping as the Python value it is: each key maps to a list
      of strings. */
  function MetaValue(meta: map<string, seq<string>>): (d: map<string, PyValue>)
    ensures d.Keys == meta.Keys
    ensures forall k :: k in meta ==> d[k].PyList? && |d[k].items| == |meta[k]|
    ensures forall k, i :: k in meta && 0 <= i < |meta[k]| ==> d[k].items[i] == PyStr(meta[k][i])
  {
    map k | k in meta :: PyList(seq(|meta[k]|, i requires 0 <= i < |meta[k]| => PyStr(meta[k][i])))
  }

  /** Metadata extraction uses the four defaults plus "meta", in that order. */
  lemma MetadataExtensionList()
    ensures MetadataExtensions == ["fenced_code", "tables", "nl2br", "sane_lists", "meta"]
    ensures MetadataExtensions[..4] == DefaultExtensions
  {
  }
}
