/** The DOCX back end of `backend/app/converter/html_to_docx.py`. The
    python-docx document is an object graph of paragraphs and runs whose run
    font size `_apply_custom_styles` overwrites in place; htmldocx (which
    fills a document from HTML) and `Document.save` are function parameters
    working on the document's value. */
module HtmlToDocx {
  import opened Py
  import opened Text

  const TypeMessage := "El contenido debe ser un string"
  const EmptyMessage := "El contenido HTML no puede estar vacío"
  const FailurePrefix := "Error al convertir HTML a DOCX: "
  const FontSizeKey := "font_size"

  /** What a run holds: its text and its font size (`None` when inherited). */
  datatype RunValue = RunValue(text: string, fontSize: Option<int>)

  /** A document's body as values: its paragraphs, each a list of runs. */
  type DocumentValue = seq<seq<RunValue>>

  /** `HtmlToDocx().add_html_to_document(html, document)` on a document with
      the given contents: the contents afterwards, or the exception's text. */
  type HtmlParser = (DocumentValue, PyValue) -> Outcome<DocumentValue>

  /** `document.save(buffer)` followed by `buffer.read()`. */
  type Saver = DocumentValue -> Outcome<Bytes>

  /** `Document(path)`: the contents of a template file. */
  type TemplateLoader = string -> Outcome<DocumentValue>

  /** A python-docx run; only its font size is ever changed. */
  class Run {
    const text: string
    var fontSize: Option<int>

    constructor(value: RunValue)
      ensures text == value.text && fontSize == value.fontSize
    {
      text := value.text;
      fontSize := value.fontSize;
    }
  }

  /** A python-docx paragraph: the list of its runs. */
  class Paragraph {
    const runs: seq<Run>

    constructor(runs: seq<Run>)
      ensures this.runs == runs
    {
      this.runs := runs;
    }

    function Value(): (v: seq<RunValue>)
      reads runs
      ensures |v| == |runs|
      ensures forall j :: 0 <= j < |runs| ==> v[j] == RunValue(runs[j].text, runs[j].fontSize)
    {
      seq(|runs|, j requires 0 <= j < |runs| reads runs => RunValue(runs[j].text, runs[j].fontSize))
    }
  }

  /** A python-docx document: `document.paragraphs`. */
  class Document {
    const paragraphs: seq<Paragraph>

    /** Every run reachable from the document's paragraphs. */
    ghost function Runs(): set<Run> {
      set p, r | p in paragraphs && r in p.runs :: r
    }

    /** The document's contents. */
    function Value(): (v: DocumentValue)
      reads paragraphs, Runs()
      ensures |v| == |paragraphs|
      ensures forall i :: 0 <= i < |paragraphs| ==> v[i] == paragraphs[i].Value()
    {
      seq(|paragraphs|, i requires 0 <= i < |paragraphs| reads paragraphs, Runs() =>
        assert forall r :: r in paragraphs[i].runs ==> r in Runs();
        paragraphs[i].Value())
    }

    /** Allocates the paragraphs and runs that hold `value`. */
    constructor(value: DocumentValue)
      ensures Value() == value
      ensures fresh(Runs())
    {
      var built: seq<Paragraph> := [];
      ghost var made: set<Run> := {};
      var i := 0;
      while i < |value|
        invariant 0 <= i <= |value| && |built| == i
        invariant forall k :: 0 <= k < i ==> built[k].Value() == value[k]
        invariant forall k, r :: 0 <= k < i && r in built[k].runs ==> r in made
        invariant fresh(made)
      {
        var runs: seq<Run> := [];
        var j := 0;
        while j < |value[i]|
          invariant 0 <= j <= |value[i]| && |runs| == j
          invariant forall k :: 0 <= k < j ==> runs[k].text == value[i][k].text && runs[k].fontSize == value[i][k].fontSize
          invariant forall k :: 0 <= k < i ==> built[k].Value() == value[k]
          invariant forall k, r :: 0 <= k < i && r in built[k].runs ==> r in made
          invariant forall r :: r in runs ==> r in made
          invariant fresh(made)
        {
          var run := new Run(value[i][j]);
          runs := runs + [run];
          made := made + {run};
          j := j + 1;
        }
        var paragraph := new Paragraph(runs);
        built := built + [paragraph];
        i := i + 1;
      }
      paragraphs := built;
      new;
      assert forall r :: r in Runs() ==> r in made;
    }
  }

  /** The contents once every run's font size has been set to `size`: the
      same paragraphs and runs, with the same texts. */
  function WithFontSize(value: DocumentValue, size: int): (v: DocumentValue)
    ensures |v| == |value|
    ensures forall i :: 0 <= i < |value| ==> |v[i]| == |value[i]|
    ensures forall i, j :: 0 <= i < |value| && 0 <= j < |value[i]| ==>
              v[i][j] == RunValue(value[i][j].text, Some(size))
  {
    seq(|value|, i requires 0 <= i < |value| =>
      seq(|value[i]|, j requires 0 <= j < |value[i]| => RunValue(value[i][j].text, Some(size))))
  }

  /** Styling twice with the same size is styling once. */
  lemma WithFontSizeIdempotent(value: DocumentValue, size: int)
    ensures WithFontSize(WithFontSize(value, size), size) == WithFontSize(value, size)
  {
    var once := WithFontSize(value, size);
    var twice := WithFontSize(once, size);
    assert |twice| == |once|;
    forall i | 0 <= i < |once| ensures twice[i] == once[i] {
      assert |twice[i]| == |once[i]|;
    }
  }

  /** What `custom_styles` does to the contents: applied only when the
      dictionary is truthy (present and non-empty), and then only through
      its "font_size" entry. */
  function Styled(value: DocumentValue, customStyles: Option<map<string, int>>): (v: DocumentValue)
    ensures customStyles.Some? && FontSizeKey in customStyles.value ==>
              v == WithFontSize(value, customStyles.value[FontSizeKey])
    ensures customStyles.None? || FontSizeKey !in customStyles.value ==> v == value
  {
    if customStyles.Some? && |customStyles.value| > 0 && FontSizeKey in customStyles.value then
      WithFontSize(value, customStyles.value[FontSizeKey])
    else value
  }

  /** `_apply_custom_styles(document, styles)`: when "font_size" is present,
      every run of every paragraph gets that size; otherwise nothing changes. */
  method ApplyCustomStyles(document: Document, styles: map<string, int>)
    modifies document.Runs()
    ensures FontSizeKey in styles ==> document.Value() == WithFontSize(old(document.Value()), styles[FontSizeKey])
    ensures FontSizeKey !in styles ==> document.Value() == old(document.Value())
  {
    if FontSizeKey in styles {
      var size := styles[FontSizeKey];
      var i := 0;
      while i < |document.paragraphs|
        invariant 0 <= i <= |document.paragraphs|
        invariant forall k, j :: 0 <= k < i && 0 <= j < |document.paragraphs[k].runs| ==>
                    document.paragraphs[k].runs[j].fontSize == Some(size)
        modifies document.Runs()
      {
        var runs := document.paragraphs[i].runs;
        var j := 0;
        while j < |runs|
          invariant 0 <= j <= |runs|
          invariant forall k, j' :: 0 <= k < i && 0 <= j' < |document.paragraphs[k].runs| ==>
                      document.paragraphs[k].runs[j'].fontSize == Some(size)
          invariant forall j' :: 0 <= j' < j ==> runs[j'].fontSize == Some(size)
          modifies document.Runs()
        {
          assert runs[j] in document.Runs() by {
            assert document.paragraphs[i] in document.paragraphs;
            assert runs[j] in document.paragraphs[i].runs;
          }
          runs[j].fontSize := Some(size);
          j := j + 1;
        }
        i := i + 1;
      }
      StyledValue(document, old(document.Value()), size);
    }
  }

  /** A document all of whose runs have size `size`, and whose shape and
      texts are those of `before`, holds `WithFontSize(before, size)`. */
  lemma StyledValue(document: Document, before: DocumentValue, size: int)
    requires |before| == |document.paragraphs|
    requires forall k :: 0 <= k < |before| ==> |before[k]| == |document.paragraphs[k].runs|
    requires forall k, j :: 0 <= k < |before| && 0 <= j < |before[k]| ==>
               before[k][j].text == document.paragraphs[k].runs[j].text
    requires forall k, j :: 0 <= k < |before| && 0 <= j < |document.paragraphs[k].runs| ==>
               document.paragraphs[k].runs[j].fontSize == Some(size)
    ensures document.Value() == WithFontSize(before, size)
  {
    var now := document.Value();
    var want := WithFontSize(before, size);
    forall k | 0 <= k < |before| ensures now[k] == want[k] {
      assert |now[k]| == |want[k]|;
    }
  }

  /** The result of `convert(html, custom_styles)`: a non-string is a
      `TypeError`, an empty or blank string a `ValueError`; otherwise a
      failure of the parser or of saving is re-raised as `Exception` with a
      fixed prefix, and the saved bytes are those of the styled contents. */
  function Converted(html: PyValue, customStyles: Option<map<string, int>>, addHtml: HtmlParser, save: Saver): (r: Result<Bytes, PyException>)
    ensures r.Failure? && r.error.TypeError? <==> !html.PyStr?
    ensures r.Failure? && r.error.ValueError? <==> html.PyStr? && IsBlank(html.s)
    ensures r.Failure? && r.error.TypeError? ==> r.error.message == TypeMessage
    ensures r.Failure? && r.error.ValueError? ==> r.error.message == EmptyMessage
    ensures r.Failure? ==> r.error.TypeError? || r.error.ValueError? || r.error.Exception?
    ensures r.Failure? && r.error.Exception? ==>
              |FailurePrefix| <= |r.error.message| && r.error.message[..|FailurePrefix|] == FailurePrefix
    ensures r.Success? <==>
              html.PyStr? && !IsBlank(html.s) && addHtml([], html).Ok?
              && save(Styled(addHtml([], html).value, customStyles)).Ok?
    ensures r.Success? ==> r.value == save(Styled(addHtml([], html).value, customStyles)).value
    ensures html.PyStr? && !IsBlank(html.s) && addHtml([], html).Fail? ==>
              r == Failure(Exception(FailurePrefix + addHtml([], html).message))
    ensures html.PyStr? && !IsBlank(html.s) && addHtml([], html).Ok?
            && save(Styled(addHtml([], html).value, customStyles)).Fail? ==>
              r == Failure(Exception(FailurePrefix + save(Styled(addHtml([], html).value, customStyles)).message))
  {
    if !html.PyStr? then Failure(TypeError(TypeMessage))
    else if IsBlank(html.s) then Failure(ValueError(EmptyMessage))
    else
      match addHtml([], html)
      case Fail(m) => Failure(Exception(FailurePrefix + m))
      case Ok(value) =>
        match save(Styled(value, customStyles))
        case Fail(m) => Failure(Exception(FailurePrefix + m))
        case Ok(bytes) => Success(bytes)
  }

  /** The guard `not html_content or not html_content.strip()`. */
  function Unusable(s: string): (b: bool)
    ensures b <==> IsBlank(s)
  {
    StripEmptyIffBlank(s);
    s == "" || Strip(s) == ""
  }

  /** `convert(html, custom_styles)`: checks the input, fills a blank
      document, styles its runs in place and saves it. */
  method Convert(html: PyValue, customStyles: Option<map<string, int>>, addHtml: HtmlParser, save: Saver)
    returns (r: Result<Bytes, PyException>)
    ensures r == Converted(html, customStyles, addHtml, save)
  {
    if !html.PyStr? {
      return Failure(TypeError(TypeMessage));
    }
    if Unusable(html.s) {
      return Failure(ValueError(EmptyMessage));
    }
    var parsed := addHtml([], html);
    if parsed.Fail? {
      return Failure(Exception(FailurePrefix + parsed.message));
    }
    var styled := StyleNewDocument(parsed.value, customStyles);
    var saved := save(styled);
    if saved.Fail? {
      return Failure(Exception(FailurePrefix + saved.message));
    }
    return Success(saved.value);
  }

  /** Builds a document holding `value`, applies `custom_styles` to its runs
      when the dictionary is truthy, and returns what the document then holds. */
  method StyleNewDocument(value: DocumentValue, customStyles: Option<map<string, int>>) returns (v: DocumentValue)
    ensures v == Styled(value, customStyles)
  {
    var document := new Document(value);
    if customStyles.Some? && |customStyles.value| > 0 {
      ApplyCustomStyles(document, customStyles.value);
    }
    v := document.Value();
  }

  /** `convert_with_template(html, template_path)`: no guards and no wrapping;
      the base document is the template when the path is truthy, else blank. */
  function ConvertWithTemplate(html: PyValue, templatePath: Option<string>, load: TemplateLoader, addHtml: HtmlParser, save: Saver): (r: Result<Bytes, PyException>)
    ensures (templatePath.None? || templatePath.value == "") ==> r == AddAndSave([], html, addHtml, save)
    ensures templatePath.Some? && templatePath.value != "" ==>
              (load(templatePath.value).Fail? ==> r == Failure(Raised(load(templatePath.value).message)))
              && (load(templatePath.value).Ok? ==> r == AddAndSave(load(templatePath.value).value, html, addHtml, save))
  {
    if templatePath.Some? && templatePath.value != "" then
      match load(templatePath.value)
      case Fail(m) => Failure(Raised(m))
      case Ok(base) => AddAndSave(base, html, addHtml, save)
    else AddAndSave([], html, addHtml, save)
  }

  /** Fills `base` from `html` and saves it, letting either failure through. */
  function AddAndSave(base: DocumentValue, html: PyValue, addHtml: HtmlParser, save: Saver): (r: Result<Bytes, PyException>)
    ensures r.Success? <==> addHtml(base, html).Ok? && save(addHtml(base, html).value).Ok?
    ensures r.Success? ==> r.value == save(addHtml(base, html).value).value
    ensures r.Failure? ==> r.error.Raised?
    ensures addHtml(base, html).Fail? ==> r == Failure(Raised(addHtml(base, html).message))
    ensures addHtml(base, html).Ok? && save(addHtml(base, html).value).Fail? ==>
              r == Failure(Raised(save(addHtml(base, html).value).message))
  {
    match addHtml(base, html)
    case Fail(m) => Failure(Raised(m))
    case Ok(value) =>
      match save(value)
      case Fail(m) => Failure(Raised(m))
      case Ok(bytes) => Success(bytes)
  }

  /** Without a template and without styles, the two entry points produce
      the same document for every non-blank string; they differ only in
      how failures are reported. */
  lemma TemplateFreeAgreesWithConvert(html: string, templatePath: Option<string>, load: TemplateLoader, addHtml: HtmlParser, save: Saver)
    requires !IsBlank(html)
    requires templatePath.None? || templatePath.value == ""
    ensures Converted(PyStr(html), None, addHtml, save).Success? <==>
            ConvertWithTemplate(PyStr(html), templatePath, load, addHtml, save).Success?
    ensures Converted(PyStr(html), None, addHtml, save).Success? ==>
            Converted(PyStr(html), None, addHtml, save).value ==
            ConvertWithTemplate(PyStr(html), templatePath, load, addHtml, save).value
  {
  }

  /** `convert_with_template` has no input checks: blank text and
      non-strings reach the parser. */
  lemma TemplateSkipsGuards(html: PyValue, addHtml: HtmlParser, save: Saver, load: TemplateLoader)
    requires !html.PyStr? || IsBlank(html.s)
    requires addHtml([], html).Ok? && save(addHtml([], html).value).Ok?
    ensures Converted(html, None, addHtml, save).Failure?
    ensures ConvertWithTemplate(html, None, load, addHtml, save).Success?
  {
  }
}
