/** The export engine: field normalisers with their fallbacks, the file-name
    stem, the four textual serialisers, the PDF exporter and the format
    dispatcher. Saving a file (`saveAs`, `pdf.save`) is modelled by returning
    the `Download` that would be handed to the browser. */
module ExportUtils {
  import opened Wrappers
  import opened StringOps
  import PdfLayout

  // ---------------------------------------------------------------------------
  // input records and normalisation
  // ---------------------------------------------------------------------------

  /** What `getTime()` reports for a `Date`: milliseconds, or NaN. */
  datatype Timestamp = NaN | Millis(ms: int)

  /** A `createdAt` value: a string or a `Date` object. */
  datatype DateInput = DateText(text: string) | DateObject(time: Timestamp)

  /** The runtime's date services, which are locale- and engine-dependent:
      `new Date(text)` and `toLocaleDateString()`. */
  datatype DateServices = DateServices(parse: string -> Timestamp, localeDate: int -> string)

  /** A project as it arrives; `None` is `null` or `undefined`. */
  datatype ExportProject = ExportProject(
    id: string,
    title: Option<string>,
    content: Option<string>,
    productType: Option<string>,
    createdAt: Option<DateInput>)

  datatype ExportOptions = ExportOptions(includeImages: bool, includeMetadata: bool, optimizeForPrint: bool)

  /** A field value the normalisers replace: falsy (missing or empty) or one of
      the strings left behind by serialising `undefined` and `null`. */
  predicate IsPlaceholder(v: Option<string>)
  {
    v == None || v == Some("") || v == Some("undefined") || v == Some("null")
  }

  function Normalize(v: Option<string>, fallback: string): (r: string)
    requires !IsPlaceholder(Some(fallback))
    ensures !IsPlaceholder(Some(r))
    ensures r == fallback || (v == Some(r) && !IsPlaceholder(v))
    ensures !IsPlaceholder(v) ==> r == v.value
  {
    if IsPlaceholder(v) then fallback else v.value
  }

  /** `getProjectType`. */
  function GetProjectType(v: Option<string>): (r: string)
    ensures IsPlaceholder(v) <==> r == "Digital Product" && v != Some("Digital Product")
    ensures !IsPlaceholder(v) ==> r == v.value
  {
    Normalize(v, "Digital Product")
  }

  /** `getProjectTitle`. */
  function GetProjectTitle(v: Option<string>): (r: string)
    ensures IsPlaceholder(v) <==> r == "Untitled Project" && v != Some("Untitled Project")
    ensures !IsPlaceholder(v) ==> r == v.value
  {
    Normalize(v, "Untitled Project")
  }

  /** `getProjectContent`. */
  function GetProjectContent(v: Option<string>): (r: string)
    ensures IsPlaceholder(v) <==> r == "No content available" && v != Some("No content available")
    ensures !IsPlaceholder(v) ==> r == v.value
  {
    Normalize(v, "No content available")
  }

  /** Normalising a normalised value changes nothing. */
  lemma NormalizersIdempotent(v: Option<string>)
    ensures GetProjectType(Some(GetProjectType(v))) == GetProjectType(v)
    ensures GetProjectTitle(Some(GetProjectTitle(v))) == GetProjectTitle(v)
    ensures GetProjectContent(Some(GetProjectContent(v))) == GetProjectContent(v)
  {
  }

  /** The moment a date stands for: a string goes through `new Date(...)`. */
  function TimeOf(date: DateInput, env: DateServices): Timestamp
  {
    match date
    case DateText(s) => env.parse(s)
    case DateObject(t) => t
  }

  /** `formatDate`: a missing or empty date is unknown; a date whose time is
      NaN is invalid; any other date is shown in the locale's format. */
  function FormatDate(date: Option<DateInput>, env: DateServices): (r: string)
    ensures date == None || date == Some(DateText("")) ==> r == "Unknown Date"
    ensures date != None && date != Some(DateText("")) && TimeOf(date.value, env) == NaN ==> r == "Invalid Date"
    ensures date != None && date != Some(DateText("")) && TimeOf(date.value, env).Millis? ==>
      r == env.localeDate(TimeOf(date.value, env).ms)
  {
    match date
    case None => "Unknown Date"
    case Some(DateText(s)) =>
      if s == "" then "Unknown Date"
      else (match env.parse(s) case NaN => "Invalid Date" case Millis(ms) => env.localeDate(ms))
    case Some(DateObject(t)) =>
      match t case NaN => "Invalid Date" case Millis(ms) => env.localeDate(ms)
  }

  /** The four safe values every exporter computes first. */
  datatype Safe = Safe(title: string, content: string, productType: string, date: string)

  function Sanitize(p: ExportProject, env: DateServices): (s: Safe)
    ensures !IsPlaceholder(Some(s.title)) && !IsPlaceholder(Some(s.content))
    ensures !IsPlaceholder(Some(s.productType))
  {
    Safe(GetProjectTitle(p.title), GetProjectContent(p.content), GetProjectType(p.productType),
         FormatDate(p.createdAt, env))
  }

  /** A project with every field missing or a placeholder and an unparseable
      date is rendered with the fallbacks, never with "undefined" or "null". */
  lemma FallbacksForPlaceholders(env: DateServices)
    requires env.parse("not-a-date") == NaN
    ensures Sanitize(ExportProject("p1", None, Some("null"), Some(""), Some(DateText("not-a-date"))), env)
         == Safe("Untitled Project", "No content available", "Digital Product", "Invalid Date")
  {
  }

  // ---------------------------------------------------------------------------
  // file name
  // ---------------------------------------------------------------------------

  /** `replace(/[^a-z0-9]/gi, '_')`: the `i` flag makes the class cover the
      ASCII letters of both cases and the digits. */
  function UnderscoreNonAlnum(title: string): (r: string)
    ensures |r| == |title|
    ensures forall i :: 0 <= i < |r| ==> r[i] == if IsAsciiAlnum(title[i]) then title[i] else '_'
  {
    if title == [] then [] else [if IsAsciiAlnum(title[0]) then title[0] else '_'] + UnderscoreNonAlnum(title[1..])
  }

  predicate IsStemChar(c: char)
  {
    ('a' <= c <= 'z') || ('0' <= c <= '9') || c == '_'
  }

  /** `title.replace(/[^a-z0-9]/gi, '_').toLowerCase()`: one character of the
      stem per character of the title, drawn from `[a-z0-9_]`. */
  function FileStem(title: string): (r: string)
    ensures |r| == |title|
    ensures forall i :: 0 <= i < |r| ==> IsStemChar(r[i])
    ensures forall i :: 0 <= i < |r| ==> (r[i] == '_' <==> !IsAsciiAlnum(title[i]))
    ensures forall i :: 0 <= i < |r| && IsAsciiAlnum(title[i]) ==> r[i] == LowerChar(title[i])
  {
    Lower(UnderscoreNonAlnum(title))
  }

  /** Deriving the stem twice gives the same stem. */
  lemma FileStemIdempotent(title: string)
    ensures FileStem(FileStem(title)) == FileStem(title)
  {
    var s := FileStem(title);
    assert forall i :: 0 <= i < |s| ==> FileStem(s)[i] == s[i];
  }

  lemma FileStemExample()
    ensures FileStem("Q3 b!") == "q3_b_"
  {
    assert UnderscoreNonAlnum("Q3 b!") == "Q3_b_";
  }

  // ---------------------------------------------------------------------------
  // textual serialisers
  // ---------------------------------------------------------------------------

  /** The DOCX exporter's text. */
  function DocxText(s: Safe, includeMetadata: bool): string
  {
    s.title + "\n\n"
      + (if includeMetadata then "Type: " + s.productType + "\n" + "Created: " + s.date + "\n\n" else "")
      + s.content
  }

  /** The Markdown exporter's text. */
  function MarkdownText(s: Safe, includeMetadata: bool): string
  {
    "# " + s.title + "\n\n"
      + (if includeMetadata
         then "**Type:** " + s.productType + "  \n" + "**Created:** " + s.date + "\n\n" + "---\n\n"
         else "")
      + s.content
  }

  /** The plain-text exporter's text: the title underlined with `=`. */
  function PlainText(s: Safe, includeMetadata: bool): string
  {
    s.title + "\n" + Repeat('=', |s.title|) + "\n\n"
      + (if includeMetadata then "Type: " + s.productType + "\n" + "Created: " + s.date + "\n\n" else "")
      + s.content
  }

  /** `content.replace(/\n/g, '<br>')`. */
  function NewlinesToBr(content: string): string
  {
    if content == [] then []
    else (if content[0] == '\n' then "<br>" else [content[0]]) + NewlinesToBr(content[1..])
  }

  const HtmlBeforeTitle: string :=
    "\n"
    + "<!DOCTYPE html>\n"
    + "<html lang=\"en\">\n"
    + "<head>\n"
    + "    <meta charset=\"UTF-8\">\n"
    + "    <meta name=\"viewport\" content=\"width=device-width, initial-scale=1.0\">\n"
    + "    <title>"

  /** From the end of `<title>` to the start of the `<h1>` text, including the
      fixed style sheet. */
  const HtmlStyleToHeading: string :=
    "</title>\n"
    + "    <style>\n"
    + "        body {\n"
    + "            font-family: 'Arial', sans-serif;\n"
    + "            line-height: 1.6;\n"
    + "            max-width: 800px;\n"
    + "            margin: 0 auto;\n"
    + "            padding: 20px;\n"
    + "            color: #333;\n"
    + "        }\n"
    + "        h1 {\n"
    + "            color: #6366F1;\n"
    + "            border-bottom: 2px solid #6366F1;\n"
    + "            padding-bottom: 10px;\n"
    + "        }\n"
    + "        .metadata {\n"
    + "            background: #f8f9fa;\n"
    + "            padding: 15px;\n"
    + "            border-radius: 8px;\n"
    + "            margin: 20px 0;\n"
    + "            font-size: 14px;\n"
    + "        }\n"
    + "        .content {\n"
    + "            white-space: pre-wrap;\n"
    + "            line-height: 1.8;\n"
    + "        }\n"
    + "        @media print {\n"
    + "            body { margin: 0; padding: 15px; }\n"
    + "        }\n"
    + "    </style>\n"
    + "</head>\n"
    + "<body>\n"
    + "    <h1>"

  function HtmlMetadata(s: Safe): string
  {
    "\n    <div class=\"metadata\">\n        <strong>Type:</strong> " + s.productType
      + "<br>\n        <strong>Created:</strong> " + s.date + "\n    </div>\n    "
  }

  /** The page up to the end of the `<h1>`: the title goes into `<title>`
      and again into the `<h1>`, with `between` (the style sheet) between. */
  function HtmlHead(s: Safe, between: string): string
  {
    HtmlBeforeTitle + s.title + between + s.title + "</h1>\n    "
  }

  /** The content block and the closing tags. */
  function HtmlBody(s: Safe): string
  {
    "\n    <div class=\"content\">" + NewlinesToBr(s.content) + "</div>\n</body>\n</html>"
  }

  /** The HTML document around a given text between the `<title>` and the
      `<h1>` contents. */
  function HtmlPage(s: Safe, includeMetadata: bool, between: string): string
  {
    HtmlHead(s, between) + (if includeMetadata then HtmlMetadata(s) else "") + HtmlBody(s)
  }

  /** The HTML exporter's document. */
  function HtmlText(s: Safe, includeMetadata: bool): string
  {
    HtmlPage(s, includeMetadata, HtmlStyleToHeading)
  }

  /** `+=` on the running DOCX text. */
  method BuildDocx(s: Safe, includeMetadata: bool) returns (content: string)
    ensures content == DocxText(s, includeMetadata)
  {
    content := s.title + "\n\n";
    if includeMetadata {
      content := content + "Type: " + s.productType + "\n";
      content := content + "Created: " + s.date + "\n\n";
    }
    content := content + s.content;
  }

  /** `+=` on the running Markdown text. */
  method BuildMarkdown(s: Safe, includeMetadata: bool) returns (content: string)
    ensures content == MarkdownText(s, includeMetadata)
  {
    content := "# " + s.title + "\n\n";
    if includeMetadata {
      content := content + "**Type:** " + s.productType + "  \n";
      content := content + "**Created:** " + s.date + "\n\n";
      content := content + "---\n\n";
    }
    content := content + s.content;
  }

  /** `+=` on the running plain text. */
  method BuildPlainText(s: Safe, includeMetadata: bool) returns (content: string)
    ensures content == PlainText(s, includeMetadata)
  {
    content := s.title + "\n" + Repeat('=', |s.title|) + "\n\n";
    if includeMetadata {
      content := content + "Type: " + s.productType + "\n";
      content := content + "Created: " + s.date + "\n\n";
    }
    content := content + s.content;
  }

  // ---------------------------------------------------------------------------
  // properties of the serialisers
  // ---------------------------------------------------------------------------

  predicate EndsWith(s: string, suffix: string)
  {
    |suffix| <= |s| && s[|s| - |suffix|..] == suffix
  }

  /** DOCX, Markdown and plain text all end with the content, verbatim. */
  lemma ContentIsVerbatimSuffix(s: Safe, includeMetadata: bool)
    ensures EndsWith(DocxText(s, includeMetadata), s.content)
    ensures EndsWith(MarkdownText(s, includeMetadata), s.content)
    ensures EndsWith(PlainText(s, includeMetadata), s.content)
  {
  }

  /** Without metadata, the Markdown text is the DOCX text under a `# `
      heading marker. */
  lemma MarkdownIsHeadedDocx(s: Safe)
    ensures MarkdownText(s, false) == "# " + DocxText(s, false)
  {
  }

  /** The plain text is the DOCX text with an underline of `=` as long as the
      title inserted after the title. */
  lemma PlainTextIsUnderlinedDocx(s: Safe, includeMetadata: bool)
    ensures var docx := DocxText(s, includeMetadata);
      var plain := PlainText(s, includeMetadata);
      |plain| == |docx| + |s.title| + 1
      && plain[..|s.title|] == s.title && plain[|s.title|] == '\n'
      && (forall i :: |s.title| < i <= 2 * |s.title| ==> plain[i] == '=')
      && plain[2 * |s.title| + 1..] == docx[|s.title|..]
  {
    var t := s.title;
    var docx := DocxText(s, includeMetadata);
    var plain := PlainText(s, includeMetadata);
    var tail := docx[|t|..];
    assert docx == t + tail;
    assert plain == t + "\n" + Repeat('=', |t|) + tail;
  }

  /** Metadata adds exactly its block, after the title block, in all three
      line-oriented formats. */
  lemma MetadataBlockIff(s: Safe)
    ensures var block := "Type: " + s.productType + "\n" + "Created: " + s.date + "\n\n";
      && DocxText(s, true) == s.title + "\n\n" + block + s.content
      && DocxText(s, false) == s.title + "\n\n" + s.content
    ensures var block := "**Type:** " + s.productType + "  \n" + "**Created:** " + s.date + "\n\n" + "---\n\n";
      && MarkdownText(s, true) == "# " + s.title + "\n\n" + block + s.content
      && MarkdownText(s, false) == "# " + s.title + "\n\n" + s.content
    ensures var block := "Type: " + s.productType + "\n" + "Created: " + s.date + "\n\n";
      && PlainText(s, true)[..|PlainText(s, true)| - |s.content|] == PlainText(s, false)[..|PlainText(s, false)| - |s.content|] + block
  {
  }

  /** The metadata block is present in the HTML document exactly when it is
      asked for, always at the same place, between the heading and the
      content; this holds whatever the style sheet. */
  lemma HtmlMetadataIff(s: Safe, between: string)
    ensures HtmlPage(s, true, between) == HtmlHead(s, between) + HtmlMetadata(s) + HtmlBody(s)
    ensures HtmlPage(s, false, between) == HtmlHead(s, between) + HtmlBody(s)
  {
    assert HtmlHead(s, between) + "" == HtmlHead(s, between);
  }

  /** The title is written twice in the head of the page: right after
      `<title>` and again as the `<h1>` text. */
  lemma HtmlTitleTwice(s: Safe, between: string)
    ensures var head := HtmlHead(s, between);
      var t := |HtmlBeforeTitle|;
      var h := t + |s.title| + |between|;
      && head[t..t + |s.title|] == s.title
      && head[h..h + |s.title|] == s.title
  {
    TwoCopies(HtmlBeforeTitle, s.title, between, "</h1>\n    ");
  }

  lemma TwoCopies(pre: string, x: string, mid: string, post: string)
    ensures var w := pre + x + mid + x + post;
      && w[|pre|..|pre| + |x|] == x
      && w[|pre| + |x| + |mid|..|pre| + |x| + |mid| + |x|] == x
  {
    var w := pre + x + mid + x + post;
    assert forall i :: 0 <= i < |x| ==> w[|pre| + i] == x[i];
    assert forall i :: 0 <= i < |x| ==> w[|pre| + |x| + |mid| + i] == x[i];
  }

  /** The HTML `replace` is splitting on newlines and joining with `<br>`. */
  lemma {:induction false} NewlinesToBrIsSplitJoin(content: string)
    ensures NewlinesToBr(content) == Join(Split(content, "\n"), "<br>")
    decreases |content|
  {
    if content != [] {
      NewlinesToBrIsSplitJoin(content[1..]);
      var rest := Split(content[1..], "\n");
      if content[0] == '\n' {
        assert content[..1] == "\n";
        assert ([""] + rest)[1..] == rest;
      } else {
        assert content[..1] != "\n";
        JoinConsHead([content[0]], rest, "<br>");
      }
    }
  }

  /** No newline survives in the HTML content, and text without newlines is
      kept as it is. */
  lemma {:induction false} NewlinesToBrRemovesNewlines(content: string)
    ensures '\n' !in NewlinesToBr(content)
    ensures '\n' !in content ==> NewlinesToBr(content) == content
    decreases |content|
  {
    if content != [] {
      NewlinesToBrRemovesNewlines(content[1..]);
    }
  }

  // ---------------------------------------------------------------------------
  // exporters and dispatcher
  // ---------------------------------------------------------------------------

  datatype ExportResult = ExportResult(success: bool, message: string)

  /** What a download holds: text, or a laid-out PDF. */
  datatype Payload = TextPayload(text: string) | PdfPayload(placed: seq<PdfLayout.Placed>, pageCount: nat)

  /** The file handed to `saveAs` / `pdf.save`. */
  datatype Download = Download(filename: string, mime: string, payload: Payload)

  /** jsPDF's page size, in whole millimetres, and its text wrapper. */
  datatype PdfServices = PdfServices(pageWidth: int, pageHeight: int, splitTextToSize: (string, int) -> seq<string>)

  /** The five export formats. */
  datatype Format = Pdf | Docx | Html | Markdown | Text

  /** The `switch (format)` of `exportProject`: the five names it accepts. */
  function ParseFormat(name: string): Option<Format>
  {
    if name == "pdf" then Some(Pdf)
    else if name == "docx" then Some(Docx)
    else if name == "html" then Some(Html)
    else if name == "markdown" then Some(Markdown)
    else if name == "text" then Some(Text)
    else None
  }

  /** Exactly the five lower-case names are accepted, each as its own format. */
  lemma ParseFormatNames(name: string)
    ensures ParseFormat(name) == Some(Pdf) <==> name == "pdf"
    ensures ParseFormat(name) == Some(Docx) <==> name == "docx"
    ensures ParseFormat(name) == Some(Html) <==> name == "html"
    ensures ParseFormat(name) == Some(Markdown) <==> name == "markdown"
    ensures ParseFormat(name) == Some(Text) <==> name == "text"
    ensures ParseFormat(name) == None <==> name !in ["pdf", "docx", "html", "markdown", "text"]
  {
  }

  const DocxMime: string := "application/vnd.openxmlformats-officedocument.wordprocessingml.document"

  /** The content wrapped to the printable width, as `splitTextToSize` does. */
  function PdfLines(s: Safe, pdf: PdfServices): seq<string>
  {
    pdf.splitTextToSize(s.content, pdf.pageWidth - PdfLayout.Margin * 2)
  }

  /** The PDF a project lays out to. */
  function PdfDocument(s: Safe, includeMetadata: bool, pdf: PdfServices): Payload
  {
    var start := PdfLayout.Cursor(1, PdfLayout.StartY(includeMetadata));
    var n := PdfLayout.FinalPage(PdfLines(s, pdf), start, pdf.pageHeight);
    PdfPayload(PdfLayout.Header(s.title, s.productType, s.date, includeMetadata)
               + PdfLayout.Flow(PdfLines(s, pdf), start, pdf.pageHeight)
               + PdfLayout.Footers(n, n, pdf.pageWidth, pdf.pageHeight), n)
  }

  /** The file that a successful export in a text format produces. */
  function TextDownload(s: Safe, format: Format, includeMetadata: bool): Download
    requires format != Pdf
  {
    var stem := FileStem(s.title);
    match format
    case Docx => Download(stem + ".docx", DocxMime, TextPayload(DocxText(s, includeMetadata)))
    case Html => Download(stem + ".html", "text/html", TextPayload(HtmlText(s, includeMetadata)))
    case Markdown => Download(stem + ".md", "text/markdown", TextPayload(MarkdownText(s, includeMetadata)))
    case Text => Download(stem + ".txt", "text/plain", TextPayload(PlainText(s, includeMetadata)))
  }

  /** The file that a successful export in `format` produces. */
  function ExpectedDownload(s: Safe, format: Format, includeMetadata: bool, pdf: PdfServices): Download
  {
    if format == Pdf then Download(FileStem(s.title) + ".pdf", "application/pdf", PdfDocument(s, includeMetadata, pdf))
    else TextDownload(s, format, includeMetadata)
  }

  function SuccessMessage(format: Format): string
  {
    match format
    case Pdf => "PDF exported successfully"
    case Docx => "DOCX exported successfully"
    case Html => "HTML exported successfully"
    case Markdown => "Markdown exported successfully"
    case Text => "Text file exported successfully"
  }

  method ExportToPdf(project: ExportProject, options: ExportOptions, env: DateServices, pdf: PdfServices)
    returns (result: ExportResult, file: Download)
    ensures result == ExportResult(true, SuccessMessage(Pdf))
    ensures file == ExpectedDownload(Sanitize(project, env), Pdf, options.includeMetadata, pdf)
  {
    var maxWidth := pdf.pageWidth - PdfLayout.Margin * 2;
    var s := Sanitize(project, env);
    var lines := pdf.splitTextToSize(s.content, maxWidth);
    var placed, pageCount := PdfLayout.LayOut(s.title, s.productType, s.date, options.includeMetadata,
                                              lines, pdf.pageWidth, pdf.pageHeight);
    assert lines == PdfLines(s, pdf);
    assert PdfPayload(placed, pageCount) == PdfDocument(s, options.includeMetadata, pdf);
    var filename := FileStem(s.title);
    file := Download(filename + ".pdf", "application/pdf", PdfPayload(placed, pageCount));
    assert file.filename == ExpectedDownload(s, Pdf, options.includeMetadata, pdf).filename;
    result := ExportResult(true, "PDF exported successfully");
  }

  method ExportToDocx(project: ExportProject, options: ExportOptions, env: DateServices)
    returns (result: ExportResult, file: Download)
    ensures result == ExportResult(true, SuccessMessage(Docx))
    ensures file == TextDownload(Sanitize(project, env), Docx, options.includeMetadata)
  {
    var s := Sanitize(project, env);
    var content := BuildDocx(s, options.includeMetadata);
    file := Download(FileStem(s.title) + ".docx", DocxMime, TextPayload(content));
    assert TextDownload(s, Docx, options.includeMetadata).payload == TextPayload(DocxText(s, options.includeMetadata));
    assert file.filename == TextDownload(s, Docx, options.includeMetadata).filename;
    assert file.mime == TextDownload(s, Docx, options.includeMetadata).mime;
    assert file.payload == TextDownload(s, Docx, options.includeMetadata).payload;
    result := ExportResult(true, "DOCX exported successfully");
  }

  method ExportToHtml(project: ExportProject, options: ExportOptions, env: DateServices)
    returns (result: ExportResult, file: Download)
    ensures result == ExportResult(true, SuccessMessage(Html))
    ensures file == TextDownload(Sanitize(project, env), Html, options.includeMetadata)
  {
    var s := Sanitize(project, env);
    var htmlContent := HtmlText(s, options.includeMetadata);
    file := Download(FileStem(s.title) + ".html", "text/html", TextPayload(htmlContent));
    assert TextDownload(s, Html, options.includeMetadata).payload == TextPayload(HtmlText(s, options.includeMetadata));
    assert file.filename == TextDownload(s, Html, options.includeMetadata).filename;
    assert file.mime == TextDownload(s, Html, options.includeMetadata).mime;
    assert file.payload == TextDownload(s, Html, options.includeMetadata).payload;
    result := ExportResult(true, "HTML exported successfully");
  }

  method ExportToMarkdown(project: ExportProject, options: ExportOptions, env: DateServices)
    returns (result: ExportResult, file: Download)
    ensures result == ExportResult(true, SuccessMessage(Markdown))
    ensures file == TextDownload(Sanitize(project, env), Markdown, options.includeMetadata)
  {
    var s := Sanitize(project, env);
    var content := BuildMarkdown(s, options.includeMetadata);
    file := Download(FileStem(s.title) + ".md", "text/markdown", TextPayload(content));
    assert TextDownload(s, Markdown, options.includeMetadata).payload == TextPayload(MarkdownText(s, options.includeMetadata));
    assert file.filename == TextDownload(s, Markdown, options.includeMetadata).filename;
    assert file.mime == TextDownload(s, Markdown, options.includeMetadata).mime;
    assert file.payload == TextDownload(s, Markdown, options.includeMetadata).payload;
    result := ExportResult(true, "Markdown exported successfully");
  }

  method ExportToText(project: ExportProject, options: ExportOptions, env: DateServices)
    returns (result: ExportResult, file: Download)
    ensures result == ExportResult(true, SuccessMessage(Text))
    ensures file == TextDownload(Sanitize(project, env), Text, options.includeMetadata)
  {
    var s := Sanitize(project, env);
    var content := BuildPlainText(s, options.includeMetadata);
    file := Download(FileStem(s.title) + ".txt", "text/plain", TextPayload(content));
    assert TextDownload(s, Text, options.includeMetadata).payload == TextPayload(PlainText(s, options.includeMetadata));
    assert file.filename == TextDownload(s, Text, options.includeMetadata).filename;
    assert file.mime == TextDownload(s, Text, options.includeMetadata).mime;
    assert file.payload == TextDownload(s, Text, options.includeMetadata).payload;
    result := ExportResult(true, "Text file exported successfully");
  }

  /** The `switch` of `exportProject` once the format is known: exactly the
      matching exporter runs. */
  method RunExporter(p: ExportProject, format: Format, options: ExportOptions, env: DateServices, pdf: PdfServices)
    returns (result: ExportResult, file: Download)
    ensures result == ExportResult(true, SuccessMessage(format))
    ensures file == ExpectedDownload(Sanitize(p, env), format, options.includeMetadata, pdf)
  {
    match format
    case Pdf =>
      result, file := ExportToPdf(p, options, env, pdf);
    case Docx =>
      result, file := ExportToDocx(p, options, env);
    case Html =>
      result, file := ExportToHtml(p, options, env);
    case Markdown =>
      result, file := ExportToMarkdown(p, options, env);
    case Text =>
      result, file := ExportToText(p, options, env);
  }

  /** `exportProject`: a missing project and an unknown format are refused
      with their messages and produce no file; otherwise exactly the matching
      exporter runs. */
  method ExportProjectAs(project: Option<ExportProject>, format: string, options: ExportOptions,
                         env: DateServices, pdf: PdfServices)
    returns (result: ExportResult, file: Option<Download>)
    ensures project == None ==> result == ExportResult(false, "No project data provided") && file == None
    ensures project != None && ParseFormat(format) == None ==>
      result == ExportResult(false, "Unsupported export format") && file == None
    ensures project != None && ParseFormat(format) != None ==>
      && result == ExportResult(true, SuccessMessage(ParseFormat(format).value))
      && file == Some(ExpectedDownload(Sanitize(project.value, env), ParseFormat(format).value,
                                       options.includeMetadata, pdf))
    ensures result.success <==> file != None
  {
    if project == None {
      return ExportResult(false, "No project data provided"), None;
    }
    var p := project.value;
    var fmt := ParseFormat(format);
    if fmt == None {
      return ExportResult(false, "Unsupported export format"), None;
    }
    var f: Download;
    result, f := RunExporter(p, fmt.value, options, env, pdf);
    file := Some(f);
  }
}
