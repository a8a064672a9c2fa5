/** The export centre panel: the per-line Markdown-to-HTML conversion shared by
    its PDF, Word and HTML exporters, its Markdown template, the format
    selection and the export loop. */
module ExportCenter {
  import opened StringOps
  import ExportUtils

  // ---------------------------------------------------------------------------
  // line conversion
  // ---------------------------------------------------------------------------

  /** The three heading prefixes, tested in the order the converters test them. */
  predicate IsHeading(line: string)
  {
    StartsWith(line, "# ") || StartsWith(line, "## ") || StartsWith(line, "### ")
  }

  /** One line of content as HTML: a heading level per prefix with the prefix
      removed, a paragraph for any other line with something besides
      whitespace, and a line break for a blank line. */
  function LineToHtml(line: string): (r: string)
    ensures StartsWith(line, "# ") ==> r == "<h1>" + line[2..] + "</h1>"
    ensures StartsWith(line, "## ") ==> r == "<h2>" + line[3..] + "</h2>"
    ensures StartsWith(line, "### ") ==> r == "<h3>" + line[4..] + "</h3>"
    ensures !IsHeading(line) && !IsBlank(line) ==> r == "<p>" + line + "</p>"
    ensures r == "<br>" <==> !IsHeading(line) && IsBlank(line)
  {
    HeadingPrefixesExclusive(line);
    if StartsWith(line, "# ") then Tagged("h1", line[2..])
    else if StartsWith(line, "## ") then Tagged("h2", line[3..])
    else if StartsWith(line, "### ") then Tagged("h3", line[4..])
    else if !IsBlank(line) then Tagged("p", line)
    else "<br>"
  }

  /** `<tag>inner</tag>`; never the line break. */
  function Tagged(tag: string, inner: string): (r: string)
    requires tag != [] && tag[0] != 'b'
    ensures r == "<" + tag + ">" + inner + "</" + tag + ">"
    ensures r != "<br>"
  {
    var r := "<" + tag + ">" + inner + "</" + tag + ">";
    assert r[1] == tag[0];
    r
  }

  /** The three prefix tests never hold together: `#` followed by a space
      cannot also be followed by a second `#`. */
  lemma HeadingPrefixesExclusive(line: string)
    ensures !(StartsWith(line, "# ") && StartsWith(line, "## "))
    ensures !(StartsWith(line, "# ") && StartsWith(line, "### "))
    ensures !(StartsWith(line, "## ") && StartsWith(line, "### "))
  {
    if StartsWith(line, "# ") {
      assert line[1] == ' ';
    }
    if StartsWith(line, "## ") {
      assert line[2] == ' ';
    }
  }

  /** `lines.map(...).join('')`: the fragments, in order, with no separator. */
  function ConvertLines(lines: seq<string>): string
  {
    if lines == [] then "" else LineToHtml(lines[0]) + ConvertLines(lines[1..])
  }

  /** `content.split('\n').map(...).join('')`. */
  function ConvertBody(content: string): string
  {
    ConvertLines(Split(content, "\n"))
  }

  /** Converting two runs of lines is converting each and concatenating. */
  lemma {:induction false} ConvertLinesAppend(a: seq<string>, b: seq<string>)
    ensures ConvertLines(a + b) == ConvertLines(a) + ConvertLines(b)
    decreases |a|
  {
    if a == [] {
      assert a + b == b;
    } else {
      var ab := a + b;
      assert ab[0] == a[0];
      assert ab[1..] == a[1..] + b;
      ConvertLinesAppend(a[1..], b);
      calc {
        ConvertLines(ab);
        LineToHtml(a[0]) + ConvertLines(a[1..] + b);
        LineToHtml(a[0]) + (ConvertLines(a[1..]) + ConvertLines(b));
        (LineToHtml(a[0]) + ConvertLines(a[1..])) + ConvertLines(b);
      }
    }
  }

  /** Content without a line break is one fragment. */
  lemma SingleLineBody(content: string)
    requires '\n' !in content
    ensures ConvertBody(content) == LineToHtml(content)
  {
    SplitCount(content, '\n');
    NoOccurrences(content, '\n');
    var parts := Split(content, "\n");
    assert |parts| == 1;
    JoinSplit(content, "\n");
    assert parts == [content];
    assert ConvertLines(parts[1..]) == "";
  }

  lemma {:induction false} NoOccurrences(s: string, c: char)
    requires c !in s
    ensures Occurrences(s, c) == 0
    decreases |s|
  {
    if s != [] {
      assert c !in s[1..];
      NoOccurrences(s[1..], c);
    }
  }

  /** The lines the body is made of: one more than there are newlines, and
      joined back with newlines they give the content. */
  lemma ConvertBodyLines(content: string)
    ensures |Split(content, "\n")| == Occurrences(content, '\n') + 1
    ensures Join(Split(content, "\n"), "\n") == content
  {
    SplitCount(content, '\n');
    JoinSplit(content, "\n");
  }

  /** Each line converts on its own: the body of two texts joined by a
      newline is the first text's body followed by the second's. */
  lemma ConvertBodyNewline(a: string, b: string)
    ensures ConvertBody(a + "\n" + b) == ConvertBody(a) + ConvertBody(b)
  {
    SplitAround(a, '\n', b);
    ConvertLinesAppend(Split(a, "\n"), Split(b, "\n"));
  }

  /** A hash sign without a following space is not a heading. */
  lemma HashtagIsParagraph()
    ensures LineToHtml("#tag") == "<p>#tag</p>"
  {
    assert "#tag"[..2] != "# " && "#tag"[..3] != "## " && "#tag"[..4] != "### ";
    assert !IsJsWhitespace("#tag"[0]);
  }

  lemma SpacesAreBreak()
    ensures LineToHtml("  ") == "<br>"
  {
    assert "  "[..2][0] != "# "[0];
  }

  // ---------------------------------------------------------------------------
  // the Markdown template
  // ---------------------------------------------------------------------------

  const MarkdownFooter: string := "\n\n---\n\n*Generated with AI Digital Product Builder Suite*\n"

  function MarkdownHead(title: string, productType: string): string
  {
    "# " + title + "\n\n*" + productType + "*\n\n---\n\n"
  }

  /** The Markdown file: title heading, type in italics, a rule, the content
      verbatim, a rule and the generator line. */
  function MarkdownFile(title: string, productType: string, content: string): string
  {
    MarkdownHead(title, productType) + content + MarkdownFooter
  }

  /** The content sits unchanged between the fixed head and footer, so it can
      be cut back out of the file. */
  lemma MarkdownFileContent(title: string, productType: string, content: string)
    ensures var f := MarkdownFile(title, productType, content);
      var h := |MarkdownHead(title, productType)|;
      && |f| == h + |content| + |MarkdownFooter|
      && f[..2] == "# " && f[2..2 + |title|] == title
      && f[h..h + |content|] == content
      && f[h + |content|..] == MarkdownFooter
  {
    var f := MarkdownFile(title, productType, content);
    var head := MarkdownHead(title, productType);
    assert f == head + content + MarkdownFooter;
    assert head[..2] == "# " && head[2..2 + |title|] == title;
  }

  // ---------------------------------------------------------------------------
  // format selection
  // ---------------------------------------------------------------------------

  /** `list.filter(x => x !== id)`. */
  function Without(s: seq<string>, id: string): (r: seq<string>)
    ensures id !in r
    ensures forall x :: x != id ==> (x in r <==> x in s)
    ensures |r| <= |s|
  {
    if s == [] then []
    else if s[0] == id then Without(s[1..], id)
    else [s[0]] + Without(s[1..], id)
  }

  /** `toggleFormat`: a selected id is removed (every copy), an unselected one
      is appended at the end. */
  function Toggled(s: seq<string>, id: string): (r: seq<string>)
    ensures id in r <==> id !in s
    ensures forall x :: x != id ==> (x in r <==> x in s)
    ensures id !in s ==> r == s + [id]
  {
    if id in s then Without(s, id) else s + [id]
  }

  /** Removing an id that is not there changes nothing. */
  lemma {:induction false} WithoutAbsent(s: seq<string>, id: string)
    requires id !in s
    ensures Without(s, id) == s
    decreases |s|
  {
    if s != [] {
      assert id !in s[1..];
      WithoutAbsent(s[1..], id);
      assert s == [s[0]] + s[1..];
    }
  }

  /** Toggling never reorders the other ids: dropping `id` from the new
      selection gives the old selection without `id`. */
  lemma {:induction false} ToggledKeepsOthersInOrder(s: seq<string>, id: string)
    ensures Without(Toggled(s, id), id) == Without(s, id)
  {
    if id in s {
      WithoutAbsent(Without(s, id), id);
    } else {
      WithoutAppend(s, id, id);
    }
  }

  /** The filter keeps order: an id added at the end survives, at the end,
      exactly when it is not the one filtered out. */
  lemma {:induction false} WithoutAppend(s: seq<string>, x: string, id: string)
    ensures Without(s + [x], id) == Without(s, id) + (if x == id then [] else [x])
    decreases |s|
  {
    if s == [] {
      assert Without([x][1..], id) == [];
    } else {
      assert (s + [x])[1..] == s[1..] + [x];
      WithoutAppend(s[1..], x, id);
    }
  }

  /** Toggling an unselected id twice gives the selection back. */
  lemma ToggleTwice(s: seq<string>, id: string)
    requires id !in s
    ensures Toggled(Toggled(s, id), id) == s
  {
    WithoutAppend(s, id, id);
    WithoutAbsent(s, id);
  }

  // ---------------------------------------------------------------------------
  // the export loop
  // ---------------------------------------------------------------------------

  /** A file the panel hands to the browser; for the HTML-based formats only
      the converted body of the page template is kept. */
  datatype CenterFile = CenterFile(filename: string, mime: string, body: string)

  /** The format ids the loop's `switch` handles. */
  predicate Handled(format: string)
  {
    format == "pdf" || format == "docx" || format == "html" || format == "markdown"
  }

  /** The name an exporter reports back for a format id, or `""` for an id no
      `case` handles. */
  function ReportedName(title: string, format: string): (name: string)
    ensures name == "" <==> !Handled(format)
  {
    if format == "pdf" then title + ".pdf"
    else if format == "docx" then title + ".docx"
    else if format == "html" then title + ".html"
    else if format == "markdown" then title + ".md"
    else ""
  }

  /** The file an exporter downloads: the PDF exporter actually saves an HTML
      page. */
  function CenterDownload(title: string, productType: string, content: string, format: string): (f: CenterFile)
    requires Handled(format)
    ensures f.mime == "text/html" <==> format == "pdf" || format == "html"
    ensures format != "markdown" ==> f.body == ConvertBody(content)
    ensures format == "markdown" ==> f.body == MarkdownFile(title, productType, content)
    ensures |f.filename| > |title|
    ensures f.filename[..|title|] == ExportUtils.FileStem(title)
    ensures f.filename[|title|..] == if format == "docx" then ".docx" else if format == "markdown" then ".md" else ".html"
  {
    var stem := ExportUtils.FileStem(title);
    if format == "pdf" then CenterFile(stem + ".html", "text/html", ConvertBody(content))
    else if format == "docx" then CenterFile(stem + ".docx", ExportUtils.DocxMime, ConvertBody(content))
    else if format == "html" then CenterFile(stem + ".html", "text/html", ConvertBody(content))
    else CenterFile(stem + ".md", "text/markdown", MarkdownFile(title, productType, content))
  }

  /** The names collected by the loop over `formats`, in selection order. */
  function ExportedNames(title: string, formats: seq<string>): (names: seq<string>)
    ensures |names| <= |formats|
    ensures forall i :: 0 <= i < |names| ==> names[i] != ""
  {
    if formats == [] then []
    else
      var name := ReportedName(title, formats[|formats| - 1]);
      ExportedNames(title, formats[..|formats| - 1]) + (if name != "" then [name] else [])
  }

  /** The downloads the loop over `formats` triggers, in selection order. */
  function Downloads(title: string, productType: string, content: string, formats: seq<string>): (files: seq<CenterFile>)
    ensures |files| == |ExportedNames(title, formats)|
  {
    if formats == [] then []
    else
      var f := formats[|formats| - 1];
      Downloads(title, productType, content, formats[..|formats| - 1])
        + (if Handled(f) then [CenterDownload(title, productType, content, f)] else [])
  }

  /** When every selected id is handled, there is one name per selection, in
      order; ids nobody handles are skipped without a trace. */
  lemma {:induction false} ExportedNamesInOrder(title: string, formats: seq<string>)
    requires forall i :: 0 <= i < |formats| ==> Handled(formats[i])
    ensures |ExportedNames(title, formats)| == |formats|
    ensures forall i :: 0 <= i < |formats| ==> ExportedNames(title, formats)[i] == ReportedName(title, formats[i])
    decreases |formats|
  {
    if formats != [] {
      var init := formats[..|formats| - 1];
      assert forall i :: 0 <= i < |init| ==> init[i] == formats[i];
      ExportedNamesInOrder(title, init);
    }
  }

  lemma {:induction false} UnknownFormatsExportNothing(title: string, formats: seq<string>)
    requires forall i :: 0 <= i < |formats| ==> !Handled(formats[i])
    ensures ExportedNames(title, formats) == []
    decreases |formats|
  {
    if formats != [] {
      var init := formats[..|formats| - 1];
      assert forall i :: 0 <= i < |init| ==> init[i] == formats[i];
      UnknownFormatsExportNothing(title, init);
    }
  }

  /** The toast `handleExport` shows. */
  datatype Toast = Toast(title: string, description: string, destructive: bool)

  const NoFormatsToast: Toast :=
    Toast("No formats selected", "Please select at least one export format.", true)

  function CompleteToast(count: nat): Toast
  {
    Toast("Export Complete!", "Successfully exported " + NatToString(count) + " file(s).", false)
  }

  /** The panel's state: the project it exports and the selection. */
  class ExportCenterState {
    const content: string
    const title: string
    const productType: string
    var selectedFormats: seq<string>
    var exportedFiles: seq<string>
    var isExporting: bool

    constructor (content: string, title: string, productType: string)
      ensures this.content == content && this.title == title && this.productType == productType
      ensures selectedFormats == ["pdf"] && exportedFiles == [] && !isExporting
    {
      this.content := content;
      this.title := title;
      this.productType := productType;
      selectedFormats := ["pdf"];
      exportedFiles := [];
      isExporting := false;
    }

    /** `toggleFormat`. */
    method ToggleFormat(formatId: string)
      modifies this
      ensures selectedFormats == Toggled(old(selectedFormats), formatId)
      ensures exportedFiles == old(exportedFiles) && isExporting == old(isExporting)
    {
      if formatId in selectedFormats {
        selectedFormats := Without(selectedFormats, formatId);
      } else {
        selectedFormats := selectedFormats + [formatId];
      }
    }

    /** `handleExport`: with nothing selected only the warning is shown;
        otherwise each selected format is exported in order, the names of
        the handled ones are recorded and their count is announced. */
    method HandleExport() returns (toast: Toast, files: seq<CenterFile>)
      modifies this
      ensures selectedFormats == old(selectedFormats)
      ensures old(selectedFormats) == [] ==>
        && toast == NoFormatsToast && files == []
        && exportedFiles == old(exportedFiles) && isExporting == old(isExporting)
      ensures old(selectedFormats) != [] ==>
        && !isExporting
        && exportedFiles == ExportedNames(title, selectedFormats)
        && files == Downloads(title, productType, content, selectedFormats)
        && toast == CompleteToast(|exportedFiles|)
    {
      if |selectedFormats| == 0 {
        toast := NoFormatsToast;
        files := [];
        return;
      }
      isExporting := true;
      var exported: seq<string> := [];
      files := [];
      for i := 0 to |selectedFormats|
        invariant exported == ExportedNames(title, selectedFormats[..i])
        invariant files == Downloads(title, productType, content, selectedFormats[..i])
      {
        var format := selectedFormats[i];
        assert selectedFormats[..i + 1][..i] == selectedFormats[..i];
        var filename := "";
        if format == "pdf" {
          files := files + [CenterDownload(title, productType, content, format)];
          filename := title + ".pdf";
        } else if format == "docx" {
          files := files + [CenterDownload(title, productType, content, format)];
          filename := title + ".docx";
        } else if format == "html" {
          files := files + [CenterDownload(title, productType, content, format)];
          filename := title + ".html";
        } else if format == "markdown" {
          files := files + [CenterDownload(title, productType, content, format)];
          filename := title + ".md";
        }
        if filename != "" {
          exported := exported + [filename];
        }
      }
      assert selectedFormats[..|selectedFormats|] == selectedFormats;
      exportedFiles := exported;
      toast := CompleteToast(|exported|);
      isExporting := false;
    }
  }
}
