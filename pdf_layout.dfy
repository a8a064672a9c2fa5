/** The layout arithmetic of the PDF exporter: where each `pdf.text(...)` call
    lands. The jsPDF document is recorded as the sequence of its text calls,
    each tagged with the page that was current when it was made. */
module PdfLayout {
  import opened StringOps

  const Margin: int := 20
  const LineHeight: int := 7

  const TitleSize: nat := 20
  const MetadataSize: nat := 10
  const ContentSize: nat := 12
  const FooterSize: nat := 8

  /** One `pdf.text(text, x, y)` call on page `page`, with the font size and
      weight then in force. */
  datatype Placed = Placed(page: nat, text: string, x: int, y: int, size: nat, bold: bool)

  /** The content cursor: current page and y position. */
  datatype Cursor = Cursor(page: nat, y: int)

  /** Content starts at y = 50, or at 80 below the two metadata lines. */
  function StartY(includeMetadata: bool): int
  {
    if includeMetadata then 80 else 50
  }

  /** Before each line: a new page when the cursor is below
      `pageHeight - margin`, with the cursor back at the top margin. */
  function BeforeLine(c: Cursor, pageHeight: int): Cursor
  {
    if c.y > pageHeight - Margin then Cursor(c.page + 1, Margin) else c
  }

  /** The text calls of the content loop for `lines`, starting from cursor `c`. */
  function Flow(lines: seq<string>, c: Cursor, pageHeight: int): (placed: seq<Placed>)
    ensures |placed| == |lines|
    decreases |lines|
  {
    if lines == [] then []
    else
      var d := BeforeLine(c, pageHeight);
      [Placed(d.page, lines[0], Margin, d.y, ContentSize, false)]
        + Flow(lines[1..], Cursor(d.page, d.y + LineHeight), pageHeight)
  }

  /** The page that is current after the content loop: the page count. */
  function FinalPage(lines: seq<string>, c: Cursor, pageHeight: int): (n: nat)
    ensures c.page <= n <= c.page + |lines|
    decreases |lines|
  {
    if lines == [] then c.page
    else
      var d := BeforeLine(c, pageHeight);
      FinalPage(lines[1..], Cursor(d.page, d.y + LineHeight), pageHeight)
  }

  /** The title, and the two metadata lines when requested, on page 1. */
  function Header(title: string, productType: string, date: string, includeMetadata: bool): (r: seq<Placed>)
    ensures |r| == if includeMetadata then 3 else 1
    ensures r[0].text == title && r[0].bold
    ensures includeMetadata ==>
      && r[1].text == "Type: " + productType && !r[1].bold
      && r[2].text == "Created: " + date && !r[2].bold
      && r[1].y < r[2].y
    ensures forall i :: 0 <= i < |r| ==> r[i].page == 1 && r[i].x == Margin && r[i].y < StartY(includeMetadata)
  {
    [Placed(1, title, Margin, 30, TitleSize, true)]
      + (if includeMetadata then
           [Placed(1, "Type: " + productType, Margin, 50, MetadataSize, false),
            Placed(1, "Created: " + date, Margin, 60, MetadataSize, false)]
         else [])
  }

  function FooterText(i: nat, pageCount: nat): string
  {
    "Page " + NatToString(i) + " of " + NatToString(pageCount)
  }

  /** The footer stamped on page `i` of `pageCount`. */
  function Footer(i: nat, pageCount: nat, pageWidth: int, pageHeight: int): Placed
  {
    Placed(i, FooterText(i, pageCount), pageWidth - 40, pageHeight - 10, FooterSize, false)
  }

  /** The footers of pages 1 to n, in page order. */
  function Footers(n: nat, pageCount: nat, pageWidth: int, pageHeight: int): (r: seq<Placed>)
    ensures |r| == n
  {
    seq(n, j requires 0 <= j < n => Footer(j + 1, pageCount, pageWidth, pageHeight))
  }

  /** The body of `exportToPDF` from the title on: the title and metadata
      calls, the content loop that starts new pages, and then the second loop
      that stamps every page's footer once the page count is known. */
  method LayOut(title: string, productType: string, date: string, includeMetadata: bool,
                lines: seq<string>, pageWidth: int, pageHeight: int)
    returns (placed: seq<Placed>, pageCount: nat)
    ensures pageCount == FinalPage(lines, Cursor(1, StartY(includeMetadata)), pageHeight)
    ensures placed == Header(title, productType, date, includeMetadata)
                      + Flow(lines, Cursor(1, StartY(includeMetadata)), pageHeight)
                      + Footers(pageCount, pageCount, pageWidth, pageHeight)
  {
    placed := [Placed(1, title, Margin, 30, TitleSize, true)];
    var yPosition := 50;
    if includeMetadata {
      placed := placed + [Placed(1, "Type: " + productType, Margin, yPosition, MetadataSize, false)];
      yPosition := yPosition + 10;
      placed := placed + [Placed(1, "Created: " + date, Margin, yPosition, MetadataSize, false)];
      yPosition := yPosition + 20;
    }
    var page := 1;
    ghost var start := Cursor(1, StartY(includeMetadata));
    ghost var header := placed;
    for i := 0 to |lines|
      invariant placed + Flow(lines[i..], Cursor(page, yPosition), pageHeight) == header + Flow(lines, start, pageHeight)
      invariant FinalPage(lines[i..], Cursor(page, yPosition), pageHeight) == FinalPage(lines, start, pageHeight)
    {
      assert lines[i..][1..] == lines[i + 1..];
      if yPosition > pageHeight - Margin {
        page := page + 1;
        yPosition := Margin;
      }
      placed := placed + [Placed(page, lines[i], Margin, yPosition, ContentSize, false)];
      yPosition := yPosition + LineHeight;
    }
    pageCount := page;
    ghost var body := placed;
    for i := 1 to pageCount + 1
      invariant placed == body + Footers(i - 1, pageCount, pageWidth, pageHeight)
    {
      assert Footers(i, pageCount, pageWidth, pageHeight)
          == Footers(i - 1, pageCount, pageWidth, pageHeight) + [Footer(i, pageCount, pageWidth, pageHeight)];
      placed := placed + [Footer(i, pageCount, pageWidth, pageHeight)];
    }
  }

  // ---------------------------------------------------------------------------
  // properties of the content flow
  // ---------------------------------------------------------------------------

  /** Every content line is drawn inside the vertical margins, provided the
      page is at least two margins high and the cursor starts below the top
      margin. */
  lemma {:induction false} FlowWithinMargins(lines: seq<string>, c: Cursor, pageHeight: int)
    requires pageHeight >= 2 * Margin && c.y >= Margin
    ensures forall k :: 0 <= k < |lines| ==>
      Margin <= Flow(lines, c, pageHeight)[k].y <= pageHeight - Margin
    decreases |lines|
  {
    if lines != [] {
      var d := BeforeLine(c, pageHeight);
      FlowWithinMargins(lines[1..], Cursor(d.page, d.y + LineHeight), pageHeight);
    }
  }

  /** Line k of the content is drawn as line k, at the left margin, in the
      content font. */
  lemma {:induction false} FlowDrawsLines(lines: seq<string>, c: Cursor, pageHeight: int)
    ensures forall k :: 0 <= k < |lines| ==>
      var p := Flow(lines, c, pageHeight)[k];
      p.text == lines[k] && p.x == Margin && p.size == ContentSize && !p.bold
    decreases |lines|
  {
    if lines != [] {
      var d := BeforeLine(c, pageHeight);
      FlowDrawsLines(lines[1..], Cursor(d.page, d.y + LineHeight), pageHeight);
    }
  }

  /** Consecutive lines: the cursor advances by 7, and a new page starts,
      with the line at the top margin, exactly when the advanced cursor is
      below `pageHeight - margin`. */
  lemma {:induction false} FlowSteps(lines: seq<string>, c: Cursor, pageHeight: int)
    ensures forall k :: 0 <= k < |lines| - 1 ==>
      var f := Flow(lines, c, pageHeight);
      if f[k].y + LineHeight > pageHeight - Margin
      then f[k + 1].page == f[k].page + 1 && f[k + 1].y == Margin
      else f[k + 1].page == f[k].page && f[k + 1].y == f[k].y + LineHeight
    decreases |lines|
  {
    if lines != [] {
      var d := BeforeLine(c, pageHeight);
      var rest := Flow(lines[1..], Cursor(d.page, d.y + LineHeight), pageHeight);
      FlowSteps(lines[1..], Cursor(d.page, d.y + LineHeight), pageHeight);
      var f := Flow(lines, c, pageHeight);
      assert f[1..] == rest;
    }
  }

  /** The first line starts a new page only if the start position is already
      below `pageHeight - margin`. */
  lemma FlowFirstLine(lines: seq<string>, c: Cursor, pageHeight: int)
    requires lines != []
    ensures var f := Flow(lines, c, pageHeight);
      if c.y > pageHeight - Margin then f[0].page == c.page + 1 && f[0].y == Margin
      else f[0].page == c.page && f[0].y == c.y
  {
  }

  /** Content lines lie on pages from the cursor's page up to the final page,
      and the last line is on the final page. */
  lemma {:induction false} FlowPages(lines: seq<string>, c: Cursor, pageHeight: int)
    ensures c.page <= FinalPage(lines, c, pageHeight)
    ensures forall k :: 0 <= k < |lines| ==>
      c.page <= Flow(lines, c, pageHeight)[k].page <= FinalPage(lines, c, pageHeight)
    ensures lines != [] ==> Flow(lines, c, pageHeight)[|lines| - 1].page == FinalPage(lines, c, pageHeight)
    decreases |lines|
  {
    if lines != [] {
      var d := BeforeLine(c, pageHeight);
      FlowPages(lines[1..], Cursor(d.page, d.y + LineHeight), pageHeight);
    }
  }

  // ---------------------------------------------------------------------------
  // footers
  // ---------------------------------------------------------------------------

  /** The footer-size text calls made on page `p`. */
  function FootersOn(placed: seq<Placed>, p: nat): seq<Placed>
  {
    if placed == [] then [] else FooterHit(placed[0], p) + FootersOn(placed[1..], p)
  }

  function FooterHit(x: Placed, p: nat): seq<Placed>
  {
    if x.size == FooterSize && x.page == p then [x] else []
  }

  lemma {:induction false} FootersOnAppend(a: seq<Placed>, b: seq<Placed>, p: nat)
    ensures FootersOn(a + b, p) == FootersOn(a, p) + FootersOn(b, p)
    decreases |a|
  {
    if a == [] {
      assert a + b == b;
    } else {
      FootersOnAppend(a[1..], b, p);
      var ab := a + b;
      assert ab[0] == a[0] && ab[1..] == a[1..] + b;
      calc {
        FootersOn(ab, p);
        FooterHit(a[0], p) + FootersOn(a[1..] + b, p);
        FooterHit(a[0], p) + (FootersOn(a[1..], p) + FootersOn(b, p));
        (FooterHit(a[0], p) + FootersOn(a[1..], p)) + FootersOn(b, p);
      }
    }
  }

  lemma {:induction false} FootersOnNone(placed: seq<Placed>, p: nat)
    requires forall k :: 0 <= k < |placed| ==> placed[k].size != FooterSize
    ensures FootersOn(placed, p) == []
    decreases |placed|
  {
    if placed != [] {
      FootersOnNone(placed[1..], p);
    }
  }

  lemma {:induction false} FootersOnStamped(n: nat, pageCount: nat, pageWidth: int, pageHeight: int, p: nat)
    ensures FootersOn(Footers(n, pageCount, pageWidth, pageHeight), p)
         == if 1 <= p <= n then [Footer(p, pageCount, pageWidth, pageHeight)] else []
  {
    if n > 0 {
      var prev := Footers(n - 1, pageCount, pageWidth, pageHeight);
      var last := Footer(n, pageCount, pageWidth, pageHeight);
      assert Footers(n, pageCount, pageWidth, pageHeight) == prev + [last];
      FootersOnStamped(n - 1, pageCount, pageWidth, pageHeight, p);
      FootersOnAppend(prev, [last], p);
      assert FootersOn([last], p) == FooterHit(last, p) + FootersOn([], p);
    }
  }

  /** Each page 1..N of the finished document carries exactly one footer, and
      it reads "Page i of N"; no other page carries one. */
  lemma OneFooterPerPage(title: string, productType: string, date: string, includeMetadata: bool,
                         lines: seq<string>, pageWidth: int, pageHeight: int, p: nat)
    ensures var start := Cursor(1, StartY(includeMetadata));
      var n := FinalPage(lines, start, pageHeight);
      var doc := Header(title, productType, date, includeMetadata) + Flow(lines, start, pageHeight)
                 + Footers(n, n, pageWidth, pageHeight);
      FootersOn(doc, p) == if 1 <= p <= n then [Placed(p, FooterText(p, n), pageWidth - 40, pageHeight - 10, FooterSize, false)] else []
  {
    var start := Cursor(1, StartY(includeMetadata));
    var n := FinalPage(lines, start, pageHeight);
    var header := Header(title, productType, date, includeMetadata);
    var flow := Flow(lines, start, pageHeight);
    FlowDrawsLines(lines, start, pageHeight);
    FootersOnNone(header, p);
    FootersOnNone(flow, p);
    FootersOnAppend(header, flow, p);
    FootersOnAppend(header + flow, Footers(n, n, pageWidth, pageHeight), p);
    FootersOnStamped(n, n, pageWidth, pageHeight, p);
  }
}
