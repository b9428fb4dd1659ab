/**
 * The PDF export of a summary: a vertical cursor that moves down the page as
 * text is drawn, and a page break whenever the next wrapped item would cross
 * the bottom limit. The document object of the PDF library is modelled by the
 * page count and the list of text draws it has received; the library's text
 * wrapping (`splitTextToSize`) is the parameter `wrap`, which gives the number
 * of lines a string takes.
 */
module SummaryPdf {
  import opened Types
  import SummaryExport

  const TopMargin: int := 20
  const PageBottom: int := 280
  const TitleAdvance: int := 20
  const HeaderAdvance: int := 10
  const SectionGap: int := 5
  const HeaderX: int := 14
  const ItemX: int := 20
  const TitleX: int := 105

  /** One call of the library's `text`: on which page, where, what, and in how many lines. */
  datatype Draw = Draw(page: nat, x: int, y: int, text: string, lines: nat)

  /** The layout state: the vertical cursor and the current (last) page. */
  datatype Cursor = Cursor(y: int, page: nat)

  datatype Layout = Layout(draws: seq<Draw>, end: Cursor)

  /** The number of lines `splitTextToSize` splits a text into: never none. */
  type LineCount = n: nat | n >= 1 witness 1

  /** The height of `lines` lines of item text: seven units per line. */
  function Height(lines: nat): int
  {
    7 * lines
  }

  /** Where an item of `lines` lines is drawn when the cursor is at `c`. */
  function ItemPosition(c: Cursor, lines: nat): Cursor
  {
    if c.y + Height(lines) > PageBottom then Cursor(TopMargin, c.page + 1) else c
  }

  /** The cursor just below a draw. */
  function Below(d: Draw): Cursor
  {
    Cursor(d.y + Height(d.lines), d.page)
  }

  /** The draws of a section's items laid out from cursor `c`, and the cursor after them. */
  function ItemsLayout(c: Cursor, items: seq<string>, wrap: string -> LineCount): Layout
    decreases |items|
  {
    if items == [] then Layout([], c)
    else
      var text := "- " + items[0];
      var n := wrap(text);
      var at := ItemPosition(c, n);
      var rest := ItemsLayout(Cursor(at.y + Height(n), at.page), items[1..], wrap);
      Layout([Draw(at.page, ItemX, at.y, text, n)] + rest.draws, rest.end)
  }

  /** `addSection`: nothing for an empty list; otherwise a header, the items, and a gap. */
  function SectionLayout(c: Cursor, title: string, items: seq<string>, wrap: string -> LineCount): Layout
  {
    if |items| == 0 then Layout([], c)
    else
      var body := ItemsLayout(Cursor(c.y + HeaderAdvance, c.page), items, wrap);
      Layout([Draw(c.page, HeaderX, c.y, title, 1)] + body.draws, Cursor(body.end.y + SectionGap, body.end.page))
  }

  /** `downloadPdf`: the title, then the three sections in their fixed order. */
  function PdfLayout(s: Summary, wrap: string -> LineCount): Layout
  {
    var title := Draw(1, TitleX, TopMargin, "Meeting Summary", 1);
    var kp := SectionLayout(Cursor(TopMargin + TitleAdvance, 1), "Key Points", s.keyPoints, wrap);
    var dec := SectionLayout(kp.end, "Decisions", s.decisions, wrap);
    var ai := SectionLayout(dec.end, "Action Items", SummaryExport.ItemLines(s.actionItems), wrap);
    Layout([title] + kp.draws + dec.draws + ai.draws, ai.end)
  }

  // ---------------------------------------------------------------------------
  // Properties of the layout.
  // ---------------------------------------------------------------------------

  /** The cursor before the `i`-th item: the start cursor, or just below the previous item. */
  function Before(c: Cursor, ds: seq<Draw>, i: nat): Cursor
    requires i <= |ds|
  {
    if i == 0 then c else Below(ds[i - 1])
  }

  /** The cursors before the draws of `[d] + ds`, after the first, are those of `ds` from below `d`. */
  lemma BeforeCons(c: Cursor, d: Draw, ds: seq<Draw>, i: nat)
    requires 1 <= i <= |ds| + 1
    ensures Before(c, [d] + ds, i) == Before(Below(d), ds, i - 1)
  {
    if i > 1 {
      assert ([d] + ds)[i - 1] == ds[i - 2];
    }
  }

  /** One step of the item layout: the first item, then the rest from below it. */
  lemma ItemsLayoutUnfold(c: Cursor, items: seq<string>, wrap: string -> LineCount)
    requires items != []
    ensures var n := wrap("- " + items[0]);
      var at := ItemPosition(c, n);
      var rest := ItemsLayout(Cursor(at.y + Height(n), at.page), items[1..], wrap);
      ItemsLayout(c, items, wrap) == Layout([Draw(at.page, ItemX, at.y, "- " + items[0], n)] + rest.draws, rest.end)
  {
  }

  /** `ItemsLayoutUnfold` for the items from index `i` on. */
  lemma ItemsLayoutAt(c: Cursor, items: seq<string>, i: nat, wrap: string -> LineCount)
    requires i < |items|
    ensures var n := wrap("- " + items[i]);
      var at := ItemPosition(c, n);
      var rest := ItemsLayout(Cursor(at.y + Height(n), at.page), items[i + 1..], wrap);
      ItemsLayout(c, items[i..], wrap) == Layout([Draw(at.page, ItemX, at.y, "- " + items[i], n)] + rest.draws, rest.end)
  {
    assert items[i..][0] == items[i] && items[i..][1..] == items[i + 1..];
    ItemsLayoutUnfold(c, items[i..], wrap);
  }

  /**
   * Every item is drawn in input order with its bullet text, at the position
   * the page-break rule gives for the cursor left by the item before it: on a
   * new page at the top margin exactly when it would cross the bottom limit.
   * The cursor after the section's items is just below the last one.
   */
  lemma {:induction false} ItemsLayoutSteps(c: Cursor, items: seq<string>, wrap: string -> LineCount)
    ensures var l := ItemsLayout(c, items, wrap);
      && |l.draws| == |items|
      && l.end == Before(c, l.draws, |items|)
      && forall i :: 0 <= i < |items| ==>
           && l.draws[i].text == "- " + items[i]
           && l.draws[i].x == ItemX
           && l.draws[i].lines == wrap("- " + items[i])
           && Cursor(l.draws[i].y, l.draws[i].page) == ItemPosition(Before(c, l.draws, i), l.draws[i].lines)
    decreases |items|
  {
    if items != [] {
      var l := ItemsLayout(c, items, wrap);
      var text := "- " + items[0];
      var n := wrap(text);
      var at := ItemPosition(c, n);
      var next := Cursor(at.y + Height(n), at.page);
      var rest := ItemsLayout(next, items[1..], wrap);
      ItemsLayoutSteps(next, items[1..], wrap);
      var d := Draw(at.page, ItemX, at.y, text, n);
      assert l.draws == [d] + rest.draws;
      assert Below(d) == next;
      forall i | 1 <= i <= |items|
        ensures Before(c, l.draws, i) == Before(next, rest.draws, i - 1)
      {
        BeforeCons(c, d, rest.draws, i);
      }
      forall i | 0 <= i < |items|
        ensures l.draws[i].text == "- " + items[i]
        ensures l.draws[i].lines == wrap("- " + items[i])
        ensures Cursor(l.draws[i].y, l.draws[i].page) == ItemPosition(Before(c, l.draws, i), l.draws[i].lines)
      {
        if i > 0 {
          assert l.draws[i] == rest.draws[i - 1];
          assert items[1..][i - 1] == items[i];
        }
      }
    }
  }

  /**
   * Every item is drawn either where it fits above the bottom limit or at the
   * top margin of a new page.
   */
  lemma ItemsFitOrTop(c: Cursor, items: seq<string>, wrap: string -> LineCount)
    ensures var l := ItemsLayout(c, items, wrap);
      forall d :: d in l.draws ==> d.y + Height(d.lines) <= PageBottom || d.y == TopMargin
  {
    var l := ItemsLayout(c, items, wrap);
    ItemsLayoutSteps(c, items, wrap);
    forall d | d in l.draws ensures d.y + Height(d.lines) <= PageBottom || d.y == TopMargin {
      var i :| 0 <= i < |l.draws| && l.draws[i] == d;
      assert Cursor(d.y, d.page) == ItemPosition(Before(c, l.draws, i), d.lines);
    }
  }

  /**
   * Pages only grow, and by at most one per item: each item is on the page of
   * the item before it or on the next one.
   */
  lemma {:induction false} ItemsPageGrowth(c: Cursor, items: seq<string>, wrap: string -> LineCount)
    ensures var l := ItemsLayout(c, items, wrap);
      && c.page <= l.end.page <= c.page + |items|
      && forall d :: d in l.draws ==> c.page <= d.page <= l.end.page
    decreases |items|
  {
    if items != [] {
      var text := "- " + items[0];
      var n := wrap(text);
      var at := ItemPosition(c, n);
      var next := Cursor(at.y + Height(n), at.page);
      ItemsPageGrowth(next, items[1..], wrap);
    }
  }

  /** The total number of lines of a list of draws. */
  function TotalLines(ds: seq<Draw>): nat
  {
    if ds == [] then 0 else ds[0].lines + TotalLines(ds[1..])
  }

  /**
   * Without a page break, the items move the cursor down by seven units per
   * line drawn.
   */
  lemma {:induction false} ItemsAdvanceWithoutBreak(c: Cursor, items: seq<string>, wrap: string -> LineCount)
    ensures var l := ItemsLayout(c, items, wrap);
      l.end.page == c.page ==> l.end.y == c.y + Height(TotalLines(l.draws))
    decreases |items|
  {
    if items != [] {
      var l := ItemsLayout(c, items, wrap);
      var text := "- " + items[0];
      var n := wrap(text);
      var at := ItemPosition(c, n);
      var next := Cursor(at.y + Height(n), at.page);
      var rest := ItemsLayout(next, items[1..], wrap);
      ItemsAdvanceWithoutBreak(next, items[1..], wrap);
      ItemsPageGrowth(next, items[1..], wrap);
      assert l.draws[1..] == rest.draws;
      if l.end.page == c.page {
        assert at == c;
      }
    }
  }

  /**
   * An empty section draws nothing and leaves the cursor and the page
   * unchanged; a non-empty one draws its header at the cursor without any
   * bound check, starts its items ten units lower, and ends five units below
   * its last item. Without a page break it advances by 10 + 7 per line + 5.
   */
  lemma SectionLayoutShape(c: Cursor, title: string, items: seq<string>, wrap: string -> LineCount)
    ensures var l := SectionLayout(c, title, items, wrap);
      && (|items| == 0 ==> l.draws == [] && l.end == c)
      && (|items| > 0 ==>
            && |l.draws| == |items| + 1
            && l.draws[0] == Draw(c.page, HeaderX, c.y, title, 1)
            && var body := ItemsLayout(Cursor(c.y + HeaderAdvance, c.page), items, wrap);
               && l.draws[1..] == body.draws
               && l.end == Cursor(Below(l.draws[|items|]).y + SectionGap, l.draws[|items|].page)
               && (l.end.page == c.page ==>
                     l.end.y == c.y + HeaderAdvance + Height(TotalLines(body.draws)) + SectionGap))
  {
    if |items| > 0 {
      var body := ItemsLayout(Cursor(c.y + HeaderAdvance, c.page), items, wrap);
      ItemsLayoutSteps(Cursor(c.y + HeaderAdvance, c.page), items, wrap);
      ItemsAdvanceWithoutBreak(Cursor(c.y + HeaderAdvance, c.page), items, wrap);
      var l := SectionLayout(c, title, items, wrap);
      assert l.draws[1..] == body.draws;
      assert l.draws[|items|] == body.draws[|items| - 1];
    }
  }

  /** The title is drawn at the top margin of page 1; the first section starts at 40. */
  lemma PdfLayoutStart(s: Summary, wrap: string -> LineCount)
    ensures var l := PdfLayout(s, wrap);
      && l.draws[0] == Draw(1, TitleX, 20, "Meeting Summary", 1)
      && (|s.keyPoints| > 0 ==> l.draws[1] == Draw(1, HeaderX, 40, "Key Points", 1))
      && (|s.keyPoints| == 0 && |s.decisions| > 0 ==> l.draws[1] == Draw(1, HeaderX, 40, "Decisions", 1))
      && (|s.keyPoints| == 0 && |s.decisions| == 0 && |s.actionItems| > 0 ==>
            l.draws[1] == Draw(1, HeaderX, 40, "Action Items", 1))
      && (|s.keyPoints| == 0 && |s.decisions| == 0 && |s.actionItems| == 0 ==>
            |l.draws| == 1 && l.end == Cursor(40, 1))
  {
  }

  /** The PDF draws each action item with the same line as the text export, after the bullet. */
  lemma PdfItemsMatchText(c: Cursor, items: seq<string>, wrap: string -> LineCount)
    ensures var l := ItemsLayout(c, items, wrap);
      SummaryExport.Bullets(items) == DrawnLines(l.draws)
  {
    ItemsLayoutSteps(c, items, wrap);
    DrawnLinesOf(c, items, wrap);
  }

  /** The drawn texts, each closed by a line break. */
  function DrawnLines(ds: seq<Draw>): string
  {
    if ds == [] then "" else ds[0].text + "\n" + DrawnLines(ds[1..])
  }

  lemma {:induction false} DrawnLinesOf(c: Cursor, items: seq<string>, wrap: string -> LineCount)
    ensures DrawnLines(ItemsLayout(c, items, wrap).draws) == SummaryExport.Bullets(items)
    decreases |items|
  {
    if items != [] {
      var text := "- " + items[0];
      var n := wrap(text);
      var at := ItemPosition(c, n);
      var next := Cursor(at.y + Height(n), at.page);
      DrawnLinesOf(next, items[1..], wrap);
      var l := ItemsLayout(c, items, wrap);
      assert l.draws[1..] == ItemsLayout(next, items[1..], wrap).draws;
    }
  }

  /**
   * A section header is not bound-checked: when the key points end low on a
   * page, the Decisions header is drawn below the bottom limit (here at 284).
   */
  lemma HeaderBelowPageBottom()
    ensures var l := PdfLayout(Summary(["x"], ["y"], []), _ => 37);
      |l.draws| == 5 && l.draws[3].text == "Decisions" && l.draws[3].y == 284 > PageBottom
  {
  }

  // ---------------------------------------------------------------------------
  // The document object and the imperative export.
  // ---------------------------------------------------------------------------

  /** The PDF library's document: its pages and the text drawn so far. */
  class PdfDoc {
    var pages: nat
    var drawn: seq<Draw>

    constructor ()
      ensures pages == 1 && drawn == []
    {
      pages := 1;
      drawn := [];
    }

    /** `doc.text`: draws on the current (last) page. */
    method Text(text: string, x: int, y: int, lines: nat)
      modifies this
      ensures pages == old(pages)
      ensures drawn == old(drawn) + [Draw(pages, x, y, text, lines)]
    {
      drawn := drawn + [Draw(pages, x, y, text, lines)];
    }

    /** `doc.addPage`: a new page becomes the current one. */
    method AddPage()
      modifies this
      ensures pages == old(pages) + 1 && drawn == old(drawn)
    {
      pages := pages + 1;
    }
  }

  /**
   * One step of the `items.forEach` of `addSection`: a new page first when
   * the item would cross the bottom limit, then the item, then the cursor
   * below it.
   */
  method AddItem(doc: PdfDoc, yPos: int, text: string, lines: nat) returns (y: int)
    modifies doc
    ensures var at := ItemPosition(Cursor(yPos, old(doc.pages)), lines);
      && doc.drawn == old(doc.drawn) + [Draw(at.page, ItemX, at.y, text, lines)]
      && Cursor(y, doc.pages) == Cursor(at.y + Height(lines), at.page)
  {
    y := yPos;
    if y + Height(lines) > PageBottom {
      doc.AddPage();
      y := TopMargin;
    }
    doc.Text(text, ItemX, y, lines);
    y := y + Height(lines);
  }

  /**
   * The `items.forEach` of `addSection`: draws each item from cursor `yPos`,
   * adding a page first when the item would cross the bottom limit, and
   * returns the new cursor.
   */
  method AddItems(doc: PdfDoc, yPos: int, items: seq<string>, wrap: string -> LineCount) returns (y: int)
    modifies doc
    ensures var l := ItemsLayout(Cursor(yPos, old(doc.pages)), items, wrap);
      doc.drawn == old(doc.drawn) + l.draws && Cursor(y, doc.pages) == l.end
  {
    y := yPos;
    ghost var whole := ItemsLayout(Cursor(yPos, doc.pages), items, wrap);
    ghost var cur := Cursor(yPos, doc.pages);
    ghost var rest := whole;
    assert items[0..] == items;
    var i := 0;
    while i < |items|
      invariant 0 <= i <= |items|
      invariant cur == Cursor(y, doc.pages)
      invariant rest == ItemsLayout(cur, items[i..], wrap)
      invariant doc.drawn + rest.draws == old(doc.drawn) + whole.draws && rest.end == whole.end
    {
      var text := "- " + items[i];
      var lines := wrap(text);
      ItemsLayoutAt(cur, items, i, wrap);
      y := AddItem(doc, y, text, lines);
      cur := Cursor(y, doc.pages);
      rest := ItemsLayout(cur, items[i + 1..], wrap);
      i := i + 1;
    }
    assert items[i..] == [];
  }

  /**
   * `addSection`: draws a section on `doc` from cursor `yPos` and returns the
   * new cursor; an empty list draws nothing.
   */
  method AddSection(doc: PdfDoc, yPos: int, title: string, items: seq<string>, wrap: string -> LineCount)
      returns (y: int)
    modifies doc
    ensures var l := SectionLayout(Cursor(yPos, old(doc.pages)), title, items, wrap);
      doc.drawn == old(doc.drawn) + l.draws && Cursor(y, doc.pages) == l.end
  {
    y := yPos;
    if |items| == 0 {
      return;
    }
    doc.Text(title, HeaderX, y, 1);
    y := y + HeaderAdvance;
    y := AddItems(doc, y, items, wrap);
    y := y + SectionGap;
  }

  /**
   * `downloadPdf` up to saving: the title, then the three sections; the
   * action items use the same line as the text export.
   */
  method DownloadPdf(s: Summary, wrap: string -> LineCount) returns (doc: PdfDoc)
    ensures fresh(doc)
    ensures var l := PdfLayout(s, wrap);
      doc.drawn == l.draws && doc.pages == l.end.page
  {
    doc := new PdfDoc();
    var yPos := TopMargin;
    doc.Text("Meeting Summary", TitleX, yPos, 1);
    yPos := yPos + TitleAdvance;
    ghost var title := Draw(1, TitleX, TopMargin, "Meeting Summary", 1);
    assert doc.drawn == [title];
    ghost var kp := SectionLayout(Cursor(yPos, doc.pages), "Key Points", s.keyPoints, wrap);
    yPos := AddSection(doc, yPos, "Key Points", s.keyPoints, wrap);
    assert doc.drawn == [title] + kp.draws;
    ghost var dec := SectionLayout(Cursor(yPos, doc.pages), "Decisions", s.decisions, wrap);
    yPos := AddSection(doc, yPos, "Decisions", s.decisions, wrap);
    assert doc.drawn == [title] + kp.draws + dec.draws;
    var lines := SummaryExport.ItemLines(s.actionItems);
    ghost var ai := SectionLayout(Cursor(yPos, doc.pages), "Action Items", lines, wrap);
    yPos := AddSection(doc, yPos, "Action Items", lines, wrap);
    assert doc.drawn == [title] + kp.draws + dec.draws + ai.draws;
  }
}
