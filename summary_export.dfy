/**
 * The plain-text export of a summary and the on-screen rendering of the same
 * summary, with the owner/deadline defaulting the two share with the PDF export.
 */
module SummaryExport {
  import opened Types

  const TextTitle: string := "Meeting Summary\n\n"
  const KeyPointsHeader: string := "Key Points:\n"
  const DecisionsHeader: string := "\nDecisions:\n"
  const ActionItemsHeader: string := "\nAction Items:\n"

  /** The one-line rendering of an action item, without the bullet prefix. */
  function ItemLine(a: ActionItem): string
  {
    a.task + " (Owner: " + OrNA(a.owner) + ", Deadline: " + OrNA(a.deadline) + ")"
  }

  /** `actionItems.map(...)`: the rendered line of every action item, in order. */
  function ItemLines(items: seq<ActionItem>): seq<string>
  {
    seq(|items|, i requires 0 <= i < |items| => ItemLine(items[i]))
  }

  /** One bullet line of the text export. */
  function Bullet(item: string): string
  {
    "- " + item + "\n"
  }

  /** The bullet lines of a list, one per item, in order. */
  function Bullets(items: seq<string>): string
  {
    if items == [] then "" else Bullet(items[0]) + Bullets(items[1..])
  }

  /** The text export of a summary, as a whole. */
  function TextFile(s: Summary): string
  {
    TextTitle + KeyPointsHeader + Bullets(s.keyPoints)
    + DecisionsHeader + Bullets(s.decisions)
    + ActionItemsHeader + Bullets(ItemLines(s.actionItems))
  }

  lemma {:induction false} BulletsAppend(a: seq<string>, b: seq<string>)
    ensures Bullets(a + b) == Bullets(a) + Bullets(b)
  {
    if a == [] {
      assert a + b == b;
    } else {
      assert (a + b)[1..] == a[1..] + b;
      BulletsAppend(a[1..], b);
    }
  }

  /**
   * One `forEach` of `generateTextFile`: appends the bullet line of every item
   * to `content`, in order.
   */
  method AppendBullets(content: string, items: seq<string>) returns (r: string)
    ensures r == content + Bullets(items)
  {
    r := content;
    var i := 0;
    while i < |items|
      invariant 0 <= i <= |items|
      invariant r == content + Bullets(items[..i])
    {
      BulletsAppend(items[..i], [items[i]]);
      assert items[..i + 1] == items[..i] + [items[i]];
      r := r + Bullet(items[i]);
      i := i + 1;
    }
    assert items[..i] == items;
  }

  /**
   * `generateTextFile`: grows the content string from the title, section by
   * section, each list as bullet lines.
   */
  method GenerateTextFile(s: Summary) returns (content: string)
    ensures content == TextFile(s)
  {
    content := TextTitle;
    content := content + KeyPointsHeader;
    content := AppendBullets(content, s.keyPoints);
    content := content + DecisionsHeader;
    content := AppendBullets(content, s.decisions);
    content := content + ActionItemsHeader;
    content := AppendBullets(content, ItemLines(s.actionItems));
  }

  // ---------------------------------------------------------------------------
  // Reading the export back: the bullet structure of a text export determines
  // the lists it was made from, as long as no item contains a line break.
  // ---------------------------------------------------------------------------

  predicate NoLineBreak(s: string)
  {
    forall i :: 0 <= i < |s| ==> s[i] != '\n'
  }

  predicate NoLineBreaks(items: seq<string>)
  {
    forall i :: 0 <= i < |items| ==> NoLineBreak(items[i])
  }

  /** Whether `t` starts with a bullet marker. */
  predicate StartsBullet(t: string)
  {
    |t| >= 2 && t[0] == '-' && t[1] == ' '
  }

  /** The index of the first line break at or after `from`, if there is one. */
  function LineBreakFrom(t: string, from: nat): (r: Option<nat>)
    decreases |t| - from
    ensures r.Some? ==> from <= r.value < |t| && t[r.value] == '\n'
    ensures r.Some? ==> forall j :: from <= j < r.value ==> t[j] != '\n'
    ensures r.None? ==> forall j :: from <= j < |t| ==> t[j] != '\n'
  {
    if from >= |t| then None
    else if t[from] == '\n' then Some(from)
    else LineBreakFrom(t, from + 1)
  }

  /** Reads consecutive bullet lines; returns their items and the unread rest. */
  function ParseBullets(t: string): (r: (seq<string>, string))
    decreases |t|
    ensures |r.1| <= |t|
  {
    if !StartsBullet(t) then ([], t)
    else
      match LineBreakFrom(t, 2)
      case None => ([], t)
      case Some(k) =>
        var (items, rest) := ParseBullets(t[k + 1..]);
        ([t[2..k]] + items, rest)
  }

  /** The three lists read back from a text export. */
  datatype ParsedText = ParsedText(keyPoints: seq<string>, decisions: seq<string>, actionItems: seq<string>)

  function DropPrefix(prefix: string, t: string): Option<string>
  {
    if |prefix| <= |t| && t[..|prefix|] == prefix then Some(t[|prefix|..]) else None
  }

  /** Reads a text export back into its three bullet lists. */
  function ParseTextFile(t: string): Option<ParsedText>
  {
    match DropPrefix(TextTitle + KeyPointsHeader, t)
    case None => None
    case Some(t1) =>
      var (kp, r1) := ParseBullets(t1);
      match DropPrefix(DecisionsHeader, r1)
      case None => None
      case Some(t2) =>
        var (dec, r2) := ParseBullets(t2);
        match DropPrefix(ActionItemsHeader, r2)
        case None => None
        case Some(t3) =>
          var (ai, r3) := ParseBullets(t3);
          if r3 == "" then Some(ParsedText(kp, dec, ai)) else None
  }

  lemma DropPrefixOf(prefix: string, t: string)
    ensures DropPrefix(prefix, prefix + t) == Some(t)
  {
  }

  /** A bullet line followed by `rest` reads back as its item, leaving `rest`. */
  lemma BulletLine(x: string, rest: string)
    requires NoLineBreak(x)
    ensures var t := Bullet(x) + rest;
      && StartsBullet(t)
      && LineBreakFrom(t, 2) == Some(2 + |x|)
      && t[2..2 + |x|] == x && t[2 + |x| + 1..] == rest
  {
    var t := Bullet(x) + rest;
    var k := 2 + |x|;
    assert t == "- " + x + "\n" + rest;
    assert t[k] == '\n';
    assert forall j :: 2 <= j < k ==> t[j] == x[j - 2];
    assert LineBreakFrom(t, 2) == Some(k);
    assert t[2..k] == x;
    assert t[k + 1..] == rest;
  }

  lemma {:induction false} ParseBulletsOf(items: seq<string>, tail: string)
    requires NoLineBreaks(items)
    requires !StartsBullet(tail)
    ensures ParseBullets(Bullets(items) + tail) == (items, tail)
  {
    if items == [] {
      assert Bullets(items) + tail == tail;
    } else {
      var x := items[0];
      var rest := Bullets(items[1..]) + tail;
      assert Bullets(items) + tail == Bullet(x) + rest;
      BulletLine(x, rest);
      assert NoLineBreaks(items[1..]) by {
        forall i | 0 <= i < |items[1..]| ensures NoLineBreak(items[1..][i]) {
          assert items[1..][i] == items[i + 1];
        }
      }
      ParseBulletsOf(items[1..], tail);
      assert [x] + items[1..] == items;
    }
  }

  lemma ItemLinesNoLineBreaks(items: seq<ActionItem>)
    requires forall i :: 0 <= i < |items| ==> NoLineBreak(items[i].task)
    requires forall i :: 0 <= i < |items| ==> NoLineBreak(OrNA(items[i].owner))
    requires forall i :: 0 <= i < |items| ==> NoLineBreak(OrNA(items[i].deadline))
    ensures NoLineBreaks(ItemLines(items))
  {
  }

  /** The sections after the key points, as the text export lays them out. */
  function AfterKeyPoints(s: Summary): string
  {
    DecisionsHeader + (Bullets(s.decisions) + (ActionItemsHeader + Bullets(ItemLines(s.actionItems))))
  }

  lemma TextFileShape(s: Summary)
    ensures TextFile(s) == (TextTitle + KeyPointsHeader) + (Bullets(s.keyPoints) + AfterKeyPoints(s))
  {
    var a, k := TextTitle + KeyPointsHeader, Bullets(s.keyPoints);
    var d, x := Bullets(s.decisions), Bullets(ItemLines(s.actionItems));
    var e := (a + k) + DecisionsHeader;
    assert TextFile(s) == ((e + d) + ActionItemsHeader) + x;
    Regroup(e, d, ActionItemsHeader, x);
    Regroup(a, k, DecisionsHeader, d + (ActionItemsHeader + x));
  }

  /** Four concatenated strings, regrouped to the right. */
  lemma Regroup(p: string, q: string, r: string, t: string)
    ensures ((p + q) + r) + t == p + (q + (r + t))
  {
  }

  /**
   * The text export can be read back: it starts with the fixed title and
   * headers in their fixed order, and every key point, decision and action
   * item line appears exactly once, in input order, even when a list is
   * empty.
   */
  lemma TextFileRoundTrip(s: Summary)
    requires NoLineBreaks(s.keyPoints) && NoLineBreaks(s.decisions)
    requires forall i :: 0 <= i < |s.actionItems| ==> NoLineBreak(s.actionItems[i].task)
    requires forall i :: 0 <= i < |s.actionItems| ==> NoLineBreak(OrNA(s.actionItems[i].owner))
    requires forall i :: 0 <= i < |s.actionItems| ==> NoLineBreak(OrNA(s.actionItems[i].deadline))
    ensures ParseTextFile(TextFile(s)) == Some(ParsedText(s.keyPoints, s.decisions, ItemLines(s.actionItems)))
  {
    var lines := ItemLines(s.actionItems);
    ItemLinesNoLineBreaks(s.actionItems);
    var t3 := Bullets(lines);
    var t2 := Bullets(s.decisions) + (ActionItemsHeader + t3);
    var t1 := Bullets(s.keyPoints) + (DecisionsHeader + t2);
    TextFileShape(s);
    assert TextFile(s) == (TextTitle + KeyPointsHeader) + t1;
    DropPrefixOf(TextTitle + KeyPointsHeader, t1);
    ParseBulletsOf(s.keyPoints, DecisionsHeader + t2);
    DropPrefixOf(DecisionsHeader, t2);
    ParseBulletsOf(s.decisions, ActionItemsHeader + t3);
    DropPrefixOf(ActionItemsHeader, t3);
    assert Bullets(lines) + "" == t3;
    ParseBulletsOf(lines, "");
  }

  /** The text export always opens with the title, then the Key Points header. */
  lemma TextFileStartsWithTitle(s: Summary)
    ensures |TextFile(s)| >= |TextTitle + KeyPointsHeader|
    ensures TextFile(s)[..|TextTitle + KeyPointsHeader|] == TextTitle + KeyPointsHeader
  {
  }

  /** An action item with neither owner nor deadline reads "Owner: N/A, Deadline: N/A". */
  lemma MissingOwnerAndDeadline(a: ActionItem)
    requires a.owner in {None, Some("")} && a.deadline in {None, Some("")}
    ensures ItemLine(a) == a.task + " (Owner: N/A, Deadline: N/A)"
  {
  }

  // ---------------------------------------------------------------------------
  // The on-screen rendering.
  // ---------------------------------------------------------------------------

  /** One row of the action-item table: task, owner cell, deadline cell. */
  datatype Row = Row(task: string, owner: string, deadline: string)

  /** A rendered section of the summary view, with its heading. */
  datatype Panel =
    | BulletPanel(title: string, items: seq<string>)
    | TablePanel(title: string, rows: seq<Row>)

  /** The table row of an action item: its task and its defaulted owner and deadline. */
  function TableRow(a: ActionItem): Row
  {
    Row(a.task, OrNA(a.owner), OrNA(a.deadline))
  }

  /**
   * The summary view: a section is rendered only when its list is non-empty,
   * in the fixed order Key Points, Decisions Made, Action Items.
   */
  function SummaryView(s: Summary): (r: seq<Panel>)
    ensures BulletPanel("Key Points", s.keyPoints) in r <==> |s.keyPoints| > 0
    ensures BulletPanel("Decisions Made", s.decisions) in r <==> |s.decisions| > 0
    ensures |s.keyPoints| > 0 ==> r[0] == BulletPanel("Key Points", s.keyPoints)
    ensures |s.decisions| > 0 ==> r[if |s.keyPoints| > 0 then 1 else 0] == BulletPanel("Decisions Made", s.decisions)
    ensures |s.actionItems| > 0 <==> |r| > 0 && r[|r| - 1].TablePanel?
    ensures |r| == (if |s.keyPoints| > 0 then 1 else 0) + (if |s.decisions| > 0 then 1 else 0)
                   + (if |s.actionItems| > 0 then 1 else 0)
    ensures forall p :: p in r && p.TablePanel? ==>
              p.title == "Action Items" && |p.rows| == |s.actionItems| &&
              forall i :: 0 <= i < |s.actionItems| ==>
                p.rows[i] == Row(s.actionItems[i].task, OrNA(s.actionItems[i].owner), OrNA(s.actionItems[i].deadline))
  {
    (if |s.keyPoints| > 0 then [BulletPanel("Key Points", s.keyPoints)] else [])
    + (if |s.decisions| > 0 then [BulletPanel("Decisions Made", s.decisions)] else [])
    + (if |s.actionItems| > 0
       then [TablePanel("Action Items", seq(|s.actionItems|, i requires 0 <= i < |s.actionItems| => TableRow(s.actionItems[i])))]
       else [])
  }

  /**
   * The table row and the exported line of an action item show the same
   * task, owner and deadline: the `N/A` defaulting is shared.
   */
  lemma ScreenMatchesExport(a: ActionItem)
    ensures var row := TableRow(a);
            ItemLine(a) == row.task + " (Owner: " + row.owner + ", Deadline: " + row.deadline + ")"
  {
  }
}
