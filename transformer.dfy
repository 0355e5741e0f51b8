/** The report builder: turns a status-tracking abstraction into a
    documentation abstraction holding one document, "Status Tracking
    Document", whose headers are a Summary header followed by one header per
    group, in input order.

    Each builder method is proved against a function giving the value it
    builds (`SummaryHeader`, `GroupStatus`, `ItemTable`, `DocumentOf`); the
    lemmas at the end state the shape of that value. */
module Transformer {
  import opened StatusTracking
  import opened Documentation

  const DocumentName: string := "Status Tracking Document"
  const SummaryText: string := "Summary"
  const SummaryPrefix: string := "Status % = "
  const ProgressPrefix: string := "Progress : "
  const ItemsText: string := "Items"
  const ItemColumns: seq<Column> := [Column("Item"), Column("Status"), Column("Description")]

  /* ---------------------------------------------------------------------
     Style resolution and the item table
     --------------------------------------------------------------------- */

  /** The style of a table cell for an indicator: in this revision the empty
      style for every indicator. */
  function GetStyleName(trafficLightIndicator: TrafficLight): string
  {
    ""
  }

  /** The row of one status item: its display name, the text of its
      indicator value and its description, all three in the style of its
      traffic-light indicator. */
  function ItemRow(env: Env, item: StatusItem): Row
  {
    var style := GetStyleName(item.statusValue.trafficLightIndicator);
    [Text(item.displayName, style),
     Text(env.indicatorText(item.statusValue.indicatorValue), style),
     Text(item.description, style)]
  }

  /** A row holds exactly the three cells of `item`, all in one style. */
  predicate IsItemRow(env: Env, row: Row, item: StatusItem)
  {
    && |row| == 3
    && row[0].textContent == item.displayName
    && row[1].textContent == env.indicatorText(item.statusValue.indicatorValue)
    && row[2].textContent == item.description
    && forall k :: 0 <= k < 3 ==> row[k].styleRef == GetStyleName(item.statusValue.trafficLightIndicator)
  }

  /** The projection of items to rows (the Select of GetStatusItemTable). */
  function ItemRows(env: Env, items: seq<StatusItem>): (rows: seq<Row>)
    ensures |rows| == |items|
    ensures forall i :: 0 <= i < |items| ==> rows[i] == ItemRow(env, items[i])
    decreases |items|
  {
    if items == [] then []
    else ItemRows(env, items[..|items| - 1]) + [ItemRow(env, items[|items| - 1])]
  }

  /** The table GetStatusItemTable builds for `items`. */
  function ItemTable(env: Env, items: seq<StatusItem>): (t: Table)
    ensures |t.columns| == 3
    ensures t.columns[0].name == "Item" && t.columns[1].name == "Status" && t.columns[2].name == "Description"
    ensures |t.rows| == |items|
    ensures forall i :: 0 <= i < |items| ==> IsItemRow(env, t.rows[i], items[i])
  {
    Table(ItemColumns, ItemRows(env, items))
  }

  /** GetStatusItemTable: the table starts with its three columns, the rows
      are collected into a list by one AddRange of the per-item projection,
      and the list becomes the table's rows. */
  method GetStatusItemTable(env: Env, statusItems: seq<StatusItem>) returns (table: Table)
    ensures table == ItemTable(env, statusItems)
  {
    table := Table(ItemColumns, []);
    var rows: seq<Row> := [];
    rows := rows + ItemRows(env, statusItems);
    table := table.(rows := rows);
  }

  /* ---------------------------------------------------------------------
     The Summary header
     --------------------------------------------------------------------- */

  /** The Summary entry of one group: a sub-header titled with the group's
      name, holding the green percentage of its recursive summary. */
  function SummaryEntry(env: Env, fromAbs: Abstraction, grp: Group): SubHeader
  {
    SubHeader(grp.name, TextContent(Text(SummaryPrefix + env.groupSummary(grp, true, fromAbs).greenPercentage, "")))
  }

  /** The Summary entries of `groups`, appended one after the other. */
  function SummaryEntries(env: Env, fromAbs: Abstraction, groups: seq<Group>): (entries: seq<SubHeader>)
    ensures |entries| == |groups|
    ensures forall i :: 0 <= i < |groups| ==> entries[i] == SummaryEntry(env, fromAbs, groups[i])
    decreases |groups|
  {
    if groups == [] then []
    else SummaryEntries(env, fromAbs, groups[..|groups| - 1]) + [SummaryEntry(env, fromAbs, groups[|groups| - 1])]
  }

  /** The header GetSummary builds. */
  function SummaryHeader(env: Env, fromAbs: Abstraction): HeaderValue
  {
    HeaderValue(SummaryText, 1, [], SummaryEntries(env, fromAbs, fromAbs.groups))
  }

  /** GetSummary: computes every group's recursive summary first, then
      appends one sub-header per group to a fresh "Summary" header. */
  method GetSummary(env: Env, fromAbs: Abstraction) returns (summaryHeader: Header)
    ensures fresh(summaryHeader)
    ensures summaryHeader.View() == SummaryHeader(env, fromAbs)
  {
    summaryHeader := new Header(SummaryText, 1);
    var groups := fromAbs.groups;
    var summaries := seq(|groups|, i requires 0 <= i < |groups| => (groups[i].name, env.groupSummary(groups[i], true, fromAbs)));
    for i := 0 to |summaries|
      invariant summaryHeader.View() == HeaderValue(SummaryText, 1, [], SummaryEntries(env, fromAbs, groups[..i]))
    {
      summaryHeader.AddSubHeaderTextContent(summaries[i].0, "", SummaryPrefix + summaries[i].1.greenPercentage);
      assert groups[..i + 1][..i] == groups[..i];
    }
    assert groups[..|groups|] == groups;
  }

  /* ---------------------------------------------------------------------
     The header of one group
     --------------------------------------------------------------------- */

  /** The header GetGroupStatus builds for `grp`: the group's name at level
      1, a progress text from its non-recursive summary, and an "Items"
      sub-header holding the table of its items. */
  function GroupStatus(env: Env, grp: Group, fromAbs: Abstraction): HeaderValue
  {
    HeaderValue(grp.name, 1,
      [TextContent(Text(ProgressPrefix + env.groupSummary(grp, false, fromAbs).greenPercentage, ""))],
      [SubHeader(ItemsText, TableContent(ItemTable(env, env.statusItems(grp, fromAbs))))])
  }

  method GetGroupStatus(env: Env, grp: Group, fromAbs: Abstraction) returns (result: Header)
    ensures fresh(result)
    ensures result.View() == GroupStatus(env, grp, fromAbs)
  {
    var groupStatusItems := env.statusItems(grp, fromAbs);
    var groupSummary := env.groupSummary(grp, false, fromAbs);
    result := new Header(grp.name, 1);
    result.AddHeaderTextContent("", ProgressPrefix + groupSummary.greenPercentage);
    var table := GetStatusItemTable(env, groupStatusItems);
    result.AddSubHeaderTableContent(ItemsText, table);
  }

  /* ---------------------------------------------------------------------
     The document and the abstraction
     --------------------------------------------------------------------- */

  /** The group headers of `groups`, one per group, in group order. */
  function GroupHeaders(env: Env, fromAbs: Abstraction, groups: seq<Group>): (headers: seq<HeaderValue>)
    ensures |headers| == |groups|
    ensures forall i :: 0 <= i < |groups| ==> headers[i] == GroupStatus(env, groups[i], fromAbs)
    decreases |groups|
  {
    if groups == [] then []
    else GroupHeaders(env, fromAbs, groups[..|groups| - 1]) + [GroupStatus(env, groups[|groups| - 1], fromAbs)]
  }

  /** The document GetDocument builds. */
  function DocumentOf(env: Env, fromAbs: Abstraction): DocumentValue
  {
    DocumentValue(DocumentName, DocumentName, [SummaryHeader(env, fromAbs)] + GroupHeaders(env, fromAbs, fromAbs.groups))
  }

  /** GetDocument: a fresh document, then the Summary header, then one
      group header per group, each appended in turn. */
  method GetDocument(env: Env, fromAbs: Abstraction) returns (document: Document)
    ensures fresh(document)
    ensures document.name == DocumentName && document.title == DocumentName
    ensures |document.headers| == 1 + |fromAbs.groups|
    ensures forall j :: 0 <= j < |document.headers| ==> fresh(document.headers[j])
    ensures document.headers[0].View() == SummaryHeader(env, fromAbs)
    ensures forall j :: 0 <= j < |fromAbs.groups| ==>
              document.headers[j + 1].View() == GroupStatus(env, fromAbs.groups[j], fromAbs)
  {
    document := new Document(DocumentName, DocumentName);
    var summary := GetSummary(env, fromAbs);
    document.AddHeader(summary);
    var groups := fromAbs.groups;
    for i := 0 to |groups|
      invariant document.name == DocumentName && document.title == DocumentName
      invariant |document.headers| == i + 1
      invariant forall j :: 0 <= j <= i ==> fresh(document.headers[j])
      invariant document.headers[0].View() == SummaryHeader(env, fromAbs)
      invariant forall j :: 0 <= j < i ==> document.headers[j + 1].View() == GroupStatus(env, groups[j], fromAbs)
    {
      var header := GetGroupStatus(env, groups[i], fromAbs);
      document.AddHeader(header);
    }
  }

  /** TransformAbstraction: an abstraction holding exactly one document. */
  method TransformAbstraction(env: Env, fromAbs: Abstraction) returns (toAbs: DocumentationAbstraction)
    ensures |toAbs.documentations.documents| == 1
    ensures fresh(toAbs.documentations.documents[0])
    ensures var d := toAbs.documentations.documents[0]; forall j :: 0 <= j < |d.headers| ==> fresh(d.headers[j])
    ensures toAbs.documentations.documents[0].name == "Status Tracking Document"
    ensures toAbs.documentations.documents[0].title == "Status Tracking Document"
    ensures toAbs.documentations.documents[0].View() == DocumentOf(env, fromAbs)
  {
    var document := GetDocument(env, fromAbs);
    ghost var expected := DocumentOf(env, fromAbs).headers;
    DocumentHeaders(env, fromAbs);
    forall j | 0 <= j < |document.headers| ensures document.headers[j].View() == expected[j] {
      if j > 0 {
        assert document.headers[(j - 1) + 1].View() == GroupStatus(env, fromAbs.groups[j - 1], fromAbs);
      }
    }
    ViewsAre(document.headers, expected);
    toAbs := DocumentationAbstraction(Documentations([document]));
  }

  /* ---------------------------------------------------------------------
     Properties of the built document
     --------------------------------------------------------------------- */

  /** The texts of a sequence of headers, in order. */
  function HeaderTexts(headers: seq<HeaderValue>): (texts: seq<string>)
    ensures |texts| == |headers|
    ensures forall i :: 0 <= i < |headers| ==> texts[i] == headers[i].text
  {
    if headers == [] then [] else [headers[0].text] + HeaderTexts(headers[1..])
  }

  /** The texts of a sequence of sub-headers, in order. */
  function SubHeaderTexts(subHeaders: seq<SubHeader>): (texts: seq<string>)
    ensures |texts| == |subHeaders|
    ensures forall i :: 0 <= i < |subHeaders| ==> texts[i] == subHeaders[i].text
  {
    if subHeaders == [] then [] else [subHeaders[0].text] + SubHeaderTexts(subHeaders[1..])
  }

  /** The document's headers are the Summary header followed by one header
      per group, in group order. */
  lemma DocumentHeaders(env: Env, fromAbs: Abstraction)
    ensures |DocumentOf(env, fromAbs).headers| == 1 + |fromAbs.groups|
    ensures DocumentOf(env, fromAbs).headers[0] == SummaryHeader(env, fromAbs)
    ensures forall i :: 0 <= i < |fromAbs.groups| ==>
              DocumentOf(env, fromAbs).headers[i + 1] == GroupStatus(env, fromAbs.groups[i], fromAbs)
  {
    var d := DocumentOf(env, fromAbs);
    assert d.headers == [SummaryHeader(env, fromAbs)] + GroupHeaders(env, fromAbs, fromAbs.groups);
    assert d.headers[1..] == GroupHeaders(env, fromAbs, fromAbs.groups);
  }

  /** The Summary header: text "Summary", level 1, no content of its own,
      and one entry per group in group order, titled with the group's name
      and holding the green percentage of the group's recursive summary. */
  lemma SummaryHeaderShape(env: Env, fromAbs: Abstraction)
    ensures var s := SummaryHeader(env, fromAbs);
      && s.text == "Summary" && s.level == 1 && s.contents == []
      && |s.subHeaders| == |fromAbs.groups|
      && forall i :: 0 <= i < |fromAbs.groups| ==>
           var g := fromAbs.groups[i];
           && s.subHeaders[i].text == g.name
           && s.subHeaders[i].content == TextContent(Text("Status % = " + env.groupSummary(g, true, fromAbs).greenPercentage, ""))
  {
  }

  /** A group header: the group's name at level 1, one progress text from
      the non-recursive summary, and one "Items" sub-header holding the
      table of the group's items. */
  lemma GroupHeaderShape(env: Env, grp: Group, fromAbs: Abstraction)
    ensures var h := GroupStatus(env, grp, fromAbs);
      && h.text == grp.name && h.level == 1
      && h.contents == [TextContent(Text("Progress : " + env.groupSummary(grp, false, fromAbs).greenPercentage, ""))]
      && |h.subHeaders| == 1
      && h.subHeaders[0].text == "Items"
      && h.subHeaders[0].content.TableContent?
      && h.subHeaders[0].content.table == ItemTable(env, env.statusItems(grp, fromAbs))
  {
  }

  /** No group is dropped, added or reordered: the group names can be read
      back, in input order, both from the Summary entries and from the
      headers after the Summary. */
  lemma {:induction false} NoGroupDroppedOrReordered(env: Env, fromAbs: Abstraction)
    ensures SubHeaderTexts(DocumentOf(env, fromAbs).headers[0].subHeaders) == Names(fromAbs.groups)
    ensures HeaderTexts(DocumentOf(env, fromAbs).headers[1..]) == Names(fromAbs.groups)
  {
    var d := DocumentOf(env, fromAbs);
    var groups := fromAbs.groups;
    assert d.headers[1..] == GroupHeaders(env, fromAbs, groups);
    forall i | 0 <= i < |groups|
      ensures SubHeaderTexts(d.headers[0].subHeaders)[i] == Names(groups)[i]
      ensures HeaderTexts(d.headers[1..])[i] == Names(groups)[i]
    {
    }
  }

  /** The summaries never decide which groups appear or in what order: two
      environments that may disagree on every summary yield documents with
      the same header texts and the same Summary entry texts. */
  lemma {:induction false} ShapeIndependentOfSummaries(env1: Env, env2: Env, fromAbs: Abstraction)
    ensures HeaderTexts(DocumentOf(env1, fromAbs).headers) == HeaderTexts(DocumentOf(env2, fromAbs).headers)
    ensures SubHeaderTexts(DocumentOf(env1, fromAbs).headers[0].subHeaders)
         == SubHeaderTexts(DocumentOf(env2, fromAbs).headers[0].subHeaders)
  {
    NoGroupDroppedOrReordered(env1, fromAbs);
    NoGroupDroppedOrReordered(env2, fromAbs);
    var h1, h2 := DocumentOf(env1, fromAbs).headers, DocumentOf(env2, fromAbs).headers;
    var t1, t2 := HeaderTexts(h1), HeaderTexts(h2);
    forall i | 0 <= i < |t1| ensures t1[i] == t2[i] {
      if i > 0 {
        assert t1[i] == HeaderTexts(h1[1..])[i - 1];
        assert t2[i] == HeaderTexts(h2[1..])[i - 1];
      }
    }
  }

  /** Every cell of every item table is styled "" whatever the indicator. */
  lemma ItemTableUnstyled(env: Env, items: seq<StatusItem>)
    ensures forall i, k :: 0 <= i < |items| && 0 <= k < 3 ==> ItemTable(env, items).rows[i][k].styleRef == ""
  {
  }
}
