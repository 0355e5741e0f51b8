# Status tracking to documentation: a verified model of the report builder

This project models the report builder of the StatusTrackingToDocumentationTRANS
transformer (`Transformer.cs`). It takes a status-tracking abstraction: an
ordered list of groups, each resolving to an ordered list of status items with
a traffic-light status. It builds a documentation abstraction with a fixed
shape:

- exactly one document, named and titled "Status Tracking Document";
- a "Summary" header at level 1, with one sub-header per group in group order.
  Each sub-header holds "Status % = " followed by the green percentage of the
  group's recursive summary;
- then one level-1 header per group, in group order, titled with the group's
  name. Each holds the text "Progress : " followed by the green percentage of
  the group's non-recursive summary, and an "Items" sub-header with the item
  table;
- the item table has the columns "Item", "Status" and "Description", and one
  row per status item in item order. A row's cells are the display name, the
  text of the indicator value and the description. All three cells share the
  style that `GetStyleName` gives for the item's indicator. In this revision
  that style is `""` for every indicator.

Files and modules:

- `status_tracking.dfy`, module `StatusTracking`: the input data model. It also
  holds `Env`, the lookups the builder calls but does not define: the group's
  items (`GetStatusItems`), the group summary with its recursive flag
  (`GetGroupSummary`) and its `GreenPercentage`, and the text of an indicator
  value (`ToString`). They are total functions passed in as a parameter. The
  green percentage is an opaque string.
- `documentation.dfy`, module `Documentation`: the output data model. The
  source creates `HeaderType` and `DocumentType` objects empty and then appends
  to them in place, so `Header` and `Document` are classes. Their `Add*` methods
  append one child to the end of a sequence field and change nothing else.
  Tables, texts, columns and the sub-headers made by the append helpers are
  values. `View()` gives the value an object currently stands for.
- `transformer.dfy`, module `Transformer`: the builder. `GetSummary`,
  `GetGroupStatus`, `GetDocument` and `TransformAbstraction` are methods that
  allocate and fill objects in the same steps as the source: a `for` loop where
  the source has `foreach` or `Array.ForEach`. Each is proved against a pure
  function giving the value it builds: `SummaryHeader`, `GroupStatus` and
  `DocumentOf`. `GetStyleName`, the per-item row (`ItemRow`) and the table
  (`ItemTable`) are pure functions, because they are pure in the source. The
  lemmas at the end state the shape of the built document.

## Model

| member | source | states |
|---|---|---|
| `Transformer.TransformAbstraction` | Transformer.cs:53-68 | The result holds exactly one document, freshly allocated, with freshly allocated headers. Its name and title are both "Status Tracking Document", and its value is `DocumentOf` of the input. |
| `Transformer.GetDocument` | Transformer.cs:62-73 | The new document is named and titled "Status Tracking Document" and has 1 + \|groups\| headers. The first is the Summary header. Header j+1 is the header of group j, so groups keep their input order. Every header object is fresh. |
| `Transformer.DocumentHeaders` | Transformer.cs:70-71 | The document value has 1 + \|groups\| headers: the Summary header first, then the header of each group in group order. |
| `Transformer.GetSummary` | Transformer.cs:89-96 | All group summaries are computed first, then one sub-header is appended per group. The resulting fresh header's value is `SummaryHeader`. |
| `Transformer.SummaryEntries` | Transformer.cs:92-94 | Appending one entry per group gives exactly \|groups\| entries. Entry i is the Summary entry of group i. |
| `Transformer.SummaryHeaderShape` | Transformer.cs:91-94 | The Summary header has text "Summary", level 1, no content of its own, and one sub-header per group in group order. Each sub-header is titled with the group's name and holds the text "Status % = " + the green percentage of the recursive (`true`) summary, with style reference "". |
| `Transformer.GetGroupStatus` | Transformer.cs:75-87 | The fresh header's value is `GroupStatus` of the group: the value `GroupHeaderShape` describes. |
| `Transformer.GroupHeaderShape` | Transformer.cs:78-85 | A group header has the group's name as text and level 1. Its only content is the text "Progress : " + the green percentage of the non-recursive summary. Its only sub-header is "Items", holding the item table of the group's items. |
| `Transformer.NoGroupDroppedOrReordered` | Transformer.cs:70-94 | The group names read back from the Summary entries, and from the headers after the Summary, both equal the input group names in order. No group is dropped, added or reordered. |
| `Transformer.ShapeIndependentOfSummaries` | Transformer.cs:70-94 | Two environments that disagree on every summary give the same header texts and the same Summary entry texts. No summary value filters or reorders groups. |
| `Transformer.ItemTable` | Transformer.cs:100-119 | The item table has exactly three columns: "Item", "Status", "Description". It has one row per item, in item order. Row i has exactly three cells: display name, indicator-value text and description of item i. All three cells have the style `GetStyleName` gives for the item's indicator. |
| `Transformer.GetStatusItemTable` | Transformer.cs:98-121 | The columns are set first, the rows are collected by one `AddRange` of the per-item projection, and they become the table's rows. The result is `ItemTable` of the items. |
| `Transformer.ItemRows` | Transformer.cs:109-118 | The per-item projection gives one row per item, in item order. Row i is the row of item i. |
| `Transformer.GroupHeaders` | Transformer.cs:71 | Appending one group header per group gives exactly \|groups\| headers. Header i is the header of group i. |
| `Transformer.ItemTableUnstyled` | Transformer.cs:113-126 | Every cell of every item table has style reference "", whatever the item's indicator. |
| `Documentation.Header.constructor` | Transformer.cs:79-83 | A new header has the given text and level, and no contents or sub-headers. |
| `Documentation.Header.AddHeaderTextContent` | Transformer.cs:84 | Appends one text content (text and style reference) at the end of the header's contents. Text, level and sub-headers are unchanged. |
| `Documentation.Header.AddSubHeaderTextContent` | Transformer.cs:94 | Appends one sub-header with the given text, holding one text content, at the end of the sub-headers. Nothing else changes. |
| `Documentation.Header.AddSubHeaderTableContent` | Transformer.cs:85 | Appends one sub-header with the given text, holding the given table, at the end of the sub-headers. Nothing else changes. |
| `Documentation.Document.constructor` | Transformer.cs:64-68 | A new document has the given name and title and no headers. |
| `Documentation.Document.AddHeader` | Transformer.cs:70-71 | Appends the header at the end of the document's headers. Name and title are unchanged. |

## Left out

- `LoadXml`, `WriteToXmlString` and `GetGeneratorContent` (file streams, XML
  serialisation, output file names from `FileInfo.Name`): I/O and a foreign
  library.
- The internals of `GetStatusItems`, `GetGroupSummary` and `GreenPercentage`,
  and the `ToString` of an indicator value: they are not part of this model.
  They are the fields of `Env`, and the model assumes they are side-effect
  free. The overload `GetGroupSummary(fromAbs)` without a flag is modelled as
  the non-recursive summary (flag `false`).
- The internals of `AddHeader`, `AddHeaderTextContent`, `AddSubHeaderTextContent`
  and `AddSubHeaderTableContent`: they are not part of this model. The model
  assumes they only append. The empty-string argument they receive is kept as
  the style reference of the appended text. Any level or other attribute they
  give a sub-header is not modelled.
- The relative order of a header's contents and its sub-headers: the model
  keeps them in two separate sequences, each in append order.
- The table is a value, not an object: `GetStatusItemTable` creates it, assigns
  its rows once and never touches it again.
- Null arrays and null fields: in the source, a missing `Groups` array, a
  missing item array or a missing `StatusValue` raises an exception. Dafny
  sequences and datatypes cannot be null, so that error path is not modelled.
- The design description of this system calls for things this revision of the
  code does not do, and the model follows the code: complete groups are not
  dropped, groups are not sorted by name, root, red or yellow ratio, and
  header texts carry no "(R)" prefix or percentage. `GetStyleName` maps every
  indicator to `""` rather than to colour styles, and raises no error for an
  unknown indicator. The "Status" cell is `indicatorValue.ToString()`, not a
  display text. `ShapeIndependentOfSummaries` and `ItemTableUnstyled` state
  these absences.
