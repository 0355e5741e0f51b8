/** The documentation abstraction that the transformer builds.  Tables,
    texts, columns and the sub-headers made by the append helpers are values;
    headers and documents are objects, because the transformer creates them
    empty and then appends children to them in place.  `View()` gives the
    value an object currently stands for. */
module Documentation {

  /** TextType: a text content with a style reference. */
  datatype Text = Text(textContent: string, styleRef: string)

  datatype Column = Column(name: string)

  /** A table row: one text per column, by position. */
  type Row = seq<Text>

  datatype Table = Table(columns: seq<Column>, rows: seq<Row>)

  /** What a header or sub-header holds besides its sub-headers. */
  datatype Content = TextContent(text: Text) | TableContent(table: Table)

  /** A sub-header as appended by AddSubHeaderTextContent and
      AddSubHeaderTableContent: its text and the one content it holds. */
  datatype SubHeader = SubHeader(text: string, content: Content)

  /** The value of a header: text, level, contents and sub-headers, each
      sequence in append order. */
  datatype HeaderValue = HeaderValue(text: string, level: int, contents: seq<Content>, subHeaders: seq<SubHeader>)

  datatype DocumentValue = DocumentValue(name: string, title: string, headers: seq<HeaderValue>)

  /** HeaderType: created with its text and level, then filled by appends. */
  class Header {
    var text: string
    var level: int
    var contents: seq<Content>
    var subHeaders: seq<SubHeader>

    constructor (text: string, level: int)
      ensures View() == HeaderValue(text, level, [], [])
    {
      this.text := text;
      this.level := level;
      contents := [];
      subHeaders := [];
    }

    function View(): HeaderValue
      reads this
    {
      HeaderValue(text, level, contents, subHeaders)
    }

    /** Appends a text content to this header. */
    method AddHeaderTextContent(styleRef: string, content: string)
      modifies this
      ensures View() == old(View()).(contents := old(contents) + [TextContent(Text(content, styleRef))])
    {
      contents := contents + [TextContent(Text(content, styleRef))];
    }

    /** Appends a sub-header with the given text, holding one text content. */
    method AddSubHeaderTextContent(subHeaderText: string, styleRef: string, content: string)
      modifies this
      ensures View() == old(View()).(subHeaders := old(subHeaders) + [SubHeader(subHeaderText, TextContent(Text(content, styleRef)))])
    {
      subHeaders := subHeaders + [SubHeader(subHeaderText, TextContent(Text(content, styleRef)))];
    }

    /** Appends a sub-header with the given text, holding one table. */
    method AddSubHeaderTableContent(subHeaderText: string, table: Table)
      modifies this
      ensures View() == old(View()).(subHeaders := old(subHeaders) + [SubHeader(subHeaderText, TableContent(table))])
    {
      subHeaders := subHeaders + [SubHeader(subHeaderText, TableContent(table))];
    }
  }

  /** The values of a sequence of header objects, position by position. */
  function Views(hs: seq<Header>): (r: seq<HeaderValue>)
    reads hs
  {
    seq(|hs|, i requires 0 <= i < |hs| reads hs => hs[i].View())
  }

  /** Header objects whose views are, position by position, `vs` have `vs`
      as their views. */
  lemma ViewsAre(hs: seq<Header>, vs: seq<HeaderValue>)
    requires |hs| == |vs|
    requires forall j :: 0 <= j < |hs| ==> hs[j].View() == vs[j]
    ensures Views(hs) == vs
  {
  }

  /** DocumentType: created with its name and title, then filled with headers. */
  class Document {
    var name: string
    var title: string
    var headers: seq<Header>

    constructor (name: string, title: string)
      ensures this.name == name && this.title == title && headers == []
    {
      this.name := name;
      this.title := title;
      headers := [];
    }

    function View(): DocumentValue
      reads this, headers
    {
      DocumentValue(name, title, Views(headers))
    }

    /** Appends a header to this document. */
    method AddHeader(header: Header)
      modifies this
      ensures name == old(name) && title == old(title)
      ensures headers == old(headers) + [header]
    {
      headers := headers + [header];
    }
  }

  datatype Documentations = Documentations(documents: seq<Document>)

  /** DocumentationAbstractionType: the root of the output. */
  datatype DocumentationAbstraction = DocumentationAbstraction(documentations: Documentations)
}
