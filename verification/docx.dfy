/**
 * An abstract word-processing document: paragraphs of styled runs and tables of
 * cells, in the shape the report builder assembles before it is serialised.
 */
module Docx {
  import opened Wrappers

  datatype Align = Left | Center | Right

  /** The font family a run names; `DefaultFont` when none is set. */
  datatype Font = DefaultFont | Arial

  /** A piece of text with its character formatting; `size` is in half-points, `None` when unset. */
  datatype Run = Run(text: string, bold: bool, italic: bool, size: Option<nat>, font: Font)

  /** A paragraph of runs; `align` is `None` when the paragraph leaves alignment unset. */
  datatype Paragraph = Paragraph(runs: seq<Run>, align: Option<Align>)

  /** A table cell: its paragraphs, its shading fill colour if any, its width in twentieths of a point. */
  datatype Cell = Cell(paragraphs: seq<Paragraph>, fill: Option<string>, width: nat)

  datatype Row = Row(cells: seq<Cell>)

  datatype Element =
    | Para(paragraph: Paragraph)
    | Table(rows: seq<Row>, tableAlign: Align)

  /** A document body with its top page margin in twentieths of a point. */
  datatype Document = Document(marginTop: nat, body: seq<Element>)

  /** The text a reader sees in a paragraph: its runs' texts, in order. */
  function ParagraphText(p: Paragraph): string {
    RunsText(p.runs)
  }

  function RunsText(runs: seq<Run>): string
    decreases |runs|
  {
    if |runs| == 0 then "" else RunsText(runs[..|runs| - 1]) + runs[|runs| - 1].text
  }

  /** The text of a cell holding a single paragraph. */
  function CellText(c: Cell): string {
    if |c.paragraphs| == 1 then ParagraphText(c.paragraphs[0]) else ""
  }

  /** The texts of a row's cells, left to right. */
  function RowTexts(r: Row): seq<string> {
    seq(|r.cells|, i requires 0 <= i < |r.cells| => CellText(r.cells[i]))
  }

  /** The positions of the tables in a document body. */
  function TablePositions(body: seq<Element>): set<nat> {
    set i: nat | i < |body| && body[i].Table?
  }

  /** Number of tables in a document body. */
  function TableCount(body: seq<Element>): nat {
    |TablePositions(body)|
  }

  /**
   * An empty line: a paragraph without alignment holding a single run that has no
   * text and no formatting of its own.
   */
  predicate IsBlank(e: Element) {
    && e.Para?
    && e.paragraph.align == None
    && |e.paragraph.runs| == 1
    && e.paragraph.runs[0].text == ""
    && !e.paragraph.runs[0].bold && !e.paragraph.runs[0].italic
    && e.paragraph.runs[0].size == None && e.paragraph.runs[0].font == DefaultFont
  }
}
