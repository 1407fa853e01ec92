/**
 * The monitoring-report builder: from a monitoring record and today's date to the
 * document's element tree and the file name it is offered under.
 */
module WordReport {
  import opened Wrappers
  import opened Text
  import opened TextLines
  import opened Dates
  import opened Models
  import opened Docx

  /** Shading of header cells. */
  const CELL_FILL: string := "7DCEA0"
  /** Size of all bold text, in half-points (12 pt). */
  const FONT_SIZE: nat := 24
  /** Width of every table cell, in twentieths of a point (7.62 cm). */
  const CELL_WIDTH: nat := 4320
  /** Size of comment text: four half-points below `FONT_SIZE`. */
  const COMMENT_FONT_SIZE: nat := FONT_SIZE - 4
  /** Top page margin, in twentieths of a point (1.5 cm). */
  const PAGE_MARGIN_TOP: nat := 851
  /** Number of empty paragraphs reserved before the sign-off table. */
  const PADDING_LINES: nat := 25

  const TITLE: string := "Отчет о результатах мониторинга контрагента"
  const COMMENTS_HEADING: string := "Комментарии:"
  const SIGNAL_LABEL: string := "Выявленный риск-сигнал"
  const EMPLOYEE_LABEL: string := "Сотрудник"
  const DATE_LABEL: string := "Дата составления"
  /** Shown for the author when the record names none. */
  const UNKNOWN_AUTHOR: string := "Не указан"
  const FILENAME_PREFIX: string := "Отчет о результатах мониторинга "
  const FILENAME_SUFFIX: string := ".docx"

  /** Labels of the key/value table, top to bottom. */
  const KEY_LABELS: seq<string> := [
    "ИНН",
    "Наименование контрагента",
    "Скоринг",
    "Отрасль",
    "Сегмент",
    "Принадлежность к группе"
  ]

  /** The prompts shown in place of comments when the record has no description. */
  const DEFAULT_COMMENTS: seq<string> := [
    "Описание риска",
    "История и причины возникновения",
    "Комментарии клиентского менеджера",
    "Перспективы закрытия риск-сигнала",
    "Прочие комментарии"
  ]

  /** Bold Arial text at the body size: the only run style used in tables and headings. */
  function StyledRun(text: string): Run {
    Run(text, true, false, Some(FONT_SIZE), Arial)
  }

  /** A shaded table cell holding `text` left-aligned. */
  function HeaderCell(text: string): Cell {
    Cell([Paragraph([StyledRun(text)], Some(Left))], Some(CELL_FILL), CELL_WIDTH)
  }

  /** An unshaded table cell, as wide as a header cell, holding `text` left-aligned. */
  function DataCell(text: string): Cell {
    Cell([Paragraph([StyledRun(text)], Some(Left))], None, CELL_WIDTH)
  }

  /** A paragraph holding one empty, unformatted run. */
  function EmptyLine(): Element {
    Para(Paragraph([Run("", false, false, None, DefaultFont)], None))
  }

  function TitleParagraph(): Element {
    Para(Paragraph([StyledRun(TITLE)], Some(Center)))
  }

  function CommentsHeading(): Element {
    Para(Paragraph([StyledRun(COMMENTS_HEADING)], Some(Left)))
  }

  /** One comment: italic, right-aligned, in the smaller size. */
  function CommentParagraph(text: string): Element {
    Para(Paragraph([Run(text, false, true, Some(COMMENT_FONT_SIZE), Arial)], Some(Right)))
  }

  /** The values of the key/value table, top to bottom; scoring and group are always blank. */
  function KeyValues(data: MonitoringReportData): seq<string> {
    [data.accountInn, data.accountName, "", data.industry, data.businessSegmentLabel, ""]
  }

  /** The key/value table: each label in a header cell beside its value in a data cell. */
  function KeyValueTable(data: MonitoringReportData): Element {
    var values := KeyValues(data);
    Table(seq(|KEY_LABELS|, i requires 0 <= i < |KEY_LABELS| =>
            Row([HeaderCell(KEY_LABELS[i]), DataCell(values[i])])), Center)
  }

  function SignalTable(data: MonitoringReportData): Element {
    Table([Row([HeaderCell(SIGNAL_LABEL), DataCell(data.signalName)])], Center)
  }

  /** The texts of the comment section: the description's comment lines, or the default prompts. */
  function CommentLines(description: Option<string>): seq<string> {
    match description
    case Some(d) => CommentTexts(d)
    case None => DEFAULT_COMMENTS
  }

  function CommentParagraphs(texts: seq<string>): (ps: seq<Element>)
    ensures |ps| == |texts|
  {
    seq(|texts|, i requires 0 <= i < |texts| => CommentParagraph(texts[i]))
  }

  function Padding(): seq<Element> {
    seq(PADDING_LINES, i => EmptyLine())
  }

  /** Who wrote the report and when: a header row over one data row. */
  function SignOffTable(createdBy: Option<string>, today: string): Element {
    Table([
      Row([HeaderCell(EMPLOYEE_LABEL), HeaderCell(DATE_LABEL)]),
      Row([DataCell(createdBy.UnwrapOr(UNKNOWN_AUTHOR)), DataCell(today)])
    ], Center)
  }

  /** Everything before the comments: title, the two tables and the comments heading, with spacing. */
  function Head(data: MonitoringReportData): (h: seq<Element>)
    ensures |h| == 10
  {
    [ TitleParagraph(), EmptyLine(),
      KeyValueTable(data), EmptyLine(), EmptyLine(),
      SignalTable(data), EmptyLine(), EmptyLine(),
      CommentsHeading(), EmptyLine() ]
  }

  /** The document body around the given comment lines. */
  function Body(data: MonitoringReportData, comments: seq<string>, today: string): seq<Element> {
    Head(data) + CommentParagraphs(comments) + Padding() + [SignOffTable(data.createdBy, today)]
  }

  function Filename(accountName: string, today: string): string {
    FILENAME_PREFIX + accountName + " " + today + FILENAME_SUFFIX
  }

  /** The built document and the name of the file it is offered under. */
  datatype Report = Report(document: Document, filename: string)

  /**
   * The report for `data` on `date`: whatever the record holds, ten leading elements,
   * one paragraph per comment line, twenty-five empty lines and the sign-off table,
   * with exactly three tables among them.
   */
  function Build(data: MonitoringReportData, date: Date): (r: Report)
    requires Valid(date)
    ensures |r.document.body| == 36 + |CommentLines(data.description)|
    ensures TableCount(r.document.body) == 3
  {
    var today := FormatDate(date);
    var comments := CommentLines(data.description);
    var body := Body(data, comments, today);
    BodyTablePositions(data, comments, today);
    Report(Document(PAGE_MARGIN_TOP, body), Filename(data.accountName, today))
  }

  /** The tables of a body sit at positions 2 and 5 and last. */
  lemma BodyTablePositions(data: MonitoringReportData, texts: seq<string>, today: string)
    ensures var body := Body(data, texts, today);
            TablePositions(body) == {2, 5, |body| - 1}
  {
    var body := Body(data, texts, today);
    var k := |texts|;
    var head := Head(data);
    var comments := CommentParagraphs(texts);
    var pad := Padding();
    assert |body| == 36 + k;
    forall i | 0 <= i < |body|
      ensures body[i].Table? <==> i == 2 || i == 5 || i == |body| - 1
    {
      if i < 10 {
        assert body[i] == head[i];
      } else if i < 10 + k {
        assert body[i] == comments[i - 10];
      } else if i < 35 + k {
        assert body[i] == pad[i - 10 - k];
      }
    }
    var expected: set<nat> := {2, 5, |body| - 1};
    assert forall i :: i in TablePositions(body) <==> i in expected;
  }

  /** What the payload parser hands over: a typed record, or the reason it could not make one. */
  datatype Payload = Parsed(data: MonitoringReportData) | Malformed(reason: string)

  datatype ReportError = InputFormatError(reason: string)

  /**
   * The whole call: a malformed payload is reported with the parser's reason and no
   * document; a parsed one always yields its report.
   */
  function Generate(payload: Payload, date: Date): (r: Result<Report, ReportError>)
    requires Valid(date)
    ensures r.Err? <==> payload.Malformed?
    ensures payload.Malformed? ==> r.error.reason == payload.reason
    ensures payload.Parsed? ==> r.value == Build(payload.data, date)
  {
    match payload
    case Malformed(reason) => Err(InputFormatError(reason))
    case Parsed(data) => Ok(Build(data, date))
  }

  /**
   * The builder as the source runs it: elements appended one at a time, the
   * description's lines walked in order, then the padding loop.
   */
  method GenerateWord(data: MonitoringReportData, date: Date) returns (doc: Document, filename: string)
    requires Valid(date)
    ensures Report(doc, filename) == Build(data, date)
  {
    var today := FormatDate(date);
    filename := Filename(data.accountName, today);
    var body := Head(data);
    match data.description {
      case Some(d) =>
        body := AppendComments(body, Lines(d));
      case None =>
        body := body + CommentParagraphs(DEFAULT_COMMENTS);
    }
    body := AppendPadding(body);
    body := body + [SignOffTable(data.createdBy, today)];
    doc := Document(PAGE_MARGIN_TOP, body);
  }

  /** The comment loop: one comment paragraph per line that is not blank once trimmed. */
  method AppendComments(start: seq<Element>, lines: seq<string>) returns (body: seq<Element>)
    ensures body == start + CommentParagraphs(NonBlankTrimmed(lines))
  {
    body := start;
    var i := 0;
    while i < |lines|
      invariant 0 <= i <= |lines|
      invariant body == start + CommentParagraphs(NonBlankTrimmed(lines[..i]))
    {
      var line := Trim(lines[i]);
      CommentStep(start, lines, i, body);
      if line != [] {
        body := body + [CommentParagraph(line)];
      }
      i := i + 1;
    }
    assert lines[..i] == lines;
  }

  /** The padding loop: `PADDING_LINES` empty lines appended. */
  method AppendPadding(start: seq<Element>) returns (body: seq<Element>)
    ensures body == start + Padding()
  {
    body := start;
    var j := 0;
    while j < PADDING_LINES
      invariant 0 <= j <= PADDING_LINES
      invariant body == start + Padding()[..j]
    {
      assert Padding()[..j + 1] == Padding()[..j] + [EmptyLine()];
      body := body + [EmptyLine()];
      j := j + 1;
    }
  }

  /** One more line walked adds the paragraph of its trim, unless it is blank. */
  lemma CommentStep(start: seq<Element>, lines: seq<string>, i: nat, body: seq<Element>)
    requires i < |lines|
    requires body == start + CommentParagraphs(NonBlankTrimmed(lines[..i]))
    ensures var line := Trim(lines[i]);
            (if line != [] then body + [CommentParagraph(line)] else body)
            == start + CommentParagraphs(NonBlankTrimmed(lines[..i + 1]))
  {
    var line := Trim(lines[i]);
    var texts := NonBlankTrimmed(lines[..i]);
    assert lines[..i + 1][..i] == lines[..i];
    assert NonBlankTrimmed(lines[..i + 1]) == texts + KeepNonBlank(line);
    if line != [] {
      CommentParagraphsSnoc(start, texts, line);
    } else {
      assert texts + KeepNonBlank(line) == texts;
    }
  }

  lemma CommentParagraphsSnoc(start: seq<Element>, texts: seq<string>, line: string)
    ensures start + CommentParagraphs(texts) + [CommentParagraph(line)]
            == start + CommentParagraphs(texts + [line])
  {
  }
}
