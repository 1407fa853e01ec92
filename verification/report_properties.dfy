/**
 * What every built report looks like, whatever the record: the order of its parts,
 * the contents and styling of its three tables, its comment section and its file name.
 */
module ReportProperties {
  import opened Wrappers
  import opened Text
  import opened TextLines
  import opened Dates
  import opened Models
  import opened Docx
  import opened WordReport

  /** A table cell holding one left-aligned paragraph of one bold, upright, 12 pt Arial run, 4320 wide. */
  predicate StyledCell(c: Cell) {
    && c.width == 4320
    && |c.paragraphs| == 1
    && c.paragraphs[0].align == Some(Left)
    && |c.paragraphs[0].runs| == 1
    && c.paragraphs[0].runs[0].bold
    && !c.paragraphs[0].runs[0].italic
    && c.paragraphs[0].runs[0].size == Some(24)
    && c.paragraphs[0].runs[0].font == Arial
  }

  predicate HeaderStyle(c: Cell) {
    StyledCell(c) && c.fill == Some("7DCEA0")
  }

  predicate DataStyle(c: Cell) {
    StyledCell(c) && c.fill == None
  }

  /** A paragraph showing exactly `text` in one italic, non-bold, 10 pt Arial run, right-aligned. */
  predicate IsCommentParagraph(e: Element, text: string) {
    && e.Para?
    && e.paragraph.align == Some(Right)
    && |e.paragraph.runs| == 1
    && e.paragraph.runs[0].italic
    && !e.paragraph.runs[0].bold
    && e.paragraph.runs[0].size == Some(20)
    && e.paragraph.runs[0].font == Arial
    && ParagraphText(e.paragraph) == text
  }

  /** A paragraph showing exactly `text` in one bold, upright 12 pt Arial run, aligned as given. */
  predicate IsHeading(e: Element, text: string, align: Align) {
    && e.Para?
    && e.paragraph.align == Some(align)
    && |e.paragraph.runs| == 1
    && e.paragraph.runs[0].bold
    && !e.paragraph.runs[0].italic
    && e.paragraph.runs[0].size == Some(24)
    && e.paragraph.runs[0].font == Arial
    && ParagraphText(e.paragraph) == text
  }

  function BodyOf(data: MonitoringReportData, date: Date): seq<Element>
    requires Valid(date)
  {
    Build(data, date).document.body
  }

  lemma OneRunText(r: Run)
    ensures RunsText([r]) == r.text
  {
    assert [r][..0] == [];
  }

  /** A header cell: shaded, 4320 wide, one left-aligned paragraph of one bold, upright 12 pt Arial run showing `text`. */
  lemma HeaderCellShape(text: string)
    ensures HeaderStyle(HeaderCell(text)) && CellText(HeaderCell(text)) == text
  {
    OneRunText(StyledRun(text));
  }

  /** A data cell: styled like a header cell but unshaded, showing `text`. */
  lemma DataCellShape(text: string)
    ensures DataStyle(DataCell(text)) && CellText(DataCell(text)) == text
  {
    OneRunText(StyledRun(text));
  }

  lemma EmptyLineShape()
    ensures IsBlank(EmptyLine())
  {
  }

  lemma TitleShape()
    ensures IsHeading(TitleParagraph(), "Отчет о результатах мониторинга контрагента", Center)
  {
    OneRunText(StyledRun(TITLE));
  }

  lemma CommentsHeadingShape()
    ensures IsHeading(CommentsHeading(), "Комментарии:", Left)
  {
    OneRunText(StyledRun(COMMENTS_HEADING));
  }

  /** The padding is exactly 25 empty lines. */
  lemma PaddingShape()
    ensures |Padding()| == 25
    ensures forall j :: 0 <= j < |Padding()| ==> IsBlank(Padding()[j])
  {
  }

  lemma BodyHead(data: MonitoringReportData, texts: seq<string>, today: string, i: nat)
    requires i < 10
    ensures Body(data, texts, today)[i] == Head(data)[i]
  {
  }

  lemma BodyComment(data: MonitoringReportData, texts: seq<string>, today: string, i: nat)
    requires i < |texts|
    ensures Body(data, texts, today)[10 + i] == CommentParagraph(texts[i])
  {
    var head := Head(data) + CommentParagraphs(texts);
    assert Body(data, texts, today)[10 + i] == head[10 + i];
  }

  lemma BodyPadding(data: MonitoringReportData, texts: seq<string>, today: string, j: nat)
    requires 10 + |texts| <= j < 35 + |texts|
    ensures Body(data, texts, today)[j] == EmptyLine()
  {
    var k := |texts|;
    var front := Head(data) + CommentParagraphs(texts) + Padding();
    assert Body(data, texts, today)[j] == front[j];
    assert front[j] == Padding()[j - 10 - k];
  }

  lemma BodyLast(data: MonitoringReportData, texts: seq<string>, today: string)
    ensures var body := Body(data, texts, today);
            |body| == 36 + |texts| && body[|body| - 1] == SignOffTable(data.createdBy, today)
  {
  }

  /** The body `Build` produces, around the comment lines it chooses. */
  lemma BuildBody(data: MonitoringReportData, date: Date)
    requires Valid(date)
    ensures BodyOf(data, date) == Body(data, CommentLines(data.description), FormatDate(date))
  {
  }

  /**
   * The fixed layout of a body around `k` comments: title; blank; key/value table;
   * two blanks; signal table; two blanks; the comments heading; blank; the k comment
   * paragraphs; exactly 25 blank paragraphs; the sign-off table. So 36 + k elements,
   * three of them tables.
   */
  predicate LaidOut(body: seq<Element>, k: nat) {
    && |body| == 36 + k
    && TablePositions(body) == {2, 5, 35 + k}
    && IsHeading(body[0], "Отчет о результатах мониторинга контрагента", Center)
    && IsBlank(body[1]) && IsBlank(body[3]) && IsBlank(body[4])
    && IsBlank(body[6]) && IsBlank(body[7])
    && IsHeading(body[8], "Комментарии:", Left)
    && IsBlank(body[9])
    && (forall j :: 10 + k <= j < 35 + k ==> IsBlank(body[j]))
  }

  lemma BodyLaidOut(data: MonitoringReportData, texts: seq<string>, today: string)
    ensures LaidOut(Body(data, texts, today), |texts|)
  {
    var body := Body(data, texts, today);
    var k := |texts|;
    BodyTablePositions(data, texts, today);
    BodyLast(data, texts, today);
    TitleShape();
    CommentsHeadingShape();
    EmptyLineShape();
    BodyHead(data, texts, today, 0);
    BodyHead(data, texts, today, 8);
    forall i | i in {1, 3, 4, 6, 7, 9} ensures IsBlank(body[i]) {
      BodyHead(data, texts, today, i);
    }
    forall j | 10 + k <= j < 35 + k ensures IsBlank(body[j]) {
      BodyPadding(data, texts, today, j);
    }
  }

  /** Every built report has the fixed layout around its comment lines. */
  lemma BodyLayout(data: MonitoringReportData, date: Date)
    requires Valid(date)
    ensures LaidOut(BodyOf(data, date), |CommentLines(data.description)|)
  {
    BuildBody(data, date);
    BodyLaidOut(data, CommentLines(data.description), FormatDate(date));
  }

  /**
   * The key/value table: six rows of a shaded label cell beside an unshaded value cell,
   * the values being the record's fields, with scoring and group always blank.
   */
  predicate KeyValueTableShows(t: Element, data: MonitoringReportData) {
    && t.Table? && t.tableAlign == Center && |t.rows| == 6
    && (forall i :: 0 <= i < 6 ==>
          (|t.rows[i].cells| == 2 && HeaderStyle(t.rows[i].cells[0]) && DataStyle(t.rows[i].cells[1])))
    && RowTexts(t.rows[0]) == ["ИНН", data.accountInn]
    && RowTexts(t.rows[1]) == ["Наименование контрагента", data.accountName]
    && RowTexts(t.rows[2]) == ["Скоринг", ""]
    && RowTexts(t.rows[3]) == ["Отрасль", data.industry]
    && RowTexts(t.rows[4]) == ["Сегмент", data.businessSegmentLabel]
    && RowTexts(t.rows[5]) == ["Принадлежность к группе", ""]
  }

  /** A row of a shaded label cell beside an unshaded value cell shows the caption, then the value. */
  lemma LabelledRow(caption: string, value: string)
    ensures var r := Row([HeaderCell(caption), DataCell(value)]);
            && |r.cells| == 2 && HeaderStyle(r.cells[0]) && DataStyle(r.cells[1])
            && RowTexts(r) == [caption, value]
  {
    HeaderCellShape(caption);
    DataCellShape(value);
  }

  lemma KeyValueTableShape(data: MonitoringReportData)
    ensures KeyValueTableShows(KeyValueTable(data), data)
  {
    var t := KeyValueTable(data);
    forall i | 0 <= i < 6
      ensures |t.rows[i].cells| == 2 && HeaderStyle(t.rows[i].cells[0]) && DataStyle(t.rows[i].cells[1])
      ensures RowTexts(t.rows[i]) == [KEY_LABELS[i], KeyValues(data)[i]]
    {
      LabelledRow(KEY_LABELS[i], KeyValues(data)[i]);
    }
  }

  /** The third element of every report is the key/value table of its record. */
  lemma KeyValueTableContents(data: MonitoringReportData, date: Date)
    requires Valid(date)
    ensures KeyValueTableShows(BodyOf(data, date)[2], data)
  {
    BuildBody(data, date);
    BodyHead(data, CommentLines(data.description), FormatDate(date), 2);
    KeyValueTableShape(data);
  }

  /** The signal table: one row, the shaded risk-signal label beside the record's signal name. */
  predicate SignalTableShows(t: Element, data: MonitoringReportData) {
    && t.Table? && t.tableAlign == Center && |t.rows| == 1 && |t.rows[0].cells| == 2
    && HeaderStyle(t.rows[0].cells[0]) && DataStyle(t.rows[0].cells[1])
    && RowTexts(t.rows[0]) == ["Выявленный риск-сигнал", data.signalName]
  }

  lemma SignalTableShape(data: MonitoringReportData)
    ensures SignalTableShows(SignalTable(data), data)
  {
    LabelledRow(SIGNAL_LABEL, data.signalName);
  }

  /** The sixth element of every report is the signal table of its record. */
  lemma SignalTableContents(data: MonitoringReportData, date: Date)
    requires Valid(date)
    ensures SignalTableShows(BodyOf(data, date)[5], data)
  {
    BuildBody(data, date);
    BodyHead(data, CommentLines(data.description), FormatDate(date), 5);
    SignalTableShape(data);
  }

  /**
   * The sign-off table: a shaded header row over one data row naming the author,
   * or "Не указан" when there is none, and the date.
   */
  predicate SignOffTableShows(t: Element, createdBy: Option<string>, today: string) {
    && t.Table? && t.tableAlign == Center && |t.rows| == 2
    && |t.rows[0].cells| == 2 && |t.rows[1].cells| == 2
    && HeaderStyle(t.rows[0].cells[0]) && HeaderStyle(t.rows[0].cells[1])
    && DataStyle(t.rows[1].cells[0]) && DataStyle(t.rows[1].cells[1])
    && RowTexts(t.rows[0]) == ["Сотрудник", "Дата составления"]
    && RowTexts(t.rows[1])[0] == (if createdBy.Some? then createdBy.value else "Не указан")
    && RowTexts(t.rows[1])[1] == today
  }

  lemma SignOffTableShape(createdBy: Option<string>, today: string)
    ensures SignOffTableShows(SignOffTable(createdBy, today), createdBy, today)
  {
    HeaderCellShape(EMPLOYEE_LABEL);
    HeaderCellShape(DATE_LABEL);
    DataCellShape(createdBy.UnwrapOr(UNKNOWN_AUTHOR));
    DataCellShape(today);
  }

  /** The sign-off table closes every report, dated with the report's date. */
  lemma SignOffTableContents(data: MonitoringReportData, date: Date)
    requires Valid(date)
    ensures var body := BodyOf(data, date);
            SignOffTableShows(body[|body| - 1], data.createdBy, FormatDate(date))
  {
    var today := FormatDate(date);
    BuildBody(data, date);
    BodyLast(data, CommentLines(data.description), today);
    SignOffTableShape(data.createdBy, today);
  }

  lemma CommentParagraphShape(text: string)
    ensures IsCommentParagraph(CommentParagraph(text), text)
  {
    OneRunText(Run(text, false, true, Some(COMMENT_FONT_SIZE), Arial));
  }

  lemma BodyComments(data: MonitoringReportData, texts: seq<string>, today: string)
    ensures var body := Body(data, texts, today);
            forall i :: 0 <= i < |texts| ==> IsCommentParagraph(body[10 + i], texts[i])
  {
    var body := Body(data, texts, today);
    forall i | 0 <= i < |texts| ensures IsCommentParagraph(body[10 + i], texts[i]) {
      BodyComment(data, texts, today, i);
      CommentParagraphShape(texts[i]);
    }
  }

  /**
   * The comment section: one italic, right-aligned, 10 pt paragraph per comment line,
   * in order, whether the lines come from the description or are the default prompts.
   */
  lemma CommentSectionContents(data: MonitoringReportData, date: Date)
    requires Valid(date)
    ensures var body := BodyOf(data, date);
            var texts := CommentLines(data.description);
            forall i :: 0 <= i < |texts| ==> IsCommentParagraph(body[10 + i], texts[i])
  {
    BuildBody(data, date);
    BodyComments(data, CommentLines(data.description), FormatDate(date));
  }

  /** Without a description, the comment section is the five fixed prompts, in this order. */
  lemma DefaultCommentLines()
    ensures CommentLines(None) == [
      "Описание риска",
      "История и причины возникновения",
      "Комментарии клиентского менеджера",
      "Перспективы закрытия риск-сигнала",
      "Прочие комментарии"
    ]
  {
  }

  /**
   * With a description, the comment lines are exactly its lines, trimmed, blank ones
   * dropped, in their original order (`idx` are the positions kept). Each is non-empty
   * and trimmed, there are no more of them than lines, and a plain split on line feeds
   * gives the same result as Rust's `lines`.
   */
  lemma DescribedCommentLines(d: string) returns (idx: seq<nat>)
    ensures var texts := CommentLines(Some(d));
            && Selects(Lines(d), texts, idx)
            && texts == NonBlankTrimmed(Split(d, '\n'))
            && (forall i :: 0 <= i < |texts| ==> texts[i] != "" && Trimmed(texts[i]))
            && |texts| <= |Lines(d)| <= Count(d, '\n') + 1
  {
    idx := NonBlankTrimmedSelects(Lines(d));
    LinesAgreeWithSplit(d);
  }

  /**
   * The file name is the fixed caption, the account name verbatim, a space, the same
   * date the sign-off table shows, and ".docx"; the date can be read back from it.
   */
  lemma FilenameContents(data: MonitoringReportData, date: Date)
    requires Valid(date)
    ensures var f := Build(data, date).filename;
            var name := data.accountName;
            var body := BodyOf(data, date);
            var signOff := body[|body| - 1];
            && |f| == 32 + |name| + 16
            && f[..32] == "Отчет о результатах мониторинга "
            && f[32..32 + |name|] == name
            && f[|f| - 16..] == " " + RowTexts(signOff.rows[1])[1] + ".docx"
            && ParseDate(f[|f| - 15..|f| - 5]) == Some(date)
  {
    var today := FormatDate(date);
    SignOffTableContents(data, date);
    ParseFormat(date);
    FilenameParts(data.accountName, today);
  }

  lemma FilenameParts(name: string, today: string)
    requires |today| == 10
    ensures var f := Filename(name, today);
            && |f| == 32 + |name| + 16
            && f[..32] == FILENAME_PREFIX
            && f[32..32 + |name|] == name
            && f[|f| - 16..] == " " + today + ".docx"
            && f[|f| - 15..|f| - 5] == today
  {
    var f := Filename(name, today);
    assert |FILENAME_PREFIX| == 32;
    var tail := " " + today + FILENAME_SUFFIX;
    assert f == FILENAME_PREFIX + name + tail;
    assert f[|f| - 16..] == tail;
    assert tail[1..11] == today;
  }

  /** Two comment lines followed by a blank line and a final line feed give exactly those two comments. */
  lemma TwoLinesThenBlank(a: string, b: string)
    requires a != "" && b != "" && Trimmed(a) && Trimmed(b) && '\n' !in a && '\n' !in b
    ensures CommentLines(Some(a + "\n" + b + "\n\n")) == [a, b]
  {
    var d := a + "\n" + b + "\n\n";
    TwoLinesThenBlankPieces(a, b);
    TwoLinesThenBlankFilter(a, b);
    LinesAgreeWithSplit(d);
  }

  lemma TwoLinesThenBlankPieces(a: string, b: string)
    requires '\n' !in a && '\n' !in b
    ensures Split(a + "\n" + b + "\n\n", '\n') == [a, b, "", ""]
  {
    var nl := '\n';
    var tail2: string := [] + [nl] + [];
    var tail1 := b + [nl] + tail2;
    assert a + "\n" + b + "\n\n" == a + [nl] + tail1;
    SplitAtFirstSeparator(a, tail1, nl);
    SplitAtFirstSeparator(b, tail2, nl);
    SplitAtFirstSeparator([], [], nl);
    SplitWithoutSeparator([], nl);
  }

  lemma TwoLinesThenBlankFilter(a: string, b: string)
    requires a != "" && b != "" && Trimmed(a) && Trimmed(b)
    ensures NonBlankTrimmed([a, b, "", ""]) == [a, b]
  {
    var kept: seq<string> := [a, b];
    var blank: seq<string> := ["", ""];
    NonBlankTrimmedFixes(kept);
    TwoBlankLines();
    NonBlankTrimmedAppend(kept, blank);
    assert kept + blank == [a, b, "", ""];
  }

  lemma TwoBlankLines()
    ensures NonBlankTrimmed(["", ""]) == []
  {
    TrimOfTrimmed("");
    NonBlankTrimmedSingle("");
    NonBlankTrimmedAppend([""], [""]);
    assert [""] + [""] == ["", ""];
  }

  /** A description with a blank line and a trailing line feed gives two comments, in order. */
  lemma ExampleTwoLineDescription()
    ensures CommentLines(Some("Line A\nLine B\n\n")) == ["Line A", "Line B"]
  {
    var a, b := "Line A", "Line B";
    assert a + "\n" + b + "\n\n" == "Line A\nLine B\n\n";
    assert a != "" && b != "" && Trimmed(a) && Trimmed(b) && '\n' !in a && '\n' !in b by {
      assert a[0] == 'L' && a[5] == 'A' && b[0] == 'L' && b[5] == 'B';
    }
    TwoLinesThenBlank(a, b);
  }

  /**
   * The file name for account "Romashka LLC" on 1 January 2024: the caption
   * "Отчет о результатах мониторинга " followed by "Romashka LLC 2024-01-01.docx".
   */
  lemma ExampleFilename(data: MonitoringReportData)
    requires data.accountName == "Romashka LLC"
    ensures Build(data, Date(2024, 1, 1)).filename == FILENAME_PREFIX + "Romashka LLC 2024-01-01.docx"
  {
    var date := Date(2024, 1, 1);
    ExampleDate();
    BuildFilename(data, date);
    ExampleFilenameTail();
  }

  lemma ExampleFilenameTail()
    ensures Filename("Romashka LLC", "2024-01-01") == FILENAME_PREFIX + "Romashka LLC 2024-01-01.docx"
  {
    assert "Romashka LLC" + " " + "2024-01-01" + ".docx" == "Romashka LLC 2024-01-01.docx";
  }

  /** 1 January 2024 is written "2024-01-01". */
  lemma ExampleDate()
    ensures FormatDate(Date(2024, 1, 1)) == "2024-01-01"
  {
    FormatDateFields(Date(2024, 1, 1));
    ExampleYearDigits();
    ExampleMonthDigits();
    assert "2024" + "-" + "01" + "-" + "01" == "2024-01-01";
  }

  lemma ExampleYearDigits()
    ensures PadDigits(2024, 4) == "2024"
  {
  }

  lemma ExampleMonthDigits()
    ensures PadDigits(1, 2) == "01"
  {
  }

  lemma BuildFilename(data: MonitoringReportData, date: Date)
    requires Valid(date)
    ensures Build(data, date).filename == Filename(data.accountName, FormatDate(date))
  {
  }
}
