# Monitoring report builder, modelled in Dafny

The Rust extension `report_generator` turns a counterparty-monitoring record
(`MonitoringReportData`) into a Word document. The document contains:

- a title;
- a key/value table of the counterparty;
- a table with the detected risk signal;
- a comment section;
- 25 empty lines of padding;
- a sign-off table with the author and today's date.

The extension also picks the file name the document is offered under.

This project models that builder as pure functions over immutable data. The
model has these parts:

- `Models`: the input record, `MonitoringReportData`, with its history items.
- `Docx`: the element tree the builder produces. A body is a sequence of
  paragraphs and tables. A paragraph holds runs. Runs carry text, bold, italic,
  size and font. Cells carry fill and width.
- `Text`:
  - `char::is_whitespace`, which is the Unicode `White_Space` set;
  - `str::trim`;
  - `str::split` on one character, and joining the pieces back.
- `TextLines`:
  - `str::lines`, which splits on `'\n'` and strips one `'\r'` before each line
    feed;
  - the comment filter, which trims every line and drops the blank ones.
- `Dates`: chrono's `%Y-%m-%d` rendering of a calendar date, and a parser that
  inverts it.
- `WordReport`: the builder itself, in two forms.
  - `Build` is a pure function from a record and a date to the document and
    its file name.
  - `GenerateWord` is a method that assembles the body in the source's order:
    - the ten leading elements;
    - the comments: either a loop over the description's lines that appends one
      paragraph per non-blank line, or the five default prompts added together;
    - a 25-step padding loop;
    - the sign-off table.

    The two loops go element by element, as the source does. It is proved to
    produce exactly `Build`'s result.
  - `Generate` wraps `Build` with the payload-parsing error path.
- `ReportProperties`: what every report looks like, whatever the record:
  - the layout;
  - the contents and styling of each table;
  - the comment section;
  - the file name.

Today's date is a parameter, a `Date` with a year in 0..9999. The source reads
the clock instead.

As written, the source does not compile, on two points:

- The record is defective: `models.rs` declares `signal_name` twice (lines 9
  and 11).
- The builder is wrong: it reads `parsed.business_segment` (word_report.rs:89),
  a field the record does not have. The record declares
  `business_segment_label` (models.rs:8).

The model follows the evident intent:

- a record with one `signalName`;
- the segment value taken from `businessSegmentLabel`.

The comment at word_report.rs:224 says ten empty lines are added. The loop below
it adds 25, and the model follows the loop.

## Model

| member | source | states |
|---|---|---|
| Text.WhitespaceCodePoints | src/monitoing_report/word_report.rs:148 | `IsWhitespace`, the whitespace test `trim` uses, holds of exactly the 25 code points of Unicode `White_Space`, listed one by one |
| Text.TrimStart | src/monitoing_report/word_report.rs:148 | the result of trimming the front is no longer than the line and does not start with whitespace |
| Text.TrimStartRemovesWhitespace | src/monitoing_report/word_report.rs:148 | trimming the front keeps a suffix of the line and removes only whitespace |
| Text.TrimEnd | src/monitoing_report/word_report.rs:148 | the result of trimming the back is no longer than the line and does not end with whitespace |
| Text.TrimEndRemovesWhitespace | src/monitoing_report/word_report.rs:148 | trimming the back keeps a prefix of the line and removes only whitespace |
| Text.Trim | src/monitoing_report/word_report.rs:148 | the trimmed line neither starts nor ends with a whitespace character, and is no longer than the line |
| Text.TrimDecomposition | src/monitoing_report/word_report.rs:148 | every line is its trim with only whitespace removed on either side, at a returned offset |
| Text.TrimUnique | src/monitoing_report/word_report.rs:148 | the trim is determined by that description: any trimmed text surrounded by whitespace trims to itself |
| Text.TrimEmptyIff | src/monitoing_report/word_report.rs:148 | a line is skipped as blank exactly when it consists only of whitespace |
| Text.TrimIdempotent | src/monitoing_report/word_report.rs:148-153 | trimming the text already written as a comment changes nothing |
| Text.TrimInfix | src/monitoing_report/word_report.rs:153 | a comment's characters all come from its line |
| Text.TrimIgnoresTrailingWhitespace | src/monitoing_report/word_report.rs:144-148 | a carriage return or other whitespace left at the end of a line does not change the comment |
| Text.Split | src/monitoing_report/word_report.rs:144 | splitting on a separator yields at least one piece, no piece contains the separator, and joining the pieces back gives the text |
| Text.SplitLength | src/monitoing_report/word_report.rs:144 | a split has exactly one more piece than the text has separators |
| Text.SplitJoin | src/monitoing_report/word_report.rs:144 | splitting the join of separator-free pieces gives the pieces back, so split and join are inverses |
| Text.SplitAtFirstSeparator | src/monitoing_report/word_report.rs:144 | the first piece is the text up to the first separator, and the rest is the split of what follows |
| TextLines.StripCarriageReturn | src/monitoing_report/word_report.rs:144 | a line loses exactly one trailing carriage return when it has one and nothing otherwise, and that never changes its trim |
| TextLines.Lines | src/monitoing_report/word_report.rs:144 | no line contains a line feed, and there are as many lines as line feeds, plus one when the text is non-empty and does not end with a line feed |
| TextLines.LinesArePieces | src/monitoing_report/word_report.rs:144 | each line a line feed ends is the text before that line feed, less one carriage return just before it; a last line exists exactly when text follows the last line feed, and it is that text as it is |
| TextLines.LinesEndedLine | src/monitoing_report/word_report.rs:144 | the k-th line ended by a line feed is the k-th piece with its carriage return stripped |
| TextLines.SplitLastPiece | src/monitoing_report/word_report.rs:144 | the text after the last line feed is empty exactly when the text is empty or ends with a line feed, which is when no final line is produced |
| TextLines.NonBlankTrimmed | src/monitoing_report/word_report.rs:147-161 | there are no more comments than lines, and every comment is non-empty and trimmed |
| TextLines.NonBlankTrimmedSelects | src/monitoing_report/word_report.rs:147-161 | the comments are the trims of the lines at strictly increasing positions, and a position is kept exactly when its line is not blank |
| TextLines.NonBlankTrimmedAppend | src/monitoing_report/word_report.rs:147-161 | the loop treats each line on its own: filtering two runs of lines concatenates their comments |
| TextLines.NonBlankTrimmedByTrims | src/monitoing_report/word_report.rs:147-161 | only the trims of the lines matter to the comments |
| TextLines.NonBlankTrimmedFixes | src/monitoing_report/word_report.rs:147-161 | lines that are already non-blank and trimmed pass through unchanged |
| TextLines.NonBlankTrimmedNoLineFeed | src/monitoing_report/word_report.rs:144-153 | no comment contains a line feed |
| TextLines.LinesAgreeWithSplit | src/monitoing_report/word_report.rs:144-153 | filtering the result of `lines` gives the same comments as filtering a plain split on line feeds |
| TextLines.CommentTextsRerun | src/monitoing_report/word_report.rs:144-153 | joining the comments with line feeds and running the split, trim and filter again gives the same comments |
| Dates.DaysInMonth | src/monitoing_report/word_report.rs:35 | February has 29 days in a leap year and 28 otherwise; April, June, September and November have 30; every other month has 31 |
| Dates.PadDigits | src/monitoing_report/word_report.rs:35 | a zero-padded number has exactly the requested width, all digits |
| Dates.ValueOfPadDigits | src/monitoing_report/word_report.rs:35 | reading back a padded number that fits the width gives the number |
| Dates.FormatDate | src/monitoing_report/word_report.rs:35 | the date is printed as four digits, a dash, two digits, a dash, two digits |
| Dates.ParseDate | src/monitoing_report/word_report.rs:35 | whatever parses is date-shaped and a real calendar date |
| Dates.ParseFormat | src/monitoing_report/word_report.rs:35 | parsing the printed date gives the date back |
| Dates.FormatParse | src/monitoing_report/word_report.rs:35 | every string that parses is the printing of the date it parses to |
| Dates.FormatInjective | src/monitoing_report/word_report.rs:35 | distinct dates print differently, so the date in the sign-off table and the file name identifies the day |
| WordReport.Head | src/monitoing_report/word_report.rs:101-138 | exactly ten elements precede the comments |
| WordReport.CommentParagraphs | src/monitoing_report/word_report.rs:141-221 | one paragraph per comment text |
| WordReport.Build | src/monitoing_report/word_report.rs:35-246 | the body has 36 elements plus one per comment line, and exactly three of them are tables |
| WordReport.BodyTablePositions | src/monitoing_report/word_report.rs:101-246 | the tables sit at positions 2 and 5 and at the last position, and nowhere else |
| WordReport.Generate | src/monitoing_report/word_report.rs:28-29 | the result is an error exactly when the payload is malformed, with the parser's message; otherwise it is the built report |
| WordReport.GenerateWord | src/monitoing_report/word_report.rs:35-246 | building the document element by element, with both loops, produces exactly `Build`'s document and file name |
| WordReport.AppendComments | src/monitoing_report/word_report.rs:141-162 | the comment loop appends one comment paragraph for each line that is non-blank once trimmed, in order |
| WordReport.AppendPadding | src/monitoing_report/word_report.rs:224-228 | the padding loop appends exactly 25 empty paragraphs |
| WordReport.CommentStep | src/monitoing_report/word_report.rs:147-160 | walking one more line appends that line's comment paragraph if its trim is not empty, and nothing otherwise |
| ReportProperties.HeaderCellShape | src/monitoing_report/word_report.rs:52-70 | `HeaderCell` (through `StyledRun`): fill 7DCEA0, width 4320, one left-aligned paragraph of one bold, upright, size-24 Arial run showing exactly the text |
| ReportProperties.DataCellShape | src/monitoing_report/word_report.rs:73-81 | `DataCell`: the same width and run style as a header cell, no fill, showing exactly the text |
| ReportProperties.EmptyLineShape | src/monitoing_report/word_report.rs:114 | `EmptyLine`: a paragraph without alignment holding one run with no text and no formatting |
| ReportProperties.TitleShape | src/monitoing_report/word_report.rs:103-113 | `TitleParagraph`: centred, one bold upright size-24 Arial run reading "Отчет о результатах мониторинга контрагента" |
| ReportProperties.CommentsHeadingShape | src/monitoing_report/word_report.rs:127-137 | `CommentsHeading`: left-aligned, one bold upright size-24 Arial run reading "Комментарии:" |
| ReportProperties.PaddingShape | src/monitoing_report/word_report.rs:224-228 | `Padding`: exactly 25 elements, each an empty line |
| ReportProperties.BodyLaidOut | src/monitoing_report/word_report.rs:101-246 | `Body`: around any comment texts the layout is fixed: title, blank, key/value table, two blanks, signal table, two blanks, heading, blank, the comments, 25 blanks, sign-off table |
| ReportProperties.BodyLayout | src/monitoing_report/word_report.rs:101-246 | every built report has that layout, with 36 + k elements and the three tables at 2, 5 and 35 + k |
| ReportProperties.LabelledRow | src/monitoing_report/word_report.rs:52-81 | a label/value row has a shaded header cell and an unshaded data cell, both 4320 wide, each one left-aligned bold 12 pt Arial run, showing the label and then the value |
| ReportProperties.KeyValueTableShape | src/monitoing_report/word_report.rs:84-115 | `KeyValueTable`: six rows, each a header cell beside a data cell: ИНН, name, scoring (blank), industry, segment, group (blank), with the record's values: ИНН, name, scoring (blank), industry, segment, group (blank), with the record's values |
| ReportProperties.KeyValueTableContents | src/monitoing_report/word_report.rs:84-115 | the third element of every report is that table for its record |
| ReportProperties.SignalTableShape | src/monitoing_report/word_report.rs:118-124 | `SignalTable`: one row, "Выявленный риск-сигнал" beside the signal name |
| ReportProperties.SignalTableContents | src/monitoing_report/word_report.rs:118-124 | the sixth element of every report is that table for its record |
| ReportProperties.SignOffTableShape | src/monitoing_report/word_report.rs:231-246 | `SignOffTable`: a shaded header row "Сотрудник", "Дата составления" over a data row with the author, or "Не указан" when there is none, and the date |
| ReportProperties.SignOffTableContents | src/monitoing_report/word_report.rs:231-246 | every report ends with that table, dated with the report's date |
| ReportProperties.CommentParagraphShape | src/monitoing_report/word_report.rs:149-159 | `CommentParagraph`: right-aligned, holding one italic, non-bold, size-20 Arial run showing exactly the comment |
| ReportProperties.BodyComments | src/monitoing_report/word_report.rs:141-221 | the comment texts appear in order right after the ten leading elements, each as a comment paragraph |
| ReportProperties.CommentSectionContents | src/monitoing_report/word_report.rs:141-221 | in every report the comment lines appear that way, whether they come from the description or are the default prompts |
| ReportProperties.DefaultCommentLines | src/monitoing_report/word_report.rs:164-221 | `CommentLines`: without a description the comments are the five fixed prompts, in their fixed order |
| ReportProperties.DescribedCommentLines | src/monitoing_report/word_report.rs:141-162 | `CommentLines`: with a description the comments are exactly its non-blank trimmed lines, in order; each is non-empty and trimmed; there are no more of them than lines; a plain split gives the same result |
| ReportProperties.FilenameParts | src/monitoing_report/word_report.rs:38-41 | `Filename`: the 32-character caption, the account name verbatim, a space, the date and ".docx" |
| ReportProperties.FilenameContents | src/monitoing_report/word_report.rs:35-41 | the date in the file name is the one the sign-off table shows, and it parses back to the report's date |
| ReportProperties.TwoLinesThenBlank | src/monitoing_report/word_report.rs:144-161 | two trimmed lines followed by a blank line and a final line feed give exactly those two comments |
| ReportProperties.ExampleTwoLineDescription | src/monitoing_report/word_report.rs:144-161 | the description "Line A\nLine B\n\n" gives the comments "Line A" and "Line B" |
| ReportProperties.ExampleDate | src/monitoing_report/word_report.rs:35 | 1 January 2024 is printed "2024-01-01" |
| ReportProperties.ExampleFilename | src/monitoing_report/word_report.rs:38-41 | account "Romashka LLC" on 1 January 2024 gets the caption followed by "Romashka LLC 2024-01-01.docx" |

## Left out

- The Python binding is left out because it is foreign interop:
  - the `#[pyclass]`/`#[pymethods]` plumbing;
  - `data.str()`;
  - building the result dictionary (word_report.rs:10-21, 256-265);
  - `report_generator/src/lib.rs`, which only registers the module.
- `future_into_py`, `spawn_blocking` and the mapping of a failed join into a
  runtime error (word_report.rs:27, 31, 253-254) are left out. They are about
  concurrency, not about the document.
- JSON deserialisation (word_report.rs:28-29) is a library call. It is modelled
  only as its outcome, the `Payload` handed to `Generate`: a typed record or a
  parse message.
- `Utc::now()` (word_report.rs:35) reads the clock. The date is a parameter
  instead.
- Serialising and zipping the document, and the `unwrap` on that step
  (word_report.rs:248), are a foreign writer. The byte output is not modelled;
  the element tree is.
- Font families and the page margin are kept only as values in the tree
  (`Arial`, `PAGE_MARGIN_TOP`). Their rendering is not modelled.
- Dates.Valid: years outside 0..9999 are not modelled. chrono prints those with
  a sign or more than four digits, and a clock reading never produces them
  here.
- `monitoring_results_history`, `date_status` and the history items are part
  of the record but are never read by the builder.
