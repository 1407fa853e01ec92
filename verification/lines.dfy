/**
 * Rust's `str::lines` and the comment filter the report builder applies to a
 * description: every line trimmed, blank ones dropped, order kept.
 */
module TextLines {
  import opened Text

  /** Drops one trailing carriage return, as `lines` does before a line feed. */
  function StripCarriageReturn(line: string): (r: string)
    ensures line == r || line == r + "\r"
    ensures |line| > 0 && line[|line| - 1] == '\r' ==> line == r + "\r"
    ensures Trim(r) == Trim(line)
  {
    if |line| > 0 && line[|line| - 1] == '\r' then
      assert line == line[..|line| - 1] + ['\r'];
      TrimIgnoresTrailingWhitespace(line[..|line| - 1], ['\r']);
      line[..|line| - 1]
    else line
  }

  /**
   * Rust's `str::lines`: the text between line feeds, each line that a line feed
   * ends losing one carriage return in front of it, and no empty last line after
   * a final line feed (so the empty string has no lines at all).
   */
  function Lines(s: string): (r: seq<string>)
    ensures forall k :: 0 <= k < |r| ==> '\n' !in r[k]
    ensures |r| == Count(s, '\n') + (if |s| == 0 || s[|s| - 1] == '\n' then 0 else 1)
  {
    var pieces := Split(s, '\n');
    var n := |pieces| - 1;
    var ended := StripEach(pieces[..n]);
    SplitLength(s, '\n');
    SplitLastPiece(s, '\n');
    assert forall k :: 0 <= k < n ==> ended[k] <= pieces[k];
    if pieces[n] == "" then ended else ended + [pieces[n]]
  }

  /**
   * What each line holds: the text between two line feeds, less one carriage return
   * just before the line feed that ends it; the last line, when there is one, is the
   * text after the last line feed, kept as it is.
   */
  lemma LinesArePieces(s: string)
    ensures var pieces := Split(s, '\n');
            var r := Lines(s);
            && (forall k :: 0 <= k < |pieces| - 1 ==>
                  && (pieces[k] == r[k] || pieces[k] == r[k] + "\r")
                  && (|pieces[k]| > 0 && pieces[k][|pieces[k]| - 1] == '\r' ==> pieces[k] == r[k] + "\r"))
            && (|r| == |pieces| <==> pieces[|pieces| - 1] != "")
            && (|r| == |pieces| ==> r[|r| - 1] == pieces[|pieces| - 1])
  {
    var pieces := Split(s, '\n');
    forall k | 0 <= k < |pieces| - 1
      ensures Lines(s)[k] == StripCarriageReturn(pieces[k])
    {
      LinesEndedLine(s, k);
    }
    LinesLastLine(s);
  }

  lemma LinesEndedLine(s: string, k: nat)
    requires k < |Split(s, '\n')| - 1
    ensures k < |Lines(s)| && Lines(s)[k] == StripCarriageReturn(Split(s, '\n')[k])
  {
    var pieces := Split(s, '\n');
    var n := |pieces| - 1;
    var ended := StripEach(pieces[..n]);
    assert Lines(s)[..n] == ended;
    assert ended[k] == StripCarriageReturn(pieces[..n][k]);
  }

  lemma LinesLastLine(s: string)
    ensures var pieces := Split(s, '\n');
            var r := Lines(s);
            && (|r| == |pieces| <==> pieces[|pieces| - 1] != "")
            && (|r| == |pieces| ==> r[|r| - 1] == pieces[|pieces| - 1])
  {
  }

  /** The lines a line feed ends, each without its carriage return. */
  function StripEach(lines: seq<string>): (r: seq<string>)
    ensures |r| == |lines|
    ensures forall k :: 0 <= k < |r| ==> r[k] <= lines[k] && Trim(r[k]) == Trim(lines[k])
  {
    seq(|lines|, k requires 0 <= k < |lines| => StripCarriageReturn(lines[k]))
  }

  lemma LastSplit<T>(xs: seq<T>)
    requires |xs| > 0
    ensures xs[..|xs| - 1] + [xs[|xs| - 1]] == xs
  {
  }

  /** The last piece of a split is empty exactly when the text is empty or ends with the separator. */
  lemma SplitLastPiece(s: string, sep: char)
    ensures var r := Split(s, sep); r[|r| - 1] == "" <==> |s| == 0 || s[|s| - 1] == sep
  {
    var r := Split(s, sep);
    var last := r[|r| - 1];
    if |r| == 1 {
      assert s == last;
    } else {
      JoinSnoc(r[..|r| - 1], last, sep);
      assert r[..|r| - 1] + [last] == r;
      assert s == Join(r[..|r| - 1], sep) + [sep] + last;
      if last != "" {
        assert s[|s| - 1] == last[|last| - 1];
      }
    }
  }

  lemma {:induction false} JoinSnoc(xs: seq<string>, y: string, sep: char)
    requires |xs| >= 1
    ensures Join(xs + [y], sep) == Join(xs, sep) + [sep] + y
    decreases |xs|
  {
    if |xs| > 1 {
      assert (xs + [y])[1..] == xs[1..] + [y];
      JoinSnoc(xs[1..], y, sep);
    }
  }

  /**
   * The body of the comment loop: each line trimmed, the blank ones left out,
   * the others kept in their original order.
   */
  function NonBlankTrimmed(lines: seq<string>): (r: seq<string>)
    ensures |r| <= |lines|
    ensures forall k :: 0 <= k < |r| ==> r[k] != [] && Trimmed(r[k])
    decreases |lines|
  {
    if |lines| == 0 then []
    else
      NonBlankTrimmed(lines[..|lines| - 1]) + KeepNonBlank(Trim(lines[|lines| - 1]))
  }

  /** A trimmed line as the comments it contributes: none when it is blank. */
  function KeepNonBlank(t: string): seq<string> {
    if t == [] then [] else [t]
  }

  /** The comment paragraphs' texts for a description: its lines, trimmed, blanks dropped. */
  function CommentTexts(description: string): seq<string> {
    NonBlankTrimmed(Lines(description))
  }

  /**
   * `r` is the trims of `lines` at the strictly increasing positions `idx`, and a
   * position is among `idx` exactly when its line is not blank.
   */
  predicate Selects(lines: seq<string>, r: seq<string>, idx: seq<nat>) {
    && |idx| == |r|
    && (forall k :: 0 <= k < |idx| ==> idx[k] < |lines| && r[k] == Trim(lines[idx[k]]))
    && (forall k, l :: 0 <= k < l < |idx| ==> idx[k] < idx[l])
    && (forall j :: 0 <= j < |lines| ==> (Trim(lines[j]) != [] <==> j in idx))
  }

  /** The comment texts are exactly the non-blank trimmed lines, in their original order. */
  lemma {:induction false} NonBlankTrimmedSelects(lines: seq<string>) returns (idx: seq<nat>)
    ensures Selects(lines, NonBlankTrimmed(lines), idx)
    decreases |lines|
  {
    if |lines| == 0 {
      idx := [];
    } else {
      var n := |lines| - 1;
      var prev := NonBlankTrimmedSelects(lines[..n]);
      var t := Trim(lines[n]);
      assert NonBlankTrimmed(lines) == NonBlankTrimmed(lines[..n]) + KeepNonBlank(t);
      if t == [] {
        SelectsSkip(lines, NonBlankTrimmed(lines[..n]), prev);
        idx := prev;
      } else {
        SelectsKeep(lines, NonBlankTrimmed(lines[..n]), prev);
        idx := prev + [n];
      }
    }
  }

  lemma SelectsSkip(lines: seq<string>, r: seq<string>, idx: seq<nat>)
    requires |lines| > 0 && Trim(lines[|lines| - 1]) == []
    requires Selects(lines[..|lines| - 1], r, idx)
    ensures Selects(lines, r, idx)
  {
    var n := |lines| - 1;
    assert forall j :: 0 <= j < n ==> lines[..n][j] == lines[j];
  }

  lemma SelectsKeep(lines: seq<string>, r: seq<string>, idx: seq<nat>)
    requires |lines| > 0 && Trim(lines[|lines| - 1]) != []
    requires Selects(lines[..|lines| - 1], r, idx)
    ensures Selects(lines, r + [Trim(lines[|lines| - 1])], idx + [|lines| - 1])
  {
    var n := |lines| - 1;
    assert forall j :: 0 <= j < n ==> lines[..n][j] == lines[j];
    var idx' := idx + [n];
    assert forall k :: 0 <= k < |idx| ==> idx'[k] == idx[k] < n;
  }

  lemma {:induction false} NonBlankTrimmedAppend(a: seq<string>, b: seq<string>)
    ensures NonBlankTrimmed(a + b) == NonBlankTrimmed(a) + NonBlankTrimmed(b)
    decreases |b|
  {
    if |b| == 0 {
      assert a + b == a;
    } else {
      var n := |b| - 1;
      assert (a + b)[..|a + b| - 1] == a + b[..n];
      assert (a + b)[|a + b| - 1] == b[n];
      NonBlankTrimmedAppend(a, b[..n]);
    }
  }

  lemma NonBlankTrimmedSingle(line: string)
    ensures NonBlankTrimmed([line]) == KeepNonBlank(Trim(line))
  {
    assert [line][..0] == [];
  }

  /** Lines that trim alike give the same comment texts. */
  lemma {:induction false} NonBlankTrimmedByTrims(xs: seq<string>, ys: seq<string>)
    requires |xs| == |ys|
    requires forall k :: 0 <= k < |xs| ==> Trim(xs[k]) == Trim(ys[k])
    ensures NonBlankTrimmed(xs) == NonBlankTrimmed(ys)
    decreases |xs|
  {
    if |xs| > 0 {
      var n := |xs| - 1;
      assert forall k :: 0 <= k < n ==> xs[..n][k] == xs[k] && ys[..n][k] == ys[k];
      NonBlankTrimmedByTrims(xs[..n], ys[..n]);
      assert NonBlankTrimmed(xs) == NonBlankTrimmed(xs[..n]) + KeepNonBlank(Trim(xs[n]));
      assert NonBlankTrimmed(ys) == NonBlankTrimmed(ys[..n]) + KeepNonBlank(Trim(ys[n]));
    }
  }

  /** Comment texts that are already non-blank and trimmed are kept as they are. */
  lemma {:induction false} NonBlankTrimmedFixes(xs: seq<string>)
    requires forall k :: 0 <= k < |xs| ==> xs[k] != [] && Trimmed(xs[k])
    ensures NonBlankTrimmed(xs) == xs
    decreases |xs|
  {
    if |xs| > 0 {
      var n := |xs| - 1;
      var init := xs[..n];
      assert forall k :: 0 <= k < n ==> init[k] == xs[k];
      NonBlankTrimmedFixes(init);
      TrimOfTrimmed(xs[n]);
      assert KeepNonBlank(Trim(xs[n])) == [xs[n]];
      assert NonBlankTrimmed(xs) == NonBlankTrimmed(init) + KeepNonBlank(Trim(xs[n]));
      LastSplit(xs);
    }
  }

  /** Lines free of line feeds give comment texts free of line feeds. */
  lemma {:induction false} NonBlankTrimmedNoLineFeed(lines: seq<string>)
    requires forall k :: 0 <= k < |lines| ==> '\n' !in lines[k]
    ensures forall k :: 0 <= k < |NonBlankTrimmed(lines)| ==> '\n' !in NonBlankTrimmed(lines)[k]
  {
    var r := NonBlankTrimmed(lines);
    var idx := NonBlankTrimmedSelects(lines);
    assert Selects(lines, r, idx);
    forall k | 0 <= k < |r| ensures '\n' !in r[k] {
      if '\n' in r[k] {
        TrimInfix(lines[idx[k]], '\n');
      }
    }
  }

  /**
   * Filtering Rust's `lines` gives the same comments as filtering a plain split on
   * line feeds: trimming removes the carriage returns, and the empty last piece is blank.
   */
  lemma LinesAgreeWithSplit(s: string)
    ensures CommentTexts(s) == NonBlankTrimmed(Split(s, '\n'))
  {
    var pieces := Split(s, '\n');
    var n := |pieces| - 1;
    var ended := StripEach(pieces[..n]);
    var last := pieces[n];
    SplitLastPiece(s, '\n');
    NonBlankTrimmedByTrims(ended, pieces[..n]);
    LastSplit(pieces);
    NonBlankTrimmedAppend(pieces[..n], [last]);
    NonBlankTrimmedSingle(last);
    if last == "" {
      assert Lines(s) == ended;
      TrimOfTrimmed("");
    } else {
      assert Lines(s) == ended + [last];
      NonBlankTrimmedAppend(ended, [last]);
    }
  }

  /**
   * Filtering the comment texts once more, after joining them with line feeds,
   * changes nothing: the filter is idempotent.
   */
  lemma CommentTextsRerun(d: string)
    ensures CommentTexts(Join(CommentTexts(d), '\n')) == CommentTexts(d)
  {
    var r := CommentTexts(d);
    NonBlankTrimmedNoLineFeed(Lines(d));
    var joined := Join(r, '\n');
    LinesAgreeWithSplit(joined);
    if |r| == 0 {
      assert joined == "";
    } else {
      SplitJoin(r, '\n');
      NonBlankTrimmedFixes(r);
    }
  }
}
