/**
  The rules each step of `convert_markdown_to_docx` follows, stated about
  the step functions of `DocxConverter`: what a flush emits and re-spaces,
  how a heading and a list are spaced against what came before, what a
  table keeps, and what the end of input writes out.
 */
module DocxConverterRules {
  import opened Wrappers
  import opened Text
  import opened DocModel
  import opened DocxLayout
  import opened DocxConverter
  import DocxConverterProps
  import InlineSpans

  // ---------------------------------------------------------------------
  // flush_buffer
  // ---------------------------------------------------------------------

  /** An empty style name contains nothing: without a paragraph there is no list to close. */
  lemma NoListWithoutParagraph(body: seq<Block>)
    ensures Contains(LastStyle(body), "List") ==> LastPara(body).Some?
  {
    if LastPara(body).None? {
      assert LastStyle(body) == "";
      assert !IsAt("", 0, "List");
    }
  }

  /**
    The buffer is always emptied and nothing but the body changes; a
    paragraph is written exactly when the joined lines are not blank: a
    continuation paragraph when the buffer continued a list item, else a
    body paragraph, showing the joined text without its inline markup.
   */
  lemma FlushRules(c: Conv, lang: string)
    ensures BufferFlushed(c, lang).buffer == []
    ensures BufferFlushed(c, lang).(body := c.body, buffer := c.buffer) == c
    ensures Joined(c.buffer) == [] ==> BufferFlushed(c, lang).body == c.body
    ensures Joined(c.buffer) != [] ==>
      var b := BufferFlushed(c, lang).body;
      |b| == |c.body| + 1 && b[|c.body|].Par?
      && b[|c.body|].p.role == (if c.lastType == ContElem then ContinuationRole else BodyRole)
      && RunsText(Runs(b[|c.body|].p)) == InlineSpans.Clean(Joined(c.buffer))
  {
    var para := Joined(c.buffer);
    if para != [] {
      StripOfTrimmed(para);
      BufferParaText(para, c.lastType == ContElem, c.lastListLevel, lang);
    }
  }

  /** Prose after a list: a last paragraph whose style names a list gets 12pt after once a paragraph is written. */
  lemma FlushClosesList(c: Conv, lang: string)
    requires Joined(c.buffer) != [] && Contains(LastStyle(c.body), "List")
    ensures LastPara(c.body).Some?
    ensures BufferFlushed(c, lang).body[LastPara(c.body).value].p.spaceAfter == Some(12)
  {
    NoListWithoutParagraph(c.body);
  }

  /**
    A continuation paragraph hangs at the indent of the list level it
    continues: 15 + 5·level mm on the start side, the first line 4 mm out,
    with list spacing.
   */
  lemma ContinuationIndent(c: Conv, lang: string)
    requires Joined(c.buffer) != [] && c.lastType == ContElem
    ensures var p := BufferFlushed(c, lang).body[|c.body|].p;
      p.firstLineIndent == Some(-4) && p.spaceBefore == Some(0) && p.spaceAfter == Some(6)
      && (if IsRtl(lang) then p.rightIndent == Some(15 + 5 * c.lastListLevel)
          else p.leftIndent == Some(15 + 5 * c.lastListLevel))
  {
    FlushedAt(c, lang);
  }

  /** A flushed buffer is one paragraph appended after the body, built from the joined lines. */
  lemma FlushedAt(c: Conv, lang: string)
    requires Joined(c.buffer) != []
    ensures |BufferFlushed(c, lang).body| == |c.body| + 1
    ensures BufferFlushed(c, lang).body[|c.body|] == Par(BufferPara(Joined(c.buffer), c.lastType == ContElem, c.lastListLevel, lang))
  {
    SpacingKeepsSkeleton(c.body, 12);
    SnocIndex(SpaceAfterList(c.body), Par(BufferPara(Joined(c.buffer), c.lastType == ContElem, c.lastListLevel, lang)));
  }

  /** Body text is justified with 1.2 lines and 6pt after, or right-aligned with 1.3 lines and 8pt after in a right-to-left language. */
  lemma BodyLayout(c: Conv, lang: string)
    requires Joined(c.buffer) != [] && c.lastType != ContElem
    ensures var p := BufferFlushed(c, lang).body[|c.body|].p;
      p.style == "Normal" && p.spaceBefore == Some(0)
      && (IsRtl(lang) ==> p.align == Some(Right) && p.lineSpacing == Some(130) && p.spaceAfter == Some(8))
      && (!IsRtl(lang) ==> p.align == Some(Justify) && p.lineSpacing == Some(120) && p.spaceAfter == Some(6))
  {
    FlushedAt(c, lang);
  }

  // ---------------------------------------------------------------------
  // Headings
  // ---------------------------------------------------------------------

  /** The first level-1 heading becomes the title paragraph, appended, and the title flag goes up. */
  lemma TitleRule(c: Conv, text: string, lang: string)
    requires !c.titleWritten
    ensures var d := HeadingStepped(c, 1, text, lang);
      d.titleWritten && d.lastWasHeading && d.body == c.body + [Par(TitlePara(text, lang))]
  {
  }

  /**
    Any other heading is appended as a heading of Word level
    `HeadingRank(level)`. Straight after a heading the previous paragraph
    gets 4pt after and the new heading 6pt before; otherwise the heading
    keeps its level's spacing and a "Normal" paragraph before it is
    trimmed to 2pt after.
   */
  lemma HeadingRule(c: Conv, level: nat, text: string, lang: string)
    requires !(level == 1 && !c.titleWritten)
    ensures var d := HeadingStepped(c, level, text, lang);
      var rank := HeadingRank(level);
      d.lastWasHeading && d.titleWritten == c.titleWritten && |d.body| == |c.body| + 1 && d.body[|c.body|].Par?
      && d.body[|c.body|].p.role == HeadingRole(rank) && d.body[|c.body|].p.style == HeadingStyle(rank)
      && d.body[|c.body|].p.content == Verbatim(Strip(text))
      && d.body[|c.body|].p.spaceAfter == Some(HeadingSpacing(rank).1)
  {
    var h := Par(HeadingPara(text, level, lang));
    if c.lastWasHeading {
      var b := SetLastSpaceAfter(c.body, 4) + [h];
      LastParaAppend(SetLastSpaceAfter(c.body, 4), h.p);
    }
  }

  lemma ConsecutiveHeadingRule(c: Conv, level: nat, text: string, lang: string)
    requires !(level == 1 && !c.titleWritten) && c.lastWasHeading && LastPara(c.body).Some?
    ensures var d := HeadingStepped(c, level, text, lang);
      |d.body| == |c.body| + 1 && d.body[|c.body|].Par? && d.body[|c.body|].p.spaceBefore == Some(6)
      && d.body[LastPara(c.body).value].p.spaceAfter == Some(4)
  {
    var h := Par(HeadingPara(text, level, lang));
    var b := SetLastSpaceAfter(c.body, 4) + [h];
    LastParaAppend(SetLastSpaceAfter(c.body, 4), h.p);
  }

  lemma SeparateHeadingRule(c: Conv, level: nat, text: string, lang: string)
    requires !(level == 1 && !c.titleWritten) && !c.lastWasHeading
    ensures var d := HeadingStepped(c, level, text, lang);
      |d.body| == |c.body| + 1 && d.body[|c.body|].Par?
      && d.body[|c.body|].p.spaceBefore == Some(HeadingSpacing(HeadingRank(level)).0)
      && (LastStyle(c.body) == "Normal" ==> d.body[LastPara(c.body).value].p.spaceAfter == Some(2))
  {
  }

  // ---------------------------------------------------------------------
  // Lists
  // ---------------------------------------------------------------------

  /**
    A list line writes its items after everything flushed before it,
    records the list context and its level, and trims a "Normal" paragraph
    before the list to 0pt after.
   */
  lemma ListRule(c: Conv, items: seq<Block>, level: nat, lang: string)
    ensures var c1, d := BufferFlushed(c, lang), ListStepped(c, items, level, lang);
      d.lastType == ListElem && d.lastListLevel == level && d.buffer == []
      && |d.body| == |c1.body| + |items| && d.body[|c1.body|..] == items
      && (LastStyle(c1.body) == "Normal" ==> d.body[LastPara(c1.body).value].p.spaceAfter == Some(0))
      && (LastStyle(c1.body) != "Normal" ==> d.body[..|c1.body|] == c1.body)
  {
    var c1 := BufferFlushed(c, lang);
    var t := TrimLastNormal(c1.body, 0);
    assert (t + items)[|c1.body|..] == items;
    assert (t + items)[..|c1.body|] == t;
  }

  /**
    Every item paragraph of a list line opens its level: list spacing (0pt
    before, 6pt after), the level's indent on the start side and a hanging
    first line.
   */
  lemma ListItemsLayout(s: string, level: nat, lang: string)
    ensures var r := ListItemsOf(s, level, lang);
      r.Some? ==> forall k :: 0 <= k < |r.value| ==>
        var p := r.value[k].p;
        p.spaceBefore == Some(0) && p.spaceAfter == Some(6) && p.firstLineIndent == Some(-4)
        && (if IsRtl(lang) then p.rightIndent == Some(15 + 5 * level) else p.leftIndent == Some(15 + 5 * level))
  {
  }

  /**
    An indented line right after a list item, when it is no list item
    itself, is collected for a continuation paragraph and starts no
    paragraph of its own.
   */
  lemma ContinuationRule(c: Conv, line: string, lang: string)
    requires Continues(c.lastType, line) && ListItemsOf(ListText(line), LineLevel(line), lang).None?
    ensures var d := ListOrBodyStepped(c, line, lang);
      d.lastType == ContElem && d.buffer == c.buffer + [line] && d.body == c.body
  {
  }

  // ---------------------------------------------------------------------
  // Tables
  // ---------------------------------------------------------------------

  /** A collected table has no data exactly when every row after the header is a separator. */
  lemma {:induction false} NoDataRows(rows: seq<string>)
    ensures DataRows(rows) == [] <==> forall k :: 0 <= k < |rows| ==> IsTableSep(rows[k])
    ensures |DataRows(rows)| <= |rows|
    decreases |rows|
  {
    if rows != [] {
      var front := rows[..|rows| - 1];
      NoDataRows(front);
      assert forall k :: 0 <= k < |front| ==> front[k] == rows[k];
    }
  }

  /**
    A pending table: fewer than two rows go back to the buffer as text;
    otherwise a table is written, after everything before it, only when a
    data row is left, with a header of the first row's stripped cells and
    every data row as wide as the header. The rows are emptied either way.
   */
  lemma TableRule(c: Conv, lang: string)
    ensures TableFlushed(c, lang).tableRows == []
    ensures |c.tableRows| < 2 ==> TableFlushed(c, lang).buffer == c.buffer + c.tableRows && TableFlushed(c, lang).body == c.body
    ensures |c.tableRows| >= 2 ==> TableFlushed(c, lang).buffer == c.buffer
    ensures |c.tableRows| >= 2 && DataRows(c.tableRows[1..]) == [] ==> TableFlushed(c, lang).body == c.body
    ensures |c.tableRows| >= 2 && DataRows(c.tableRows[1..]) != [] ==>
      var b := TableFlushed(c, lang).body;
      |b| == |c.body| + 1 && b[..|c.body|] == c.body && b[|c.body|].Tab?
      && b[|c.body|].t == SimpleTable(Cells(c.tableRows[0]), DataRows(c.tableRows[1..]), lang)
      && b[|c.body|].t.header == Cells(c.tableRows[0])
      && |b[|c.body|].t.rows| == |DataRows(c.tableRows[1..])|
      && forall k :: 0 <= k < |b[|c.body|].t.rows| ==> |b[|c.body|].t.rows[k]| == |b[|c.body|].t.header|
  {
    if |c.tableRows| >= 2 && DataRows(c.tableRows[1..]) != [] {
      var cells := Cells(c.tableRows[0]);
      var t := SimpleTable(cells, DataRows(c.tableRows[1..]), lang);
      assert (c.body + [Tab(t)])[..|c.body|] == c.body;
      CellsShape(c.tableRows[0]);
      forall i | 0 <= i < |cells|
        ensures t.header[i] == cells[i]
      {
        StripOfTrimmed(cells[i]);
      }
    }
  }

  // ---------------------------------------------------------------------
  // Code blocks and the end of input
  // ---------------------------------------------------------------------

  /** Every line of a code block becomes one paragraph showing exactly that line. */
  lemma CodeLinesShown(lines: seq<string>, lang: string)
    ensures forall k :: 0 <= k < |lines| ==> RunsText(Runs(CodeParas(lines, lang)[k].p)) == lines[k]
  {
    forall k | 0 <= k < |lines|
      ensures RunsText(Runs(CodeParas(lines, lang)[k].p)) == lines[k]
    {
      CodeParaText(lines[k], lang);
    }
  }

  /**
    A code block still open at the end of input is written out anyway:
    the finished body starts with the body so far followed by one
    paragraph per collected line, up to spacing.
   */
  lemma UnterminatedFence(c: Conv, lang: string)
    requires c.inCode
    ensures Extends(c.body + CodeParas(c.codeLines, lang), Finished(c, lang).body)
  {
    var c1 := CodeFlushed(c, lang);
    var c2 := if c1.tableRows != [] then TableFlushed(c1, lang) else c1;
    ExtendsAppend(c1.body, []);
    assert c1.body + [] == c1.body;
    DocxConverterProps.TableFlushedExtends(c1, lang);
    DocxConverterProps.BufferFlushedExtends(c2, lang);
    ExtendsTrans(c1.body, c2.body, Finished(c, lang).body);
  }

  /** After the final flushes nothing is left pending: no buffered line, no table row, no open code line. */
  lemma NothingPending(c: Conv, lang: string)
    requires !c.inCode ==> c.codeLines == []
    ensures Finished(c, lang).buffer == [] && Finished(c, lang).tableRows == [] && Finished(c, lang).codeLines == []
  {
    var c1 := if c.inCode then CodeFlushed(c, lang) else c;
    var c2 := if c1.tableRows != [] then TableFlushed(c1, lang) else c1;
    assert c1.codeLines == [] && c2.codeLines == [] && c2.tableRows == [];
  }
}
