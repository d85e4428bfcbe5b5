/**
  The line loop of `convert_markdown_to_docx`. Its state is the document
  body plus the flags and lists the loop and its three `flush_*` helpers
  share. `Conv` holds that state as a value and `LineStepped` says what one
  line does to it; the class `Converter` keeps the same state in fields and
  its methods are proved to make exactly those steps.
 */
module DocxConverter {
  import opened Wrappers
  import opened Text
  import opened DocModel
  import opened DocxLayout
  import Classifier

  /** `last_element_type`: 'NORMAL', 'LIST' or 'BULLET_CONT'. */
  datatype ElemType = NormalElem | ListElem | ContElem

  /** The loop's state: the body written so far and every variable the loop and its helpers update. */
  datatype Conv = Conv(body: seq<Block>, titleWritten: bool, lastWasHeading: bool, lastType: ElemType,
                       lastListLevel: nat, buffer: seq<string>, inCode: bool, codeLines: seq<string>,
                       tableRows: seq<string>)

  /** The state before the first line: an empty body, every flag down, every list empty. */
  const Initial: Conv := Conv([], false, false, NormalElem, 0, [], false, [], [])

  // ---------------------------------------------------------------------
  // The three flushes
  // ---------------------------------------------------------------------

  /**
    `flush_buffer`: the buffer is emptied; when its lines joined are not
    blank, a list left open gets its closing space and the joined text
    becomes one paragraph, a continuation when the buffer was one.
   */
  function BufferFlushed(c: Conv, lang: string): Conv {
    var para := Joined(c.buffer);
    if para == [] then c.(buffer := [])
    else
      var p := BufferPara(para, c.lastType == ContElem, c.lastListLevel, lang);
      c.(buffer := [], body := SpaceAfterList(c.body) + [Par(p)])
  }

  /** One body paragraph per collected code line, in order. */
  function CodeParas(lines: seq<string>, lang: string): (ps: seq<Block>)
    ensures |ps| == |lines| && forall k :: 0 <= k < |lines| ==> ps[k] == Par(CodePara(lines[k], lang))
  {
    seq(|lines|, k requires 0 <= k < |lines| => Par(CodePara(lines[k], lang)))
  }

  /** `flush_code_block`: every collected line becomes its own paragraph; the list is emptied. */
  function CodeFlushed(c: Conv, lang: string): Conv {
    c.(body := c.body + CodeParas(c.codeLines, lang), codeLines := [])
  }

  /** The cells of the rows that are not separators, in order. */
  function DataRows(rows: seq<string>): seq<seq<string>> {
    if rows == [] then []
    else DataRows(rows[..|rows| - 1]) + (if IsTableSep(rows[|rows| - 1]) then [] else [Cells(rows[|rows| - 1])])
  }

  /**
    `flush_table`: fewer than two rows are no table and go back to the
    buffer as text; otherwise the first row is the header, separator rows
    are skipped and a table is written only when a data row is left.
   */
  function TableFlushed(c: Conv, lang: string): Conv {
    if |c.tableRows| < 2 then c.(buffer := c.buffer + c.tableRows, tableRows := [])
    else
      var data := DataRows(c.tableRows[1..]);
      var t := SimpleTable(Cells(c.tableRows[0]), data, lang);
      c.(body := if data != [] then c.body + [Tab(t)] else c.body, tableRows := [])
  }

  // ---------------------------------------------------------------------
  // One line
  // ---------------------------------------------------------------------

  /** A fence line closes an open code block, writing it out, or opens one after flushing the prose. */
  function FenceStepped(c: Conv, lang: string): Conv {
    if c.inCode then CodeFlushed(c, lang).(inCode := false)
    else BufferFlushed(c, lang).(inCode := true)
  }

  /** A table row: the prose is flushed before the first row; the row is kept for the table. */
  function RowStepped(c: Conv, line: string, lang: string): Conv {
    var c1 := if c.tableRows == [] then BufferFlushed(c, lang) else c;
    c1.(tableRows := c1.tableRows + [line], lastWasHeading := false)
  }

  /**
    A heading of Markdown level `level` after the flush: the first level-1
    heading is the title; any other heading follows a heading with 4pt
    between them and 6pt before itself, or trims a "Normal" paragraph
    before it to 2pt.
   */
  function HeadingStepped(c: Conv, level: nat, text: string, lang: string): Conv {
    if level == 1 && !c.titleWritten then
      c.(body := c.body + [Par(TitlePara(text, lang))], titleWritten := true, lastWasHeading := true)
    else if c.lastWasHeading then
      var b := SetLastSpaceAfter(c.body, 4) + [Par(HeadingPara(text, level, lang))];
      c.(body := SetLastSpaceBefore(b, 6), lastWasHeading := true)
    else
      c.(body := TrimLastNormal(c.body, 2) + [Par(HeadingPara(text, level, lang))], lastWasHeading := true)
  }

  /** A list line's items after the flush: a "Normal" paragraph before them loses its space after. */
  function ListStepped(c: Conv, items: seq<Block>, level: nat, lang: string): Conv {
    var c1 := BufferFlushed(c, lang);
    c1.(body := TrimLastNormal(c1.body, 0) + items, lastType := ListElem, lastListLevel := level)
  }

  /** A list line's state, given the state after its flush. */
  lemma ListSteppedAfter(c: Conv, c1: Conv, items: seq<Block>, level: nat, lang: string)
    requires c1 == BufferFlushed(c, lang)
    ensures ListStepped(c, items, level, lang) == c1.(body := TrimLastNormal(c1.body, 0) + items, lastType := ListElem, lastListLevel := level)
  {
  }

  /** Whether a line continues a list item: indented by two spaces or a tab right after one. */
  predicate Continues(lastType: ElemType, line: string) {
    (lastType == ListElem || lastType == ContElem) && (StartsWith(line, "  ") || StartsWith(line, "\t"))
  }

  /** A continuation line joins the buffer and marks it as continuing the list item. */
  function ContinuationStepped(c: Conv, line: string): Conv {
    c.(lastType := ContElem, buffer := c.buffer + [line])
  }

  /** A body line, after ending a continuation paragraph that was being collected. */
  function BodyStepped(c: Conv, line: string, lang: string): Conv {
    var c1 := if c.lastType == ContElem then BufferFlushed(c, lang) else c;
    c1.(lastType := NormalElem, buffer := c1.buffer + [line])
  }

  /** A blank line ends the paragraph being collected and any list context. */
  function BlankStepped(c: Conv, lang: string): Conv {
    BufferFlushed(c, lang).(lastType := NormalElem)
  }

  /** A quote line ends the paragraph being collected and becomes a quote paragraph. */
  function QuoteStepped(c: Conv, text: string, lang: string): Conv {
    var c1 := BufferFlushed(c, lang);
    c1.(body := c1.body + [Par(QuotePara(text, lang))])
  }

  /** A rule line ends the paragraph being collected and starts the next one with itself. */
  function RuleStepped(c: Conv, line: string, lang: string): Conv {
    var c1 := BufferFlushed(c, lang);
    c1.(buffer := c1.buffer + [line])
  }

  /**
    The paragraphs a list line becomes, when the line without its indent is
    one: a numbered item, a lettered item, or the items of a bullet line
    split at " - ".
   */
  function ListItemsOf(s: string, level: nat, lang: string): (r: Option<seq<Block>>)
    ensures r.Some? <==> Classifier.MatchNumbered(s).Some? || MatchAlpha(s).Some? || StartsWith(s, "- ")
    ensures r.Some? && (Classifier.MatchNumbered(s).Some? || MatchAlpha(s).Some?) ==> |r.value| == 1
    ensures r.Some? && Trimmed(s) ==> |r.value| >= 1
    ensures r.Some? ==> forall k :: 0 <= k < |r.value| ==> r.value[k].Par? && r.value[k].p.role == ListRole
  {
    var mNum := Classifier.MatchNumbered(s);
    if mNum.Some? then Some([Par(NumberedPara(Strip(mNum.value.text), level, lang))])
    else
      var mAlpha := MatchAlpha(s);
      if mAlpha.Some? then Some([Par(AlphaPara(mAlpha.value.0, Strip(mAlpha.value.1), level, lang))])
      else if StartsWith(s, "- ") then
        BulletContent(s);
        Some(BulletParas(BulletParts(Strip(s[2..])), level, lang))
      else None
  }

  /** The list detection, then the fallbacks: a continuation of the list item, or body text. */
  function ListOrBodyStepped(c: Conv, line: string, lang: string): Conv {
    var level := LineLevel(line);
    var items := ListItemsOf(ListText(line), level, lang);
    if items.Some? then ListStepped(c, items.value, level, lang)
    else if Continues(c.lastType, line) then ContinuationStepped(c, line)
    else BodyStepped(c, line, lang)
  }

  /** A line that is not a heading: blank, quote, rule, or a list or body line. */
  function OtherStepped(c: Conv, line: string, lang: string): Conv {
    if Strip(line) == [] then BlankStepped(c, lang)
    else
      var q := QuoteText(line);
      if q.Some? then QuoteStepped(c, q.value, lang)
      else if IsRule(line) then RuleStepped(c, line, lang)
      else ListOrBodyStepped(c, line, lang)
  }

  /** A line outside code blocks and tables, once a pending table is flushed: a heading or one of the rest. */
  function PlainStepped(c: Conv, line: string, lang: string): Conv {
    var m := Classifier.MatchHeading(line);
    if m.Some? then HeadingStepped(BufferFlushed(c, lang), |m.value.prefix|, m.value.text, lang)
    else OtherStepped(c.(lastWasHeading := false), line, lang)
  }

  /** What one line does: the loop's tests in order, fence, line in a code block, table row, then the rest. */
  function LineStepped(c: Conv, line: string, lang: string): Conv {
    if IsFence(line) then FenceStepped(c, lang)
    else if c.inCode then c.(codeLines := c.codeLines + [line])
    else if IsTableRow(line) then RowStepped(c, line, lang)
    else PlainStepped(if c.tableRows != [] then TableFlushed(c, lang) else c, line, lang)
  }

  /** The final flushes: an open code block, a pending table, then the buffer. */
  function Finished(c: Conv, lang: string): Conv {
    var c1 := if c.inCode then CodeFlushed(c, lang) else c;
    var c2 := if c1.tableRows != [] then TableFlushed(c1, lang) else c1;
    BufferFlushed(c2, lang)
  }

  /** The state after the loop has read `lines`. */
  function StateAfter(lines: seq<string>, lang: string): Conv {
    if lines == [] then Initial
    else LineStepped(StateAfter(lines[..|lines| - 1], lang), lines[|lines| - 1], lang)
  }

  /** The body of the document `convert_markdown_to_docx` writes for `lines`. */
  function Converted(lines: seq<string>, lang: string): seq<Block> {
    Finished(StateAfter(lines, lang), lang).body
  }

  /** The data loop of `flush_table`: separator rows skipped, every other row split into cells. */
  method CollectData(rows: seq<string>) returns (data: seq<seq<string>>)
    ensures data == DataRows(rows)
  {
    data := [];
    for i := 0 to |rows|
      invariant data == DataRows(rows[..i])
    {
      assert rows[..i + 1][..i] == rows[..i];
      if IsTableSep(rows[i]) {
        continue;
      }
      data := data + [Cells(rows[i])];
    }
    assert rows[..|rows|] == rows;
  }

  // ---------------------------------------------------------------------
  // The loop, with its state in fields
  // ---------------------------------------------------------------------

  /** Appends `xs` to `base` one element at a time, as the converter adds its paragraphs. */
  method AppendEach<T>(base: seq<T>, xs: seq<T>) returns (out: seq<T>)
    ensures out == base + xs
  {
    out := base;
    for i := 0 to |xs|
      invariant out == base + xs[..i]
    {
      assert xs[..i + 1] == xs[..i] + [xs[i]];
      out := out + [xs[i]];
    }
    assert xs[..|xs|] == xs;
  }

  class Converter {
    const lang: string
    var body: seq<Block>
    var titleWritten: bool
    var lastWasHeading: bool
    var lastElementType: ElemType
    var lastListLevel: nat
    var buffer: seq<string>
    var inCodeBlock: bool
    var codeBlockLines: seq<string>
    var tableRows: seq<string>

    function State(): Conv
      reads this
    {
      Conv(body, titleWritten, lastWasHeading, lastElementType, lastListLevel, buffer, inCodeBlock,
           codeBlockLines, tableRows)
    }

    constructor(lang: string)
      ensures this.lang == lang && State() == Initial
    {
      this.lang := lang;
      body, titleWritten, lastWasHeading, lastElementType, lastListLevel := [], false, false, NormalElem, 0;
      buffer, inCodeBlock, codeBlockLines, tableRows := [], false, [], [];
    }

    /** `flush_buffer` */
    method FlushBuffer()
      modifies this
      ensures State() == BufferFlushed(old(State()), lang)
    {
      var para := Joined(buffer);
      if para != [] {
        var p := BufferPara(para, lastElementType == ContElem, lastListLevel, lang);
        body := SpaceAfterList(body) + [Par(p)];
      }
      buffer := [];
    }

    /** `flush_code_block`: one paragraph per collected line. */
    method FlushCodeBlock()
      modifies this
      ensures State() == CodeFlushed(old(State()), lang)
    {
      var lines, out := codeBlockLines, body;
      for i := 0 to |lines|
        invariant out == body + CodeParas(lines[..i], lang)
      {
        assert CodeParas(lines[..i + 1], lang) == CodeParas(lines[..i], lang) + [Par(CodePara(lines[i], lang))];
        out := out + [Par(CodePara(lines[i], lang))];
      }
      assert lines[..|lines|] == lines;
      body := out;
      codeBlockLines := [];
    }

    /** `flush_table` */
    method FlushTable()
      modifies this
      ensures State() == TableFlushed(old(State()), lang)
    {
      if |tableRows| < 2 {
        var out := AppendEach(buffer, tableRows);
        buffer, tableRows := out, [];
      } else {
        WriteTable();
      }
    }

    /** The table of two or more pending rows: the header row's cells and every data row's. */
    method WriteTable()
      requires |tableRows| >= 2
      modifies this
      ensures State() == TableFlushed(old(State()), lang)
    {
      var rows := tableRows;
      var headerCells := Cells(rows[0]);
      var data := CollectData(rows[1..]);
      if data != [] {
        body := body + [Tab(SimpleTable(headerCells, data, lang))];
      }
      tableRows := [];
    }

    /** A heading line of level `level` with text `text`. */
    method Heading(level: nat, text: string)
      modifies this
      ensures State() == HeadingStepped(BufferFlushed(old(State()), lang), level, text, lang)
    {
      FlushBuffer();
      if level == 1 && !titleWritten {
        body := body + [Par(TitlePara(text, lang))];
        titleWritten := true;
      } else {
        if lastWasHeading {
          body := SetLastSpaceAfter(body, 4);
        } else {
          body := TrimLastNormal(body, 2);
        }
        body := body + [Par(HeadingPara(text, level, lang))];
        if lastWasHeading {
          body := SetLastSpaceBefore(body, 6);
        }
      }
      lastWasHeading := true;
    }

    /** The items of one list line, after the flush and the trim before a list. */
    method ListItems(items: seq<Block>, level: nat)
      modifies this
      ensures State() == ListStepped(old(State()), items, level, lang)
    {
      ghost var c0 := State();
      FlushBuffer();
      ghost var c1 := State();
      ListSteppedAfter(c0, c1, items, level, lang);
      var out := AppendEach(TrimLastNormal(body, 0), items);
      body := out;
      lastElementType := ListElem;
      lastListLevel := level;
    }

    /** The list detection and the body fallback. */
    method ListOrBody(line: string)
      modifies this
      ensures State() == ListOrBodyStepped(old(State()), line, lang)
    {
      var level := LineLevel(line);
      var items := ListItemsOf(ListText(line), level, lang);
      if items.Some? {
        ListItems(items.value, level);
      } else if Continues(lastElementType, line) {
        lastElementType := ContElem;
        buffer := buffer + [line];
      } else {
        if lastElementType == ContElem {
          FlushBuffer();
        }
        lastElementType := NormalElem;
        buffer := buffer + [line];
      }
    }

    /** Blank lines, quotes, rules, lists and prose. */
    method Other(line: string)
      modifies this
      ensures State() == OtherStepped(old(State()), line, lang)
    {
      if Strip(line) == [] {
        Blank();
        return;
      }
      var bq := QuoteText(line);
      if bq.Some? {
        Quote(bq.value);
      } else if IsRule(line) {
        Rule(line);
      } else {
        ListOrBody(line);
      }
    }

    /** A blank line. */
    method Blank()
      modifies this
      ensures State() == BlankStepped(old(State()), lang)
    {
      FlushBuffer();
      lastElementType := NormalElem;
    }

    /** A quote line with its text. */
    method Quote(text: string)
      modifies this
      ensures State() == QuoteStepped(old(State()), text, lang)
    {
      FlushBuffer();
      body := body + [Par(QuotePara(text, lang))];
    }

    /** A horizontal rule line. */
    method Rule(line: string)
      modifies this
      ensures State() == RuleStepped(old(State()), line, lang)
    {
      FlushBuffer();
      buffer := buffer + [line];
    }

    /** The body of the `for line in md_lines` loop. */
    method ProcessLine(line: string)
      modifies this
      ensures State() == LineStepped(old(State()), line, lang)
    {
      if IsFence(line) {
        Fence();
      } else if inCodeBlock {
        codeBlockLines := codeBlockLines + [line];
      } else if IsTableRow(line) {
        TableRowLine(line);
      } else {
        if tableRows != [] {
          FlushTable();
        }
        Plain(line);
      }
    }

    /** A code fence. */
    method Fence()
      modifies this
      ensures State() == FenceStepped(old(State()), lang)
    {
      if inCodeBlock {
        FlushCodeBlock();
        inCodeBlock := false;
      } else {
        FlushBuffer();
        inCodeBlock := true;
      }
    }

    /** A table row outside a code block. */
    method TableRowLine(line: string)
      modifies this
      ensures State() == RowStepped(old(State()), line, lang)
    {
      if tableRows == [] {
        FlushBuffer();
      }
      tableRows := tableRows + [line];
      lastWasHeading := false;
    }

    /** A line outside code blocks and tables: a heading or one of the rest. */
    method Plain(line: string)
      modifies this
      ensures State() == PlainStepped(old(State()), line, lang)
    {
      var m := Classifier.MatchHeading(line);
      if m.Some? {
        Heading(|m.value.prefix|, m.value.text);
      } else {
        lastWasHeading := false;
        Other(line);
      }
    }

    /** The flushes after the loop. */
    method FinalFlush()
      modifies this
      ensures State() == Finished(old(State()), lang)
    {
      if inCodeBlock {
        FlushCodeBlock();
      }
      if tableRows != [] {
        FlushTable();
      }
      FlushBuffer();
    }
  }

  /** `convert_markdown_to_docx` over the file's lines: the body of the document it saves. */
  method ConvertMarkdownToDocx(lines: seq<string>, lang: string) returns (body: seq<Block>)
    ensures body == Converted(lines, lang)
  {
    var cv := new Converter(lang);
    for i := 0 to |lines|
      invariant cv.lang == lang && cv.State() == StateAfter(lines[..i], lang)
    {
      assert lines[..i + 1][..i] == lines[..i];
      cv.ProcessLine(lines[i]);
    }
    assert lines[..|lines|] == lines;
    cv.FinalFlush();
    body := cv.body;
  }
}
