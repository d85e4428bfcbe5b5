/**
  What the conversion loop of `convert_markdown_to_docx` guarantees, proved
  about the step functions of `DocxConverter`: written paragraphs are never
  lost (later lines only append and re-space the last paragraph), the
  title is written at most once, the consecutive-heading state and the
  heading, list and prose spacing follow the documented rules, and the
  three flushes emit what they promise.
 */
module DocxConverterProps {
  import opened Wrappers
  import opened Text
  import opened DocModel
  import opened DocxLayout
  import opened DocxConverter
  import Classifier
  import InlineSpans

  // ---------------------------------------------------------------------
  // Nothing written is lost
  // ---------------------------------------------------------------------

  lemma BufferFlushedExtends(c: Conv, lang: string)
    ensures Extends(c.body, BufferFlushed(c, lang).body)
  {
    SpacingKeepsSkeleton(c.body, 12);
    var para := Joined(c.buffer);
    if para == [] {
      ExtendsAppend(c.body, []);
      assert c.body + [] == c.body;
    } else {
      ExtendsRespaced(c.body, SpaceAfterList(c.body), [Par(BufferPara(para, c.lastType == ContElem, c.lastListLevel, lang))]);
    }
  }

  lemma TableFlushedExtends(c: Conv, lang: string)
    ensures Extends(c.body, TableFlushed(c, lang).body)
  {
    var r := TableFlushed(c, lang).body;
    if r == c.body {
      ExtendsAppend(c.body, []);
      assert c.body + [] == c.body;
    } else {
      var data := DataRows(c.tableRows[1..]);
      ExtendsAppend(c.body, [Tab(SimpleTable(Cells(c.tableRows[0]), data, lang))]);
    }
  }

  lemma HeadingStepExtends(c: Conv, level: nat, text: string, lang: string)
    ensures Extends(c.body, HeadingStepped(c, level, text, lang).body)
  {
    var h := [Par(HeadingPara(text, level, lang))];
    if level == 1 && !c.titleWritten {
      ExtendsAppend(c.body, [Par(TitlePara(text, lang))]);
    } else if c.lastWasHeading {
      var b := SetLastSpaceAfter(c.body, 4) + h;
      SpacingKeepsSkeleton(c.body, 4);
      ExtendsRespaced(c.body, SetLastSpaceAfter(c.body, 4), h);
      SpacingKeepsSkeleton(b, 6);
      SameSkeletonExtends(b, SetLastSpaceBefore(b, 6));
      ExtendsTrans(c.body, b, SetLastSpaceBefore(b, 6));
    } else {
      SpacingKeepsSkeleton(c.body, 2);
      ExtendsRespaced(c.body, TrimLastNormal(c.body, 2), h);
    }
  }

  lemma ListStepExtends(c: Conv, items: seq<Block>, level: nat, lang: string)
    ensures Extends(c.body, ListStepped(c, items, level, lang).body)
  {
    var c1 := BufferFlushed(c, lang);
    BufferFlushedExtends(c, lang);
    SpacingKeepsSkeleton(c1.body, 0);
    ExtendsRespaced(c1.body, TrimLastNormal(c1.body, 0), items);
    ExtendsTrans(c.body, c1.body, ListStepped(c, items, level, lang).body);
  }

  lemma ListOrBodyExtends(c: Conv, line: string, lang: string)
    ensures Extends(c.body, ListOrBodyStepped(c, line, lang).body)
  {
    var level := LineLevel(line);
    ChoiceExtends(c, line, ListItemsOf(ListText(line), level, lang), level, lang);
  }

  /** The three outcomes of a list-or-body line, for any detected items. */
  lemma ChoiceExtends(c: Conv, line: string, items: Option<seq<Block>>, level: nat, lang: string)
    ensures Extends(c.body, (if items.Some? then ListStepped(c, items.value, level, lang)
                             else if Continues(c.lastType, line) then ContinuationStepped(c, line)
                             else BodyStepped(c, line, lang)).body)
  {
    if items.Some? {
      ListStepExtends(c, items.value, level, lang);
    } else {
      BufferFlushedExtends(c, lang);
      ExtendsAppend(c.body, []);
      assert c.body + [] == c.body;
    }
  }

  lemma OtherExtends(c: Conv, line: string, lang: string)
    ensures Extends(c.body, OtherStepped(c, line, lang).body)
  {
    BufferFlushedExtends(c, lang);
    var c1 := BufferFlushed(c, lang);
    if Strip(line) == [] {
      assert OtherStepped(c, line, lang).body == c1.body;
    } else if QuoteText(line).Some? {
      var t := QuoteText(line).value;
      assert OtherStepped(c, line, lang) == QuoteStepped(c, t, lang);
      ExtendsAppend(c1.body, [Par(QuotePara(t, lang))]);
      ExtendsTrans(c.body, c1.body, c1.body + [Par(QuotePara(t, lang))]);
    } else if IsRule(line) {
      assert OtherStepped(c, line, lang).body == c1.body;
    } else {
      assert OtherStepped(c, line, lang) == ListOrBodyStepped(c, line, lang);
      ListOrBodyExtends(c, line, lang);
    }
  }

  /** One line never removes, reorders or rewrites a block; at most it re-spaces paragraphs. */
  lemma LineStepExtends(c: Conv, line: string, lang: string)
    ensures Extends(c.body, LineStepped(c, line, lang).body)
  {
    ExtendsAppend(c.body, []);
    assert c.body + [] == c.body;
    if IsFence(line) {
      BufferFlushedExtends(c, lang);
      ExtendsAppend(c.body, CodeParas(c.codeLines, lang));
    } else if c.inCode {
    } else if IsTableRow(line) {
      BufferFlushedExtends(c, lang);
    } else {
      var c0 := if c.tableRows != [] then TableFlushed(c, lang) else c;
      TableFlushedExtends(c, lang);
      match Classifier.MatchHeading(line)
      case Some(cap) =>
        BufferFlushedExtends(c0, lang);
        HeadingStepExtends(BufferFlushed(c0, lang), |cap.prefix|, cap.text, lang);
        ExtendsTrans(c0.body, BufferFlushed(c0, lang).body, LineStepped(c, line, lang).body);
        ExtendsTrans(c.body, c0.body, LineStepped(c, line, lang).body);
      case None =>
        OtherExtends(c0.(lastWasHeading := false), line, lang);
        ExtendsTrans(c.body, c0.body, LineStepped(c, line, lang).body);
    }
  }

  /** The final flushes only append and re-space. */
  lemma FinishedExtends(c: Conv, lang: string)
    ensures Extends(c.body, Finished(c, lang).body)
  {
    var c1 := if c.inCode then CodeFlushed(c, lang) else c;
    var c2 := if c1.tableRows != [] then TableFlushed(c1, lang) else c1;
    ExtendsAppend(c.body, CodeParas(c.codeLines, lang));
    ExtendsAppend(c.body, []);
    assert c.body + [] == c.body;
    ExtendsAppend(c1.body, []);
    assert c1.body + [] == c1.body;
    TableFlushedExtends(c1, lang);
    BufferFlushedExtends(c2, lang);
    ExtendsTrans(c.body, c1.body, c2.body);
    ExtendsTrans(c.body, c2.body, Finished(c, lang).body);
  }

  /** The state after one more line is that line's step. */
  lemma StateAfterSnoc(lines: seq<string>, line: string, lang: string)
    ensures StateAfter(lines + [line], lang) == LineStepped(StateAfter(lines, lang), line, lang)
  {
    assert (lines + [line])[..|lines|] == lines;
  }

  /** One more line keeps every block already written, up to spacing. */
  lemma OneMoreLineExtends(lines: seq<string>, line: string, lang: string)
    ensures Extends(StateAfter(lines, lang).body, StateAfter(lines + [line], lang).body)
  {
    StateAfterSnoc(lines, line, lang);
    LineStepExtends(StateAfter(lines, lang), line, lang);
  }

  /** Reading more lines keeps every block already written, in place, up to spacing. */
  lemma {:induction false} MoreLinesExtend(lines: seq<string>, more: seq<string>, lang: string)
    ensures Extends(StateAfter(lines, lang).body, StateAfter(lines + more, lang).body)
    decreases |more|
  {
    if more == [] {
      assert lines + more == lines;
      ExtendsAppend(StateAfter(lines, lang).body, []);
      assert StateAfter(lines, lang).body + [] == StateAfter(lines, lang).body;
    } else {
      var front, x := more[..|more| - 1], more[|more| - 1];
      assert lines + more == (lines + front) + [x];
      MoreLinesExtend(lines, front, lang);
      OneMoreLineExtends(lines + front, x, lang);
      ExtendsTrans(StateAfter(lines, lang).body, StateAfter(lines + front, lang).body, StateAfter(lines + more, lang).body);
    }
  }

  /**
    Every block written after the first lines is in the finished document
    at the same place and with the same content; only its spacing can
    have changed since.
   */
  lemma WrittenIsKept(lines: seq<string>, more: seq<string>, lang: string)
    ensures Extends(StateAfter(lines, lang).body, Converted(lines + more, lang))
  {
    MoreLinesExtend(lines, more, lang);
    FinishedExtends(StateAfter(lines + more, lang), lang);
    ExtendsTrans(StateAfter(lines, lang).body, StateAfter(lines + more, lang).body, Converted(lines + more, lang));
  }

  // ---------------------------------------------------------------------
  // The loop's invariant: one title at most, a paragraph to re-space
  // ---------------------------------------------------------------------

  /**
    What holds between lines: the body holds a title exactly when the flag
    says one was written; after a heading there is a last paragraph for
    `doc.paragraphs[-1]` to name; outside a code block no code line waits;
    the list level is at most 2.
   */
  predicate Sound(c: Conv) {
    && TitleCount(c.body) == (if c.titleWritten then 1 else 0)
    && (c.lastWasHeading ==> LastPara(c.body).Some?)
    && (!c.inCode ==> c.codeLines == [])
    && c.lastListLevel <= 2
  }

  /** Appending blocks none of which is a title keeps the title count and a last paragraph. */
  lemma AppendPlain(body: seq<Block>, xs: seq<Block>)
    requires forall k :: 0 <= k < |xs| && xs[k].Par? ==> !xs[k].p.role.TitleRole?
    ensures TitleCount(body + xs) == TitleCount(body)
    ensures LastPara(body).Some? ==> LastPara(body + xs).Some?
  {
    TitleCountConcat(body, xs);
    NoTitles(xs);
    if LastPara(body).Some? {
      LastParaGrows(body, xs);
    }
  }

  lemma BufferFlushedSound(c: Conv, lang: string)
    requires Sound(c)
    ensures Sound(BufferFlushed(c, lang))
  {
    var para := Joined(c.buffer);
    if para != [] {
      FlushedParaSound(c, BufferPara(para, c.lastType == ContElem, c.lastListLevel, lang));
    }
  }

  /** Appending any paragraph but a title after the list spacing fix keeps the state sound. */
  lemma FlushedParaSound(c: Conv, p: Para)
    requires Sound(c) && !p.role.TitleRole?
    ensures Sound(c.(buffer := [], body := SpaceAfterList(c.body) + [Par(p)]))
  {
    SpacingKeepsTitles(c.body, 12);
    if LastPara(c.body).Some? {
      SpacingKeepsLastPara(c.body, 12);
    }
    AppendPlain(SpaceAfterList(c.body), [Par(p)]);
  }

  lemma CodeFlushedSound(c: Conv, lang: string)
    requires Sound(c)
    ensures Sound(CodeFlushed(c, lang))
  {
    AppendPlain(c.body, CodeParas(c.codeLines, lang));
  }

  lemma TableFlushedSound(c: Conv, lang: string)
    requires Sound(c)
    ensures Sound(TableFlushed(c, lang))
  {
    if |c.tableRows| >= 2 {
      var data := DataRows(c.tableRows[1..]);
      TableBlockSound(c, data != [], SimpleTable(Cells(c.tableRows[0]), data, lang));
    }
  }

  /** Writing a table, or not, and emptying the rows keeps the state sound. */
  lemma TableBlockSound(c: Conv, write: bool, t: Table)
    requires Sound(c)
    ensures Sound(c.(body := if write then c.body + [Tab(t)] else c.body, tableRows := []))
  {
    AppendPlain(c.body, [Tab(t)]);
  }

  lemma HeadingStepSound(c: Conv, level: nat, text: string, lang: string)
    requires Sound(c)
    ensures Sound(HeadingStepped(c, level, text, lang))
  {
    if level == 1 && !c.titleWritten {
      TitleStepSound(c, TitlePara(text, lang));
    } else if c.lastWasHeading {
      StackedHeadingSound(c, HeadingPara(text, level, lang));
    } else {
      FirstHeadingSound(c, HeadingPara(text, level, lang));
    }
  }

  /** The first level-one heading becomes the title. */
  lemma TitleStepSound(c: Conv, tp: Para)
    requires Sound(c) && !c.titleWritten && tp.role == TitleRole
    ensures Sound(c.(body := c.body + [Par(tp)], titleWritten := true, lastWasHeading := true))
  {
    var t := [Par(tp)];
    TitleCountConcat(c.body, t);
    assert t[1..] == [];
    LastParaAppend(c.body, tp);
  }

  /** A heading right after a heading: both spacings are set around it. */
  lemma StackedHeadingSound(c: Conv, hp: Para)
    requires Sound(c) && c.lastWasHeading && !hp.role.TitleRole?
    ensures Sound(c.(body := SetLastSpaceBefore(SetLastSpaceAfter(c.body, 4) + [Par(hp)], 6), lastWasHeading := true))
  {
    var h := [Par(hp)];
    var b := SetLastSpaceAfter(c.body, 4) + h;
    SpacingKeepsTitles(c.body, 4);
    AppendPlain(SetLastSpaceAfter(c.body, 4), h);
    LastParaAppend(SetLastSpaceAfter(c.body, 4), hp);
    SpacingKeepsTitles(b, 6);
    SpacingKeepsLastPara(b, 6);
  }

  /** Any other heading: the "Normal" paragraph before it loses its space after. */
  lemma FirstHeadingSound(c: Conv, hp: Para)
    requires Sound(c) && !hp.role.TitleRole?
    ensures Sound(c.(body := TrimLastNormal(c.body, 2) + [Par(hp)], lastWasHeading := true))
  {
    var h := [Par(hp)];
    SpacingKeepsTitles(c.body, 2);
    AppendPlain(TrimLastNormal(c.body, 2), h);
    LastParaAppend(TrimLastNormal(c.body, 2), hp);
  }

  lemma ListStepSound(c: Conv, items: seq<Block>, level: nat, lang: string)
    requires Sound(c) && level <= 2
    requires forall k :: 0 <= k < |items| && items[k].Par? ==> !items[k].p.role.TitleRole?
    ensures Sound(ListStepped(c, items, level, lang))
  {
    BufferFlushedSound(c, lang);
    var c1 := BufferFlushed(c, lang);
    SpacingKeepsTitles(c1.body, 0);
    if LastPara(c1.body).Some? {
      SpacingKeepsLastPara(c1.body, 0);
    }
    AppendPlain(TrimLastNormal(c1.body, 0), items);
  }

  lemma BodyStepSound(c: Conv, line: string, lang: string)
    requires Sound(c)
    ensures Sound(BodyStepped(c, line, lang))
  {
    BufferFlushedSound(c, lang);
  }

  lemma ListOrBodySound(c: Conv, line: string, lang: string)
    requires Sound(c)
    ensures Sound(ListOrBodyStepped(c, line, lang))
  {
    var level := LineLevel(line);
    var items := ListItemsOf(ListText(line), level, lang);
    if items.Some? {
      ListStepSound(c, items.value, level, lang);
    } else if !Continues(c.lastType, line) {
      BodyStepSound(c, line, lang);
    }
  }

  lemma OtherSound(c: Conv, line: string, lang: string)
    requires Sound(c)
    ensures Sound(OtherStepped(c, line, lang))
  {
    BufferFlushedSound(c, lang);
    var c1 := BufferFlushed(c, lang);
    if Strip(line) == [] {
    } else if QuoteText(line).Some? {
      var t := QuoteText(line).value;
      assert OtherStepped(c, line, lang) == QuoteStepped(c, t, lang);
      AppendPlain(c1.body, [Par(QuotePara(t, lang))]);
    } else if IsRule(line) {
    } else {
      assert OtherStepped(c, line, lang) == ListOrBodyStepped(c, line, lang);
      ListOrBodySound(c, line, lang);
    }
  }

  /** Every line keeps the invariant. */
  lemma LineStepSound(c: Conv, line: string, lang: string)
    requires Sound(c)
    ensures Sound(LineStepped(c, line, lang))
  {
    if IsFence(line) {
      if c.inCode {
        CodeFlushedSound(c, lang);
      } else {
        BufferFlushedSound(c, lang);
      }
    } else if c.inCode {
    } else if IsTableRow(line) {
      if c.tableRows == [] {
        BufferFlushedSound(c, lang);
      }
    } else {
      var c0 := if c.tableRows != [] then TableFlushed(c, lang) else c;
      TableFlushedSound(c, lang);
      match Classifier.MatchHeading(line)
      case Some(cap) =>
        BufferFlushedSound(c0, lang);
        HeadingStepSound(BufferFlushed(c0, lang), |cap.prefix|, cap.text, lang);
      case None =>
        OtherSound(c0.(lastWasHeading := false), line, lang);
    }
  }

  /** The invariant holds after any number of lines. */
  lemma {:induction false} SoundAfter(lines: seq<string>, lang: string)
    ensures Sound(StateAfter(lines, lang))
    decreases |lines|
  {
    if lines != [] {
      var front, x := lines[..|lines| - 1], lines[|lines| - 1];
      assert lines == front + [x];
      SoundAfter(front, lang);
      StateAfterSnoc(front, x, lang);
      LineStepSound(StateAfter(front, lang), x, lang);
    }
  }

  lemma FinishedKeepsTitleFlag(c: Conv, lang: string)
    ensures Finished(c, lang).titleWritten == c.titleWritten
  {
    var c1 := if c.inCode then CodeFlushed(c, lang) else c;
    var c2 := if c1.tableRows != [] then TableFlushed(c1, lang) else c1;
    TableFlushedKeepsTitleFlag(c1, lang);
    BufferFlushedKeepsTitleFlag(c2, lang);
  }

  lemma TableFlushedKeepsTitleFlag(c: Conv, lang: string)
    ensures TableFlushed(c, lang).titleWritten == c.titleWritten
  {
  }

  lemma BufferFlushedKeepsTitleFlag(c: Conv, lang: string)
    ensures BufferFlushed(c, lang).titleWritten == c.titleWritten
  {
  }

  /** The final flushes keep the invariant. */
  lemma FinishedSound(c: Conv, lang: string)
    requires Sound(c)
    ensures Sound(Finished(c, lang)) && Finished(c, lang).titleWritten == c.titleWritten
  {
    FinishedKeepsTitleFlag(c, lang);
    var c1 := if c.inCode then CodeFlushed(c, lang) else c;
    CodeFlushedSound(c, lang);
    var c2 := if c1.tableRows != [] then TableFlushed(c1, lang) else c1;
    TableFlushedSound(c1, lang);
    BufferFlushedSound(c2, lang);
  }

  /**
    The finished document holds at most one title, and one exactly when a
    level-1 heading was met: only the first such heading becomes the title.
   */
  lemma TitleAtMostOnce(lines: seq<string>, lang: string)
    ensures TitleCount(Converted(lines, lang)) == (if StateAfter(lines, lang).titleWritten then 1 else 0)
    ensures TitleCount(Converted(lines, lang)) <= 1
  {
    SoundAfter(lines, lang);
    FinishedSound(StateAfter(lines, lang), lang);
  }

  // ---------------------------------------------------------------------
  // The consecutive-heading state
  // ---------------------------------------------------------------------

  lemma ListOrBodyKeepsHeadingFlag(c: Conv, line: string, lang: string)
    ensures ListOrBodyStepped(c, line, lang).lastWasHeading == c.lastWasHeading
  {
    var level := LineLevel(line);
    ChoiceKeepsHeadingFlag(c, line, ListItemsOf(ListText(line), level, lang), level, lang);
  }

  /** The three outcomes of a list-or-body line, for any detected items. */
  lemma ChoiceKeepsHeadingFlag(c: Conv, line: string, items: Option<seq<Block>>, level: nat, lang: string)
    ensures (if items.Some? then ListStepped(c, items.value, level, lang)
             else if Continues(c.lastType, line) then ContinuationStepped(c, line)
             else BodyStepped(c, line, lang)).lastWasHeading == c.lastWasHeading
  {
  }

  lemma PlainHeadingFlag(c: Conv, line: string, lang: string)
    ensures PlainStepped(c, line, lang).lastWasHeading <==> Classifier.MatchHeading(line).Some?
  {
    if Classifier.MatchHeading(line).None? {
      OtherKeepsHeadingFlag(c.(lastWasHeading := false), line, lang);
    }
  }

  lemma OtherKeepsHeadingFlag(c: Conv, line: string, lang: string)
    ensures OtherStepped(c, line, lang).lastWasHeading == c.lastWasHeading
  {
    if Strip(line) != [] && QuoteText(line).None? && !IsRule(line) {
      assert OtherStepped(c, line, lang) == ListOrBodyStepped(c, line, lang);
      ListOrBodyKeepsHeadingFlag(c, line, lang);
    }
  }

  /**
    After a line outside a code block the state says "after a heading"
    exactly when the line was a heading; every other line, a blank one
    included, resets it. Fence lines and code lines leave it as it was.
   */
  lemma HeadingState(c: Conv, line: string, lang: string)
    ensures IsFence(line) || c.inCode ==> LineStepped(c, line, lang).lastWasHeading == c.lastWasHeading
    ensures !IsFence(line) && !c.inCode ==>
      (LineStepped(c, line, lang).lastWasHeading <==> !IsTableRow(line) && Classifier.MatchHeading(line).Some?)
  {
    if !IsFence(line) && !c.inCode && !IsTableRow(line) {
      PlainHeadingFlag(if c.tableRows != [] then TableFlushed(c, lang) else c, line, lang);
    }
  }
}
