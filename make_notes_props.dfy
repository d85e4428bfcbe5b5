/**
  What the loop of `md_to_docx` guarantees, proved about the step
  functions of `MakeNotes`: written paragraphs are never lost, the title is
  written at most once, headings are spaced without the consecutive-heading
  fix, and only headings, blank lines and list lines are read as anything
  but prose.
 */
module MakeNotesProps {
  import opened Wrappers
  import opened Text
  import opened DocModel
  import opened DocxLayout
  import opened MakeNotes
  import Classifier
  import DocxConverterRules

  // ---------------------------------------------------------------------
  // Nothing written is lost
  // ---------------------------------------------------------------------

  lemma NotesFlushedExtends(n: Notes, lang: string)
    ensures Extends(n.body, NotesFlushed(n, lang).body)
  {
    SpacingKeepsSkeleton(n.body, 12);
    var para := Joined(n.buffer);
    if para == [] {
      ExtendsAppend(n.body, []);
      assert n.body + [] == n.body;
    } else {
      ExtendsRespaced(n.body, SpaceAfterList(n.body), [Par(NotesBody(para, lang))]);
    }
  }

  lemma NotesHeadingExtends(n: Notes, level: nat, text: string, lang: string)
    ensures Extends(n.body, NotesHeadingStepped(n, level, text, lang).body)
  {
    if level == 1 && !n.titleWritten {
      ExtendsAppend(n.body, [Par(NotesTitle(text, lang))]);
    } else {
      SpacingKeepsSkeleton(n.body, 2);
      ExtendsRespaced(n.body, TrimLastNormal(n.body, 2), [Par(NotesHeading(text, level, lang))]);
    }
  }

  lemma NotesListExtends(n: Notes, items: seq<Block>, lang: string)
    ensures Extends(n.body, NotesListStepped(n, items, lang).body)
  {
    var n1 := NotesFlushed(n, lang);
    NotesFlushedExtends(n, lang);
    SpacingKeepsSkeleton(n1.body, 0);
    ExtendsRespaced(n1.body, TrimLastNormal(n1.body, 0), items);
    ExtendsTrans(n.body, n1.body, NotesListStepped(n, items, lang).body);
  }

  /** One line never removes, reorders or rewrites a block; at most it re-spaces the last paragraph. */
  lemma NotesStepExtends(n: Notes, line: string, lang: string)
    ensures Extends(n.body, NotesStepped(n, line, lang).body)
  {
    NotesFlushedExtends(n, lang);
    var m := Classifier.MatchHeading(line);
    if m.Some? {
      NotesHeadingExtends(NotesFlushed(n, lang), |m.value.prefix|, m.value.text, lang);
      ExtendsTrans(n.body, NotesFlushed(n, lang).body, NotesStepped(n, line, lang).body);
    } else if Strip(line) != [] {
      var items := NotesItemsOf(ListText(line), LineLevel(line), lang);
      if items.Some? {
        NotesListExtends(n, items.value, lang);
      } else {
        ExtendsAppend(n.body, []);
        assert n.body + [] == n.body;
      }
    }
  }

  lemma NotesAfterSnoc(lines: seq<string>, line: string, lang: string)
    ensures NotesAfter(lines + [line], lang) == NotesStepped(NotesAfter(lines, lang), line, lang)
  {
    assert (lines + [line])[..|lines|] == lines;
  }

  lemma NotesOneMoreLine(lines: seq<string>, line: string, lang: string)
    ensures Extends(NotesAfter(lines, lang).body, NotesAfter(lines + [line], lang).body)
  {
    NotesAfterSnoc(lines, line, lang);
    NotesStepExtends(NotesAfter(lines, lang), line, lang);
  }

  lemma {:induction false} NotesMoreLines(lines: seq<string>, more: seq<string>, lang: string)
    ensures Extends(NotesAfter(lines, lang).body, NotesAfter(lines + more, lang).body)
    decreases |more|
  {
    if more == [] {
      assert lines + more == lines;
      ExtendsAppend(NotesAfter(lines, lang).body, []);
      assert NotesAfter(lines, lang).body + [] == NotesAfter(lines, lang).body;
    } else {
      var front, x := more[..|more| - 1], more[|more| - 1];
      assert lines + more == (lines + front) + [x];
      NotesMoreLines(lines, front, lang);
      NotesOneMoreLine(lines + front, x, lang);
      ExtendsTrans(NotesAfter(lines, lang).body, NotesAfter(lines + front, lang).body, NotesAfter(lines + more, lang).body);
    }
  }

  /**
    Every block written after the first lines is in the saved document at
    the same place and with the same content; only its spacing can have
    changed since.
   */
  lemma NotesWrittenIsKept(lines: seq<string>, more: seq<string>, lang: string)
    ensures Extends(NotesAfter(lines, lang).body, NotesConverted(lines + more, lang))
  {
    NotesMoreLines(lines, more, lang);
    NotesFlushedExtends(NotesAfter(lines + more, lang), lang);
    ExtendsTrans(NotesAfter(lines, lang).body, NotesAfter(lines + more, lang).body, NotesConverted(lines + more, lang));
  }

  // ---------------------------------------------------------------------
  // One title at most
  // ---------------------------------------------------------------------

  /** Between lines the body holds a title exactly when the flag says one was written. */
  predicate NotesSound(n: Notes) {
    TitleCount(n.body) == (if n.titleWritten then 1 else 0)
  }

  lemma NoTitleAppended(body: seq<Block>, xs: seq<Block>)
    requires forall k :: 0 <= k < |xs| && xs[k].Par? ==> !xs[k].p.role.TitleRole?
    ensures TitleCount(body + xs) == TitleCount(body)
  {
    TitleCountConcat(body, xs);
    NoTitles(xs);
  }

  lemma NotesFlushedSound(n: Notes, lang: string)
    requires NotesSound(n)
    ensures NotesSound(NotesFlushed(n, lang)) && NotesFlushed(n, lang).titleWritten == n.titleWritten
  {
    var para := Joined(n.buffer);
    if para != [] {
      SpacingKeepsTitles(n.body, 12);
      NoTitleAppended(SpaceAfterList(n.body), [Par(NotesBody(para, lang))]);
    }
  }

  lemma NotesHeadingSound(n: Notes, level: nat, text: string, lang: string)
    requires NotesSound(n)
    ensures NotesSound(NotesHeadingStepped(n, level, text, lang))
  {
    if level == 1 && !n.titleWritten {
      var t := [Par(NotesTitle(text, lang))];
      TitleCountConcat(n.body, t);
      assert t[1..] == [];
    } else {
      SpacingKeepsTitles(n.body, 2);
      NoTitleAppended(TrimLastNormal(n.body, 2), [Par(NotesHeading(text, level, lang))]);
    }
  }

  lemma NotesListSound(n: Notes, items: seq<Block>, lang: string)
    requires NotesSound(n)
    requires forall k :: 0 <= k < |items| ==> items[k].Par? && items[k].p.role == ListRole
    ensures NotesSound(NotesListStepped(n, items, lang))
  {
    NotesFlushedSound(n, lang);
    var n1 := NotesFlushed(n, lang);
    SpacingKeepsTitles(n1.body, 0);
    NoTitleAppended(TrimLastNormal(n1.body, 0), items);
  }

  lemma NotesStepSound(n: Notes, line: string, lang: string)
    requires NotesSound(n)
    ensures NotesSound(NotesStepped(n, line, lang))
  {
    NotesFlushedSound(n, lang);
    var m := Classifier.MatchHeading(line);
    if m.Some? {
      NotesHeadingSound(NotesFlushed(n, lang), |m.value.prefix|, m.value.text, lang);
    } else if Strip(line) != [] {
      var items := NotesItemsOf(ListText(line), LineLevel(line), lang);
      if items.Some? {
        NotesListSound(n, items.value, lang);
      }
    }
  }

  lemma {:induction false} NotesSoundAfter(lines: seq<string>, lang: string)
    ensures NotesSound(NotesAfter(lines, lang))
    decreases |lines|
  {
    if lines != [] {
      var front, x := lines[..|lines| - 1], lines[|lines| - 1];
      assert lines == front + [x];
      NotesSoundAfter(front, lang);
      NotesAfterSnoc(front, x, lang);
      NotesStepSound(NotesAfter(front, lang), x, lang);
    }
  }

  /** The saved document holds at most one title, and one exactly when a level-1 heading was met. */
  lemma NotesTitleAtMostOnce(lines: seq<string>, lang: string)
    ensures TitleCount(NotesConverted(lines, lang)) == (if NotesAfter(lines, lang).titleWritten then 1 else 0)
    ensures TitleCount(NotesConverted(lines, lang)) <= 1
  {
    NotesSoundAfter(lines, lang);
    NotesFlushedSound(NotesAfter(lines, lang), lang);
  }

  // ---------------------------------------------------------------------
  // Step rules
  // ---------------------------------------------------------------------

  /** A trimmed text has nothing to take off on the right. */
  lemma RStripTrimmed(s: string)
    requires Trimmed(s)
    ensures RStrip(s) == s
  {
    if s != [] {
      assert !IsSpace(s[|s| - 1]);
    }
  }

  /**
    `flush_buffer`: the buffer is emptied and the title flag kept; a
    paragraph is written exactly when the joined lines are not blank, and
    it shows exactly the joined text.
   */
  lemma NotesFlushRule(n: Notes, lang: string)
    ensures NotesFlushed(n, lang).buffer == [] && NotesFlushed(n, lang).titleWritten == n.titleWritten
    ensures Joined(n.buffer) == [] ==> NotesFlushed(n, lang).body == n.body
    ensures Joined(n.buffer) != [] ==>
      var b := NotesFlushed(n, lang).body;
      |b| == |n.body| + 1 && b[|n.body|].Par? && b[|n.body|].p.role == BodyRole
      && RunsText(Runs(b[|n.body|].p)) == Joined(n.buffer)
  {
    var para := Joined(n.buffer);
    if para != [] {
      RStripTrimmed(para);
      RunsSpell(NotesBody(para, lang));
    }
  }

  /**
    Every heading but the title is appended after trimming a "Normal"
    paragraph before it to 2pt; a heading before it keeps its own spacing,
    and the new heading always has its level's spacing: there is no
    consecutive-heading fix.
   */
  lemma NotesHeadingRule(n: Notes, level: nat, text: string, lang: string)
    requires !(level == 1 && !n.titleWritten)
    ensures var d := NotesHeadingStepped(n, level, text, lang);
      var rank := HeadingRank(level);
      |d.body| == |n.body| + 1 && d.body[|n.body|].Par? && d.body[|n.body|].p.role == HeadingRole(rank)
      && d.body[|n.body|].p.spaceBefore == Some(HeadingSpacing(rank).0)
      && d.body[|n.body|].p.spaceAfter == Some(HeadingSpacing(rank).1)
      && (LastStyle(n.body) == "Normal" ==> d.body[LastPara(n.body).value].p.spaceAfter == Some(2))
      && (LastStyle(n.body) != "Normal" ==> d.body[..|n.body|] == n.body)
  {
    var h := [Par(NotesHeading(text, level, lang))];
    assert (TrimLastNormal(n.body, 2) + h)[..|n.body|] == TrimLastNormal(n.body, 2);
  }

  /**
    Only headings, blank lines, numbered items and "- " bullets are read as
    such: every other line, a fence, a quote or a table row included, is
    kept for the next body paragraph and writes nothing yet.
   */
  lemma ProseIsBuffered(n: Notes, line: string, lang: string)
    requires Classifier.MatchHeading(line).None? && Strip(line) != []
    requires NotesItemsOf(ListText(line), LineLevel(line), lang).None?
    ensures NotesStepped(n, line, lang) == n.(buffer := n.buffer + [line])
  {
  }

  /** A blank line only ends the paragraph being collected. */
  lemma BlankRule(n: Notes, line: string, lang: string)
    requires Classifier.MatchHeading(line).None? && Strip(line) == []
    ensures NotesStepped(n, line, lang) == NotesFlushed(n, lang)
  {
  }

  /** Both list styles, at every level, name a list. */
  lemma NotesListStyles(base: string, level: nat)
    requires base == "List Number" || base == "List Bullet"
    ensures Contains(ListStyle(base, level), "List")
  {
    assert ListStyle(base, level)[..4] == "List";
    ContainsWitness(ListStyle(base, level), "List", 0);
  }

  /** The layout of one list item paragraph. */
  predicate ItemLaidOut(p: Para, level: nat, lang: string) {
    Contains(p.style, "List") && p.spaceBefore == Some(0) && p.spaceAfter == Some(6)
    && p.firstLineIndent == Some(-4) && p.content.Built? && 1 <= |p.content.runs| <= 2
    && (if IsRtl(lang) then p.rightIndent == Some(15 + 5 * level) && p.leftIndent.None?
        else p.leftIndent == Some(15 + 5 * level) && p.rightIndent.None?)
  }

  lemma NotesItemLayout(base: string, text: string, level: nat, lang: string)
    requires base == "List Number" || base == "List Bullet"
    ensures ItemLaidOut(NotesItem(base, text, level, lang), level, lang)
  {
    NotesListStyles(base, level);
  }

  /**
    Every paragraph of a list line is a list item in a style that names a
    list, 0pt before and 6pt after, hanging 4 mm out at the level's indent
    on the start side only, written as one or two runs (the
    bold-before-colon runs of its text).
   */
  lemma NotesItemsLayout(s: string, level: nat, lang: string)
    ensures var r := NotesItemsOf(s, level, lang);
      r.Some? ==> forall k :: 0 <= k < |r.value| ==> ItemLaidOut(r.value[k].p, level, lang)
  {
    var mNum := Classifier.MatchNumbered(s);
    if mNum.Some? {
      NotesItemLayout("List Number", Strip(mNum.value.text), level, lang);
    } else if StartsWith(s, "- ") {
      var parts := BulletParts(Strip(s[2..]));
      forall k | 0 <= k < |parts|
        ensures ItemLaidOut(NotesItem("List Bullet", parts[k], level, lang), level, lang)
      {
        NotesItemLayout("List Bullet", parts[k], level, lang);
      }
    }
  }

  /**
    A list line writes its items after everything flushed before it, with
    the buffer empty, and trims a "Normal" paragraph before the list to
    0pt after.
   */
  lemma NotesListRule(n: Notes, items: seq<Block>, lang: string)
    ensures var n1, d := NotesFlushed(n, lang), NotesListStepped(n, items, lang);
      d.buffer == [] && d.titleWritten == n.titleWritten
      && |d.body| == |n1.body| + |items| && d.body[|n1.body|..] == items
      && (LastStyle(n1.body) == "Normal" ==> d.body[LastPara(n1.body).value].p.spaceAfter == Some(0))
      && (LastStyle(n1.body) != "Normal" ==> d.body[..|n1.body|] == n1.body)
  {
    var n1 := NotesFlushed(n, lang);
    var t := TrimLastNormal(n1.body, 0);
    assert (t + items)[|n1.body|..] == items;
    assert (t + items)[..|n1.body|] == t;
  }

  /** Prose after a list: the last list paragraph gets 12pt after once a body paragraph is written. */
  lemma NotesFlushClosesList(n: Notes, lang: string)
    requires Joined(n.buffer) != [] && Contains(LastStyle(n.body), "List")
    ensures LastPara(n.body).Some?
    ensures NotesFlushed(n, lang).body[LastPara(n.body).value].p.spaceAfter == Some(12)
  {
    DocxConverterRules.NoListWithoutParagraph(n.body);
  }
}
