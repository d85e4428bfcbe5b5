/**
  The older Markdown-to-DOCX writer of `make_notes.py`: headings (the
  first level-1 heading as the title), blank lines, numbered items and
  "- " bullets; every other line is prose, joined into body paragraphs.
  List items are written with a bold label before their first colon
  instead of reading inline markup. `Notes` holds the loop's state as a
  value and `NotesStepped` says what one line does; the class
  `NotesConverter` keeps it in fields.
 */
module MakeNotes {
  import opened Wrappers
  import opened Text
  import opened DocModel
  import opened DocxLayout
  import Classifier

  const NotesFontMap: map<string, string> := map["zh" := "SimSun", "ar" := "Traditional Arabic"]

  /** `_font_for`: the language's entry in the font map, else Times New Roman. */
  function FontFor(lang: string): string {
    if lang in NotesFontMap then NotesFontMap[lang] else DefaultFont
  }

  /** Exactly Chinese and Arabic have a font of their own. */
  lemma NotesFontChoice(lang: string)
    ensures FontFor(lang) != DefaultFont <==> lang == "zh" || lang == "ar"
    ensures lang == "ar" ==> FontFor(lang) == "Traditional Arabic"
  {
  }

  // ---------------------------------------------------------------------
  // Paragraphs
  // ---------------------------------------------------------------------

  /** A run in body type: the language's font, 12pt, black, bold as asked. */
  function ListRun(text: string, bold: bool, font: string): Run {
    Run(text, Some(font), Some(12), bold, false, Black, false, false)
  }

  /**
    `_add_runs_bold_before_colon`: with a colon, a bold run of the stripped
    text before the first colon followed by the colon, then a plain run of a
    space and the stripped rest; without one, one plain run of the stripped
    text. Every run is in body type.
   */
  function ColonRuns(text: string, font: string): (rs: seq<Run>)
    ensures |rs| == (if Contains(text, ":") then 2 else 1)
    ensures rs[0].bold <==> Contains(text, ":")
    ensures !rs[|rs| - 1].bold
    ensures forall k :: 0 <= k < |rs| ==> rs[k].font == Some(font) && rs[k].sizePt == Some(12) && rs[k].colour == Black
  {
    match Find(text, ":")
    case Some(i) => [ListRun(Strip(text[..i]) + ":", true, font), ListRun(" " + Strip(text[i + 1..]), false, font)]
    case None => [ListRun(Strip(text), false, font)]
  }

  lemma RunsTextTwo(a: Run, b: Run)
    ensures RunsText([a, b]) == a.text + b.text
  {
    assert [a, b][1..] == [b];
    assert [b][1..] == [];
    assert RunsText([b]) == b.text + "" == b.text;
  }

  /** The first colon cuts the text in two, with no colon before it. */
  lemma FirstColon(text: string, i: nat)
    requires Find(text, ":") == Some(i)
    ensures i < |text| && text == text[..i] + ":" + text[i + 1..] && !Contains(text[..i], ":")
  {
    assert IsAt(text, i, ":");
    assert text[i..i + 1] == ":";
    assert text == text[..i] + text[i..i + 1] + text[i + 1..];
    var f := Find(text[..i], ":");
    if f.Some? {
      var j := f.value;
      assert IsAt(text[..i], j, ":");
      assert j < i;
      assert text[j..j + 1] == text[..i][j..j + 1];
      assert IsAt(text, j, ":");
      assert false;
    }
  }

  /** The runs cut at the first colon. */
  lemma ColonRunsAt(text: string, font: string, i: nat)
    requires Find(text, ":") == Some(i)
    ensures ColonRuns(text, font)[0].text == Strip(text[..i]) + ":"
    ensures RunsText(ColonRuns(text, font)) == Strip(text[..i]) + ": " + Strip(text[i + 1..])
  {
    var x, y := Strip(text[..i]), Strip(text[i + 1..]);
    var a, b := ListRun(x + ":", true, font), ListRun(" " + y, false, font);
    RunsTextTwo(a, b);
    assert ColonRuns(text, font) == [a, b];
    AppendAssoc(x, ":", " " + y);
    AppendAssoc(":", " ", y);
    assert ":" + " " == ": ";
    AppendAssoc(x, ": ", y);
  }

  /**
    What the runs say: with a colon, the text is `first + ":" + rest` with
    no colon in `first`, and the runs spell the stripped `first`, the
    colon, one space and the stripped `rest`; without one, the stripped
    text.
   */
  lemma ColonSplit(text: string, font: string)
    ensures !Contains(text, ":") ==> RunsText(ColonRuns(text, font)) == Strip(text)
    ensures Contains(text, ":") ==> exists i :: (0 <= i < |text| &&
      text == text[..i] + ":" + text[i + 1..] && !Contains(text[..i], ":") &&
      ColonRuns(text, font)[0].text == Strip(text[..i]) + ":" &&
      RunsText(ColonRuns(text, font)) == Strip(text[..i]) + ": " + Strip(text[i + 1..]))
  {
    match Find(text, ":")
    case Some(i) =>
      FirstColon(text, i);
      ColonRunsAt(text, font, i);
    case None =>
      var a := ListRun(Strip(text), false, font);
      assert [a][1..] == [];
      assert ColonRuns(text, font) == [a];
  }

  /** `add_title`: a centred paragraph of one 26pt run of the stripped text, 36pt after. */
  function NotesTitle(text: string, lang: string): (p: Para)
    ensures p.role == TitleRole && p.style == "Normal" && p.spaceAfter == Some(36) && p.reset == NoReset
    ensures p.content == Built([Run(Strip(text), Some(FontFor(lang)), Some(26), false, false, Black, false, false)])
    ensures p.align == Some(if IsRtl(lang) then Right else Center) && p.rtl == IsRtl(lang)
  {
    var run := Run(Strip(text), Some(FontFor(lang)), Some(26), false, false, Black, false, false);
    ApplyRtl(NewPara(TitleRole, Built([run])).(align := Some(Center), spaceAfter := Some(36)), lang)
  }

  /** `add_heading` and `format_heading`: left-aligned, spaced by its Word level, runs not bold and black. */
  function NotesHeading(text: string, mdLevel: int, lang: string): (p: Para)
    ensures p.role == HeadingRole(HeadingRank(mdLevel)) && p.style == HeadingStyle(HeadingRank(mdLevel))
    ensures p.content == Verbatim(Strip(text)) && p.reset == HeadingReset
    ensures p.spaceBefore == Some(HeadingSpacing(HeadingRank(mdLevel)).0)
    ensures p.spaceAfter == Some(HeadingSpacing(HeadingRank(mdLevel)).1)
    ensures p.align == Some(if IsRtl(lang) then Right else Left)
  {
    var rank := HeadingRank(mdLevel);
    var sp := HeadingSpacing(rank);
    var p := NewPara(HeadingRole(rank), Verbatim(Strip(text))).(style := HeadingStyle(rank));
    ApplyRtl(p.(align := Some(Left), spaceBefore := Some(sp.0), spaceAfter := Some(sp.1), reset := HeadingReset), lang)
  }

  /**
    `add_body` and `format_body`: one run of the text, justified, 1.2 lines,
    nothing before and 10pt after, runs in body type; a right-to-left
    language turns it right-aligned.
   */
  function NotesBody(text: string, lang: string): (p: Para)
    ensures p.role == BodyRole && p.style == "Normal" && p.content == Verbatim(RStrip(text))
    ensures p.reset == BodyReset(FontFor(lang))
    ensures p.lineSpacing == Some(120) && p.spaceBefore == Some(0) && p.spaceAfter == Some(10)
    ensures p.align == Some(if IsRtl(lang) then Right else Justify) && p.rtl == IsRtl(lang)
  {
    var p := NewPara(BodyRole, Verbatim(RStrip(text)));
    ApplyRtl(p.(align := Some(Justify), lineSpacing := Some(120), spaceBefore := Some(0), spaceAfter := Some(10),
                reset := BodyReset(FontFor(lang))), lang)
  }

  /**
    `_apply_list_indents`: 15 + 5·level mm with a hanging first line of
    4 mm, on the right only in a right-to-left language, on the left only
    otherwise.
   */
  function NotesListIndent(p: Para, level: nat, lang: string): (q: Para)
    ensures q.firstLineIndent == Some(-4)
    ensures IsRtl(lang) ==> q.rightIndent == Some(15 + 5 * level) && q.leftIndent == p.leftIndent
    ensures !IsRtl(lang) ==> q.leftIndent == Some(15 + 5 * level) && q.rightIndent == p.rightIndent
    ensures q == p.(leftIndent := q.leftIndent, rightIndent := q.rightIndent, firstLineIndent := q.firstLineIndent)
  {
    if IsRtl(lang) then p.(rightIndent := Some(15 + 5 * level), firstLineIndent := Some(-4))
    else p.(leftIndent := Some(15 + 5 * level), firstLineIndent := Some(-4))
  }

  /**
    `add_bullet` (style base "List Bullet") and `add_numbered` ("List
    Number"): the level's list style, left-aligned, 1.2 lines, nothing
    before and 6pt after, the list indent, the bold-before-colon runs.
   */
  function NotesItem(base: string, text: string, level: nat, lang: string): (p: Para)
    ensures p.role == ListRole && p.style == ListStyle(base, level) && p.reset == NoReset
    ensures p.content == Built(ColonRuns(text, FontFor(lang)))
    ensures p.lineSpacing == Some(120) && p.spaceBefore == Some(0) && p.spaceAfter == Some(6)
    ensures p.firstLineIndent == Some(-4)
    ensures IsRtl(lang) ==> p.align == Some(Right) && p.rightIndent == Some(15 + 5 * level) && p.leftIndent.None?
    ensures !IsRtl(lang) ==> p.align == Some(Left) && p.leftIndent == Some(15 + 5 * level) && p.rightIndent.None?
  {
    var p := NewPara(ListRole, Built(ColonRuns(text, FontFor(lang)))).(style := ListStyle(base, level),
               align := Some(Left), lineSpacing := Some(120), spaceBefore := Some(0), spaceAfter := Some(6));
    ApplyRtl(NotesListIndent(p, level, lang), lang)
  }

  /** One bullet paragraph per item, in order. */
  function NotesBullets(parts: seq<string>, level: nat, lang: string): (ps: seq<Block>)
    ensures |ps| == |parts|
    ensures forall k :: 0 <= k < |parts| ==> ps[k] == Par(NotesItem("List Bullet", parts[k], level, lang))
  {
    seq(|parts|, k requires 0 <= k < |parts| => Par(NotesItem("List Bullet", parts[k], level, lang)))
  }

  // ---------------------------------------------------------------------
  // The loop
  // ---------------------------------------------------------------------

  /** The state of `md_to_docx`'s loop: the body so far, the title flag and the prose buffer. */
  datatype Notes = Notes(body: seq<Block>, titleWritten: bool, buffer: seq<string>)

  const NotesInitial: Notes := Notes([], false, [])

  /** `flush_buffer`: the buffer is emptied; joined lines that are not blank become a body paragraph after a list is closed. */
  function NotesFlushed(n: Notes, lang: string): Notes {
    var para := Joined(n.buffer);
    if para == [] then n.(buffer := [])
    else n.(buffer := [], body := SpaceAfterList(n.body) + [Par(NotesBody(para, lang))])
  }

  /** A heading after the flush: the first level-1 heading is the title, any other trims a "Normal" paragraph before it to 2pt. */
  function NotesHeadingStepped(n: Notes, level: nat, text: string, lang: string): Notes {
    if level == 1 && !n.titleWritten then n.(body := n.body + [Par(NotesTitle(text, lang))], titleWritten := true)
    else n.(body := TrimLastNormal(n.body, 2) + [Par(NotesHeading(text, level, lang))])
  }

  /** A list line's items after the flush: a "Normal" paragraph before them loses its space after. */
  function NotesListStepped(n: Notes, items: seq<Block>, lang: string): Notes {
    var n1 := NotesFlushed(n, lang);
    n1.(body := TrimLastNormal(n1.body, 0) + items)
  }

  /** The paragraphs a list line becomes: a numbered item, or the items of a "- " bullet line. */
  function NotesItemsOf(s: string, level: nat, lang: string): (r: Option<seq<Block>>)
    ensures r.Some? <==> Classifier.MatchNumbered(s).Some? || StartsWith(s, "- ")
    ensures r.Some? && Classifier.MatchNumbered(s).Some? ==> |r.value| == 1
    ensures r.Some? && Trimmed(s) ==> |r.value| >= 1
    ensures r.Some? ==> forall k :: 0 <= k < |r.value| ==> r.value[k].Par? && r.value[k].p.role == ListRole
  {
    var mNum := Classifier.MatchNumbered(s);
    if mNum.Some? then Some([Par(NotesItem("List Number", Strip(mNum.value.text), level, lang))])
    else if StartsWith(s, "- ") then
      BulletContent(s);
      Some(NotesBullets(BulletParts(Strip(s[2..])), level, lang))
    else None
  }

  /** What one line does: a heading, a blank line, a list line, or prose for the buffer. */
  function NotesStepped(n: Notes, line: string, lang: string): Notes {
    var m := Classifier.MatchHeading(line);
    if m.Some? then NotesHeadingStepped(NotesFlushed(n, lang), |m.value.prefix|, m.value.text, lang)
    else if Strip(line) == [] then NotesFlushed(n, lang)
    else
      var items := NotesItemsOf(ListText(line), LineLevel(line), lang);
      if items.Some? then NotesListStepped(n, items.value, lang)
      else n.(buffer := n.buffer + [line])
  }

  /** The state after the loop has read `lines`. */
  function NotesAfter(lines: seq<string>, lang: string): Notes {
    if lines == [] then NotesInitial
    else NotesStepped(NotesAfter(lines[..|lines| - 1], lang), lines[|lines| - 1], lang)
  }

  /** The body of the document `md_to_docx` saves for `lines`: the loop, then the last flush. */
  function NotesConverted(lines: seq<string>, lang: string): seq<Block> {
    NotesFlushed(NotesAfter(lines, lang), lang).body
  }

  class NotesConverter {
    const lang: string
    var body: seq<Block>
    var titleWritten: bool
    var buffer: seq<string>

    function State(): Notes
      reads this
    {
      Notes(body, titleWritten, buffer)
    }

    constructor(lang: string)
      ensures this.lang == lang && State() == NotesInitial
    {
      this.lang := lang;
      body, titleWritten, buffer := [], false, [];
    }

    /** `flush_buffer` */
    method FlushBuffer()
      modifies this
      ensures State() == NotesFlushed(old(State()), lang)
    {
      var para := Joined(buffer);
      buffer := [];
      if para != [] {
        body := SpaceAfterList(body) + [Par(NotesBody(para, lang))];
      }
    }

    /** A heading line of level `level` with text `text`. */
    method Heading(level: nat, text: string)
      modifies this
      ensures State() == NotesHeadingStepped(NotesFlushed(old(State()), lang), level, text, lang)
    {
      FlushBuffer();
      if level == 1 && !titleWritten {
        body := body + [Par(NotesTitle(text, lang))];
        titleWritten := true;
      } else {
        body := TrimLastNormal(body, 2);
        body := body + [Par(NotesHeading(text, level, lang))];
      }
    }

    /** The items of one list line, after the flush and the trim before a list. */
    method ListItems(items: seq<Block>)
      modifies this
      ensures State() == NotesListStepped(old(State()), items, lang)
    {
      FlushBuffer();
      var start := TrimLastNormal(body, 0);
      var out := start;
      for i := 0 to |items|
        invariant out == start + items[..i]
      {
        assert items[..i + 1] == items[..i] + [items[i]];
        out := out + [items[i]];
      }
      assert items[..|items|] == items;
      body := out;
    }

    /** The body of the `for line in md_lines` loop. */
    method ProcessLine(line: string)
      modifies this
      ensures State() == NotesStepped(old(State()), line, lang)
    {
      var m := Classifier.MatchHeading(line);
      if m.Some? {
        Heading(|m.value.prefix|, m.value.text);
        return;
      }
      if Strip(line) == [] {
        FlushBuffer();
        return;
      }
      var items := NotesItemsOf(ListText(line), LineLevel(line), lang);
      if items.Some? {
        ListItems(items.value);
      } else {
        buffer := buffer + [line];
      }
    }
  }

  /** `md_to_docx` over the file's lines: the body of the document it saves. */
  method MdToDocx(lines: seq<string>, lang: string) returns (body: seq<Block>)
    ensures body == NotesConverted(lines, lang)
  {
    var nc := new NotesConverter(lang);
    for i := 0 to |lines|
      invariant nc.lang == lang && nc.State() == NotesAfter(lines[..i], lang)
    {
      assert lines[..i + 1][..i] == lines[..i];
      nc.ProcessLine(lines[i]);
    }
    assert lines[..|lines|] == lines;
    nc.FlushBuffer();
    body := nc.body;
  }
}
