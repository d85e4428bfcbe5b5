/**
  The layout helpers of the Markdown-to-DOCX generator: fonts and
  direction by language, the paragraph records each `insert_*` helper
  appends, the formatting passes applied to them, the inline runs, tables,
  and the line patterns the conversion loop tests.
 */
module DocxLayout {
  import opened Wrappers
  import opened Text
  import opened DocModel
  import InlineSpans
  import Classifier

  const RtlLangs: set<string> := {"ar", "he", "fa", "ur"}
  const FontMap: map<string, string> := map["zh" := "SimSun", "ar" := "Amiri"]
  const DefaultFont: string := "Times New Roman"
  const MonospaceFont: string := "Courier New"

  /** `_is_rtl` */
  predicate IsRtl(lang: string) { lang in RtlLangs }

  /** `_resolve_font`: the language's entry in the font map, else Times New Roman. */
  function ResolveFont(lang: string): string {
    if lang in FontMap then FontMap[lang] else DefaultFont
  }

  /** Exactly Chinese and Arabic have a font of their own. */
  lemma FontChoice(lang: string)
    ensures ResolveFont(lang) != DefaultFont <==> lang == "zh" || lang == "ar"
    ensures lang == "ar" ==> ResolveFont(lang) == "Amiri"
  {
  }

  // ---------------------------------------------------------------------
  // Formatting passes
  // ---------------------------------------------------------------------

  /** `_apply_rtl_if_needed`: in a right-to-left language the paragraph is marked so and right-aligned. */
  function ApplyRtl(p: Para, lang: string): (q: Para)
    ensures IsRtl(lang) ==> q == p.(rtl := true, align := Some(Right))
    ensures !IsRtl(lang) ==> q == p
  {
    if IsRtl(lang) then p.(rtl := true, align := Some(Right)) else p
  }

  /** The run reset of `format_body_paragraph`: the language's font, 12pt, not bold, black. */
  function BodyRun(r: Run, font: string): Run {
    r.(font := Some(font), sizePt := Some(12), bold := false, colour := Black)
  }

  function BodyRuns(rs: seq<Run>, font: string): (out: seq<Run>)
    ensures |out| == |rs|
    ensures forall k :: 0 <= k < |rs| ==> out[k] == BodyRun(rs[k], font)
  {
    seq(|rs|, k requires 0 <= k < |rs| => BodyRun(rs[k], font))
  }

  /**
    `format_body_paragraph`: style "Normal"; right-aligned, 1.3 lines and
    8pt after in a right-to-left language, else justified, 1.2 lines and
    6pt after; nothing before; every run reset to body type.
   */
  function FormatBody(p: Para, lang: string): (q: Para)
    ensures q.style == "Normal" && q.role == p.role && q.content == p.content && q.spaceBefore == Some(0)
    ensures IsRtl(lang) ==> q.align == Some(Right) && q.lineSpacing == Some(130) && q.spaceAfter == Some(8) && q.rtl
    ensures !IsRtl(lang) ==> q.align == Some(Justify) && q.lineSpacing == Some(120) && q.spaceAfter == Some(6) && q.rtl == p.rtl
    ensures q.reset == BodyReset(ResolveFont(lang))
    ensures q.leftIndent == p.leftIndent && q.rightIndent == p.rightIndent && q.firstLineIndent == p.firstLineIndent
  {
    var rtl := IsRtl(lang);
    ApplyRtl(p.(style := "Normal", align := Some(if rtl then Right else Justify),
                lineSpacing := Some(if rtl then 130 else 120), spaceBefore := Some(0),
                spaceAfter := Some(if rtl then 8 else 6), reset := BodyReset(ResolveFont(lang))), lang)
  }

  /** Space before and after a heading of Word level `level`. */
  function HeadingSpacing(level: int): (r: (nat, nat)) {
    if level == 1 then (28, 6) else if level == 2 then (20, 5) else (16, 6)
  }

  function HeadingRun(r: Run): Run { r.(bold := false, colour := Black) }

  function HeadingRuns(rs: seq<Run>): (out: seq<Run>)
    ensures |out| == |rs|
    ensures forall k :: 0 <= k < |rs| ==> out[k] == HeadingRun(rs[k])
  {
    seq(|rs|, k requires 0 <= k < |rs| => HeadingRun(rs[k]))
  }

  /**
    `format_heading_paragraph`: right-aligned in a right-to-left language,
    else left; spacing by level; runs not bold and black. A body reset
    already leaves runs so, and is kept.
   */
  function FormatHeading(p: Para, level: int, lang: string): (q: Para)
    ensures q.align == Some(if IsRtl(lang) then Right else Left)
    ensures q.spaceBefore == Some(HeadingSpacing(level).0) && q.spaceAfter == Some(HeadingSpacing(level).1)
    ensures q.style == p.style && q.role == p.role && q.content == p.content
    ensures q.reset == (if p.reset.NoReset? then HeadingReset else p.reset)
  {
    var sp := HeadingSpacing(level);
    ApplyRtl(p.(align := Some(if IsRtl(lang) then Right else Left), spaceBefore := Some(sp.0),
                spaceAfter := Some(sp.1), reset := if p.reset.NoReset? then HeadingReset else p.reset), lang)
  }

  /** The Word level of a Markdown heading level: one less, kept within 1..9. */
  function HeadingRank(mdLevel: int): (r: nat)
    ensures 1 <= r <= 9
    ensures 2 <= mdLevel <= 10 ==> r == mdLevel - 1
    ensures mdLevel <= 2 ==> r == 1
    ensures mdLevel >= 10 ==> r == 9
  {
    var w := if mdLevel - 1 > 1 then mdLevel - 1 else 1;
    if w < 9 then w else 9
  }

  /** `_apply_list_indentation`: 15 + 5·level mm on the start side, a hanging first line of 4 mm. */
  function ListIndent(p: Para, level: nat, lang: string): (q: Para)
    ensures q.firstLineIndent == Some(-4)
    ensures IsRtl(lang) ==> q.leftIndent == Some(0) && q.rightIndent == Some(15 + 5 * level)
    ensures !IsRtl(lang) ==> q.rightIndent == Some(0) && q.leftIndent == Some(15 + 5 * level)
    ensures q == p.(leftIndent := q.leftIndent, rightIndent := q.rightIndent, firstLineIndent := q.firstLineIndent)
  {
    if IsRtl(lang) then p.(leftIndent := Some(0), rightIndent := Some(15 + 5 * level), firstLineIndent := Some(-4))
    else p.(rightIndent := Some(0), leftIndent := Some(15 + 5 * level), firstLineIndent := Some(-4))
  }

  // ---------------------------------------------------------------------
  // Inline runs: `_add_formatted_runs`, and the runs a paragraph shows
  // ---------------------------------------------------------------------

  /**
    The run of one segment: code in the monospace font one point smaller
    (never under 9) on grey; bold and italic as the segment says; a link
    blue and underlined.
   */
  function SegmentRun(g: InlineSpans.Segment, font: string): (r: Run)
    ensures r.text == g.text && r.bold == g.bold && r.italic == g.italic && r.shaded == g.code
    ensures r.font == Some(if g.code then MonospaceFont else font)
    ensures r.sizePt == Some(if g.code then 11 else 12)
    ensures r.underline <==> g.linkUrl.Some?
    ensures r.colour == (if g.linkUrl.Some? then LinkBlue else Black)
  {
    var size := if g.code then (if 12 - 1 > 9 then 12 - 1 else 9) else 12;
    Run(g.text, Some(if g.code then MonospaceFont else font), Some(size), g.bold, g.italic,
        if g.linkUrl.Some? then LinkBlue else Black, g.code, g.linkUrl.Some?)
  }

  function SegmentRuns(gs: seq<InlineSpans.Segment>, font: string): (rs: seq<Run>)
    ensures |rs| == |gs| && forall k :: 0 <= k < |gs| ==> rs[k] == SegmentRun(gs[k], font)
  {
    seq(|gs|, k requires 0 <= k < |gs| => SegmentRun(gs[k], font))
  }

  /** The runs added for a content, before any reset: `_add_formatted_runs` of the stripped text, one plain run, or the hand-made runs. */
  function BaseRuns(c: Content): seq<Run> {
    match c
    case Markdown(t, f) => SegmentRuns(InlineSpans.InlineSegments(Strip(t)), f)
    case Verbatim(t) => TextRuns(t)
    case Built(rs) => rs
  }

  /** The runs of a paragraph as the file holds them: the content's runs, then the reset pass. */
  function Runs(p: Para): seq<Run> {
    var rs := BaseRuns(p.content);
    match p.reset
    case NoReset => rs
    case BodyReset(f) => BodyRuns(rs, f)
    case HeadingReset => HeadingRuns(rs)
  }

  /** The text a content shows: the stripped text without its inline markup, the text verbatim, or the hand-made runs' text. */
  function ShownText(c: Content): string {
    match c
    case Markdown(t, _) => InlineSpans.Clean(Strip(t))
    case Verbatim(t) => t
    case Built(rs) => RunsText(rs)
  }

  lemma {:induction false} SegmentRunsText(gs: seq<InlineSpans.Segment>, font: string)
    ensures RunsText(SegmentRuns(gs, font)) == InlineSpans.Texts(gs)
    decreases |gs|
  {
    if gs != [] {
      assert SegmentRuns(gs, font)[1..] == SegmentRuns(gs[1..], font);
      SegmentRunsText(gs[1..], font);
    }
  }

  /** The body pass changes how runs look, not what they say. */
  lemma {:induction false} BodyRunsText(rs: seq<Run>, font: string)
    ensures RunsText(BodyRuns(rs, font)) == RunsText(rs)
    decreases |rs|
  {
    if rs != [] {
      assert BodyRuns(rs, font)[1..] == BodyRuns(rs[1..], font);
      BodyRunsText(rs[1..], font);
    }
  }

  /** Nor does the heading pass. */
  lemma {:induction false} HeadingRunsText(rs: seq<Run>)
    ensures RunsText(HeadingRuns(rs)) == RunsText(rs)
    decreases |rs|
  {
    if rs != [] {
      assert HeadingRuns(rs)[1..] == HeadingRuns(rs[1..]);
      HeadingRunsText(rs[1..]);
    }
  }

  /**
    Every paragraph spells the text of its content: a Markdown text shows
    stripped and without its inline markup, whatever pass reset its runs;
    Markdown content always yields at least one run.
   */
  lemma RunsSpell(p: Para)
    ensures RunsText(Runs(p)) == ShownText(p.content)
    ensures p.content.Markdown? ==> |Runs(p)| >= 1
  {
    var rs := BaseRuns(p.content);
    assert RunsText(rs) == ShownText(p.content) by {
      match p.content
      case Markdown(t, f) =>
        SegmentRunsText(InlineSpans.InlineSegments(Strip(t)), f);
        InlineSpans.SegmentTextsAreClean(Strip(t));
      case Verbatim(t) =>
        if t != [] { assert rs[1..] == []; }
      case Built(_) =>
    }
    match p.reset
    case NoReset =>
    case BodyReset(f) => BodyRunsText(rs, f);
    case HeadingReset => HeadingRunsText(rs);
  }

  /** After the body pass every run is in the body font at 12pt, not bold and black; after the heading pass not bold and black. */
  lemma ResetRuns(p: Para)
    ensures p.reset.BodyReset? ==> forall r :: r in Runs(p) ==>
      r.font == Some(p.reset.font) && r.sizePt == Some(12) && !r.bold && r.colour == Black
    ensures p.reset.HeadingReset? ==> forall r :: r in Runs(p) ==> !r.bold && r.colour == Black
  {
  }

  /** A second body pass, or a body pass after the heading pass, is the body pass alone. */
  lemma BodyRunsAbsorb(rs: seq<Run>, g: string, f: string)
    ensures BodyRuns(BodyRuns(rs, g), f) == BodyRuns(rs, f)
    ensures BodyRuns(HeadingRuns(rs), f) == BodyRuns(rs, f)
  {
  }

  /** The heading pass after either pass changes nothing more. */
  lemma HeadingRunsAbsorb(rs: seq<Run>, g: string)
    ensures HeadingRuns(BodyRuns(rs, g)) == BodyRuns(rs, g)
    ensures HeadingRuns(HeadingRuns(rs)) == HeadingRuns(rs)
  {
  }

  /** The body pass acts on the runs already there, whatever pass came before. */
  lemma FormatBodyRuns(p: Para, lang: string)
    ensures Runs(FormatBody(p, lang)) == BodyRuns(Runs(p), ResolveFont(lang))
  {
    var q := FormatBody(p, lang);
    var rs := BaseRuns(p.content);
    assert Runs(q) == BodyRuns(rs, ResolveFont(lang));
    match p.reset
    case NoReset =>
    case BodyReset(g) => BodyRunsAbsorb(rs, g, ResolveFont(lang));
    case HeadingReset => BodyRunsAbsorb(rs, "", ResolveFont(lang));
  }

  /** The heading pass acts on the runs already there, whatever pass came before. */
  lemma FormatHeadingRuns(p: Para, level: int, lang: string)
    ensures Runs(FormatHeading(p, level, lang)) == HeadingRuns(Runs(p))
  {
    var q := FormatHeading(p, level, lang);
    var rs := BaseRuns(p.content);
    assert BaseRuns(q.content) == rs;
    match p.reset
    case NoReset =>
    case BodyReset(g) => HeadingRunsAbsorb(rs, g);
    case HeadingReset => HeadingRunsAbsorb(rs, "");
  }

  // ---------------------------------------------------------------------
  // The paragraphs of the `insert_*` helpers
  // ---------------------------------------------------------------------

  /** `insert_document_title`: a centred "Normal" paragraph of one 26pt run, 36pt after. */
  function TitlePara(text: string, lang: string): (p: Para)
    ensures p.role == TitleRole && p.style == "Normal" && p.spaceAfter == Some(36) && p.reset == NoReset
    ensures p.content == Built([Run(Strip(text), Some(ResolveFont(lang)), Some(26), false, false, Black, false, false)])
    ensures p.align == Some(if IsRtl(lang) then Right else Center) && p.rtl == IsRtl(lang)
  {
    var run := Run(Strip(text), Some(ResolveFont(lang)), Some(26), false, false, Black, false, false);
    ApplyRtl(NewPara(TitleRole, Built([run])).(align := Some(Center), spaceAfter := Some(36)), lang)
  }

  /** The style `add_heading` gives a Word level. */
  function HeadingStyle(rank: nat): string { "Heading " + NatToString(rank) }

  /** `insert_heading`: a heading paragraph of Word level `HeadingRank(mdLevel)`, its stripped text taken verbatim. */
  function HeadingPara(text: string, mdLevel: int, lang: string): (p: Para)
    ensures p.role == HeadingRole(HeadingRank(mdLevel)) && p.style == HeadingStyle(HeadingRank(mdLevel))
    ensures p.content == Verbatim(Strip(text)) && p.reset == HeadingReset
    ensures p.spaceBefore == Some(HeadingSpacing(HeadingRank(mdLevel)).0)
    ensures p.spaceAfter == Some(HeadingSpacing(HeadingRank(mdLevel)).1)
  {
    var rank := HeadingRank(mdLevel);
    var p := NewPara(HeadingRole(rank), Verbatim(Strip(text))).(style := HeadingStyle(rank));
    FormatHeading(p, rank, lang)
  }

  /** The list style of a level: the base name, then " 2" and " 3". */
  function ListStyle(base: string, level: nat): string {
    if level == 0 then base else if level == 1 then base + " 2" else base + " 3"
  }

  /** The spacing every list item gets: 1.3 or 1.2 lines, nothing before, 6pt after. */
  function ListSpacing(p: Para, lang: string): Para {
    p.(lineSpacing := Some(if IsRtl(lang) then 130 else 120), spaceBefore := Some(0), spaceAfter := Some(6))
  }

  /**
    `insert_bullet_item`: a "List Bullet" paragraph of the level, or in a
    right-to-left language a right-aligned "Normal" one whose text opens
    with a bullet character.
   */
  function BulletPara(text: string, level: nat, lang: string): (p: Para)
    ensures p.role == ListRole && p.spaceBefore == Some(0) && p.spaceAfter == Some(6) && p.reset == NoReset
    ensures p.content == Markdown(if IsRtl(lang) then "• " + text else text, ResolveFont(lang))
    ensures IsRtl(lang) ==> p.style == "Normal" && p.align == Some(Right) && p.rtl
    ensures !IsRtl(lang) ==> p.style == ListStyle("List Bullet", level) && p.align == Some(Left)
  {
    var rtl := IsRtl(lang);
    var c := Markdown(if rtl then "• " + text else text, ResolveFont(lang));
    var p0 := if rtl then NewPara(ListRole, c).(rtl := true, align := Some(Right))
              else NewPara(ListRole, c).(style := ListStyle("List Bullet", level), align := Some(Left));
    ApplyRtl(ListIndent(ListSpacing(p0, lang), level, lang), lang)
  }

  /** `insert_numbered_item`: as a bullet, with the "List Number" styles and no bullet character. */
  function NumberedPara(text: string, level: nat, lang: string): (p: Para)
    ensures p.role == ListRole && p.spaceBefore == Some(0) && p.spaceAfter == Some(6) && p.reset == NoReset
    ensures p.content == Markdown(text, ResolveFont(lang))
    ensures IsRtl(lang) ==> p.style == "Normal" && p.align == Some(Right) && p.rtl
    ensures !IsRtl(lang) ==> p.style == ListStyle("List Number", level) && p.align == Some(Left)
  {
    var c := Markdown(text, ResolveFont(lang));
    var p0 := if IsRtl(lang) then NewPara(ListRole, c).(align := Some(Right))
              else NewPara(ListRole, c).(style := ListStyle("List Number", level), align := Some(Left));
    ApplyRtl(ListIndent(ListSpacing(p0, lang), level, lang), lang)
  }

  /** `insert_alphabetic_item`: a "Normal" paragraph with list spacing and indent, its label `mark` before the text. */
  function AlphaPara(mark: string, text: string, level: nat, lang: string): (p: Para)
    ensures p.role == ListRole && p.style == "Normal" && p.reset == NoReset
    ensures p.content == Markdown(mark + " " + text, ResolveFont(lang))
    ensures p.spaceBefore == Some(0) && p.spaceAfter == Some(6)
  {
    var c := Markdown(mark + " " + text, ResolveFont(lang));
    ApplyRtl(ListIndent(ListSpacing(NewPara(ListRole, c).(align := Some(Left)), lang), level, lang), lang)
  }

  /** `insert_blockquote`: indented 15 mm, 4pt before and after, 1.2 lines. */
  function QuotePara(text: string, lang: string): (p: Para)
    ensures p.role == QuoteRole && p.style == "Normal" && p.leftIndent == Some(15) && p.reset == NoReset
    ensures p.spaceBefore == Some(4) && p.spaceAfter == Some(4) && p.lineSpacing == Some(120)
    ensures p.content == Markdown(text, ResolveFont(lang))
  {
    var p0 := NewPara(QuoteRole, Markdown(text, ResolveFont(lang))).(align := Some(if IsRtl(lang) then Right else Left),
                leftIndent := Some(15), spaceBefore := Some(4), spaceAfter := Some(4), lineSpacing := Some(120));
    ApplyRtl(p0, lang)
  }

  /** `insert_code_block_line`: the line verbatim as body text, no inline markup read. */
  function CodePara(text: string, lang: string): (p: Para)
    ensures p.role == CodeRole && p.style == "Normal"
    ensures p.content == Verbatim(text) && p.reset == BodyReset(ResolveFont(lang))
  {
    FormatBody(NewPara(CodeRole, Verbatim(text)), lang)
  }

  /**
    The paragraph `flush_buffer` writes for the joined text: a list
    continuation (list spacing and the indent of the last list level) when
    the buffer was collected as one, else a body paragraph.
   */
  function BufferPara(text: string, continuation: bool, listLevel: nat, lang: string): (p: Para)
    ensures p.style == "Normal" && p.role == (if continuation then ContinuationRole else BodyRole)
    ensures p.content == Markdown(text, ResolveFont(lang))
    ensures continuation ==> p.reset == NoReset && p.spaceBefore == Some(0) && p.spaceAfter == Some(6)
    ensures continuation ==> p.firstLineIndent == Some(-4)
    ensures continuation ==> if IsRtl(lang) then p.rightIndent == Some(15 + 5 * listLevel) else p.leftIndent == Some(15 + 5 * listLevel)
    ensures !continuation ==> p == FormatBody(NewPara(BodyRole, Markdown(text, ResolveFont(lang))), lang)
  {
    var c := Markdown(text, ResolveFont(lang));
    if continuation then
      ApplyRtl(ListIndent(ListSpacing(NewPara(ContinuationRole, c), lang), listLevel, lang), lang)
    else FormatBody(NewPara(BodyRole, c), lang)
  }

  /** A code line shows exactly its text. */
  lemma CodeParaText(text: string, lang: string)
    ensures RunsText(Runs(CodePara(text, lang))) == text
  {
    RunsSpell(CodePara(text, lang));
  }

  /** The paragraph of a flushed buffer spells the joined text without its inline markup. */
  lemma BufferParaText(text: string, continuation: bool, listLevel: nat, lang: string)
    ensures RunsText(Runs(BufferPara(text, continuation, listLevel, lang))) == InlineSpans.Clean(Strip(text))
  {
    RunsSpell(BufferPara(text, continuation, listLevel, lang));
  }

  /** A body paragraph keeps no bold: the body pass resets every run after the inline runs are added. */
  lemma BodyHasNoBold(text: string, lang: string)
    ensures forall r :: r in Runs(BufferPara(text, false, 0, lang)) ==> !r.bold
  {
    ResetRuns(BufferPara(text, false, 0, lang));
  }

  // ---------------------------------------------------------------------
  // Tables
  // ---------------------------------------------------------------------

  /** `[c.strip() for c in row.strip("|").split("|")]` */
  function Cells(row: string): seq<string> {
    var parts := Split(StripChars(row, {'|'}), "|");
    seq(|parts|, k requires 0 <= k < |parts| => Strip(parts[k]))
  }

  /**
    A row has one cell more than it has inner '|' separators once its outer
    '|' characters are stripped, and each cell is trimmed and free of '|'.
   */
  lemma CellsShape(row: string)
    ensures |Cells(row)| == multiset(StripChars(row, {'|'}))['|'] + 1
    ensures forall k :: 0 <= k < |Cells(row)| ==> Trimmed(Cells(row)[k]) && '|' !in Cells(row)[k]
  {
    var inner := StripChars(row, {'|'});
    var parts := Split(inner, "|");
    assert "|" == ['|'];
    SplitCount(inner, '|');
    forall k | 0 <= k < |parts| ensures '|' !in Strip(parts[k]) {
      NoCharInStrip(parts[k], '|');
    }
  }

  /**
    The cells are the pieces between the row's inner '|' separators, each
    stripped: joined back with '|' the pieces give the row without its outer
    '|' characters.
   */
  lemma CellsArePieces(row: string) returns (parts: seq<string>)
    ensures Join("|", parts) == StripChars(row, {'|'})
    ensures |parts| == |Cells(row)|
    ensures forall k :: 0 <= k < |parts| ==> '|' !in parts[k] && Cells(row)[k] == Strip(parts[k])
  {
    var inner := StripChars(row, {'|'});
    parts := Split(inner, "|");
    JoinSplit(inner, "|");
    assert "|" == ['|'];
    forall k | 0 <= k < |parts| ensures '|' !in parts[k] {
      NoCharInStrip(parts[k], '|');
    }
  }

  /** One data row of the table: the header's width, cells past it dropped, missing ones empty. */
  function TableRow(row: seq<string>, cols: nat): (r: seq<string>)
    ensures |r| == cols
    ensures forall c :: 0 <= c < cols ==> r[c] == (if c < |row| then Strip(row[c]) else "")
  {
    seq(cols, c requires 0 <= c < cols => if c < |row| then Strip(row[c]) else "")
  }

  /**
    `insert_simple_table`: a "Table Grid" table whose header row holds the stripped header
    cells in bold, then every data row cut to its width; every cell's run is in the
    language's font at 11 points.
   */
  function SimpleTable(header: seq<string>, data: seq<seq<string>>, lang: string): (t: Table)
    ensures |t.header| == |header| && |t.rows| == |data|
    ensures forall i :: 0 <= i < |header| ==> t.header[i] == Strip(header[i])
    ensures forall k :: 0 <= k < |data| ==> t.rows[k] == TableRow(data[k], |header|)
    ensures t.style == "Table Grid" && t.headerBold
    ensures t.font == ResolveFont(lang) && t.cellSize == 11
  {
    Table(seq(|header|, i requires 0 <= i < |header| => Strip(header[i])),
          seq(|data|, k requires 0 <= k < |data| => TableRow(data[k], |header|)),
          "Table Grid", true, ResolveFont(lang), 11)
  }

  // ---------------------------------------------------------------------
  // Line patterns
  // ---------------------------------------------------------------------

  /** `CODE_FENCE_RE.match(line.strip())`: the stripped line opens with three backquotes. */
  predicate IsFence(line: string) { StartsWith(Strip(line), "```") }

  /**
    `TABLE_ROW_RE` = `^\|(.+)\|\s*$`: a '|' first; only blanks may follow the
    closing '|', so it is the last non-blank character; at least one
    character, none a newline, between the two.
   */
  predicate IsTableRow(line: string) {
    var e := TrimEnd(line, 0, |line|);
    |line| > 0 && line[0] == '|' && e >= 3 && line[e - 1] == '|' && Classifier.NoNewlineIn(line, 1, e - 1)
  }

  predicate SepChar(c: char) { IsSpace(c) || c == '-' || c == ':' || c == '|' }

  /** `TABLE_SEP_RE` = `^\|[\s\-:|]+\|\s*$`, closed the same way, only blanks, '-', ':' and '|' between. */
  predicate IsTableSep(row: string) {
    var e := TrimEnd(row, 0, |row|);
    |row| > 0 && row[0] == '|' && e >= 3 && row[e - 1] == '|' && forall x :: 1 <= x < e - 1 ==> SepChar(row[x])
  }

  /** `^\s*(---|\*\*\*)\s*$` */
  predicate IsRule(line: string) { Strip(line) == "---" || Strip(line) == "***" }

  /** `BLOCKQUOTE_RE` = `^>\s?(.*)`: after '>' and at most one blank, up to the first newline. */
  function QuoteText(line: string): (r: Option<string>)
    ensures r.Some? <==> |line| > 0 && line[0] == '>'
    ensures r.Some? ==> NoNewline(r.value)
    ensures r.Some? ==>
      var k := if |line| > 1 && IsSpace(line[1]) then 2 else 1;
      k + |r.value| <= |line| && r.value == line[k..k + |r.value|]
      && (k + |r.value| == |line| || line[k + |r.value|] == '\n')
  {
    if |line| > 0 && line[0] == '>' then
      var k := if |line| > 1 && IsSpace(line[1]) then 2 else 1;
      InlineSpans.CharFromFacts(line, k, '\n');
      var e := match InlineSpans.CharFrom(line, k, '\n') case Some(j) => j case None => |line|;
      assert forall x :: 0 <= x < e - k ==> line[k..e][x] == line[k + x];
      Some(line[k..e])
    else None
  }

  /** `^([a-zA-Z])([\)\.])\s+(.*\S)\s*$` on the stripped line: the label and the text. */
  function MatchAlpha(s: string): (r: Option<(string, string)>)
    ensures r.Some? ==> |s| >= 2 && r.value.0 == s[..2] && IsLetter(s[0]) && s[1] in {')', '.'}
    ensures r.Some? ==> Classifier.StructuredText(r.value.1)
  {
    if |s| >= 2 && IsLetter(s[0]) && (s[1] == ')' || s[1] == '.') then
      match Classifier.SpacedTextAt(s, 2)
      case Some(sp) => Some((s[..2], s[sp.start..sp.end]))
      case None => None
    else None
  }

  /** What the lettered-item regex matches is its label, blanks, the text and blanks. */
  lemma MatchAlphaShape(s: string) returns (w1: string, w2: string)
    requires MatchAlpha(s).Some?
    ensures var m := MatchAlpha(s).value;
      |w1| >= 1 && AllSpace(w1) && AllSpace(w2) && s == m.0 + w1 + m.1 + w2
  {
    var sp := Classifier.SpacedTextAt(s, 2).value;
    assert MatchAlpha(s).value == (s[..2], s[sp.start..sp.end]);
    w1, w2 := Classifier.CutAround(s, 2, sp.start, sp.end);
  }

  /** A letter with ')' or '.', blanks and a one-line trimmed text are matched as that label and text. */
  lemma AlphaMatch(tag: string, w: string, t: string)
    requires |tag| == 2 && IsLetter(tag[0]) && tag[1] in {')', '.'}
    requires |w| >= 1 && AllSpace(w) && Classifier.StructuredText(t)
    ensures MatchAlpha(tag + w + t) == Some((tag, t))
  {
    var l := tag + w + t;
    assert l[..2] == tag;
    assert l[2 + |w|..] == t;
    assert forall j :: 2 <= j < 2 + |w| ==> l[j] == w[j - 2];
    Classifier.SpacedTextOf(l, 2, 2 + |w|);
    assert l[2 + |w|..|l|] == t;
  }

  // ---------------------------------------------------------------------
  // List lines
  // ---------------------------------------------------------------------

  /** The first index at or after `i` that is neither a space nor a tab. */
  function SkipBlanks(s: string, i: nat): (j: nat)
    requires i <= |s|
    ensures i <= j <= |s| && (forall k :: i <= k < j ==> s[k] in {' ', '\t'}) && (j < |s| ==> s[j] !in {' ', '\t'})
    decreases |s| - i
  {
    if i < |s| && s[i] in {' ', '\t'} then SkipBlanks(s, i + 1) else i
  }

  /** Number of leading spaces and tabs: `len(raw) - len(raw.lstrip(" \t"))`. */
  function LeadingBlanks(s: string): nat { SkipBlanks(s, 0) }

  /** Width of a run of spaces and tabs once each tab is four spaces. */
  function Width(s: string): nat {
    if s == [] then 0 else (if s[0] == '\t' then 4 else 1) + Width(s[1..])
  }

  /** The nesting level of a list line: half its indentation width, tabs as four spaces, at most 2. */
  function ListLevel(raw: string): (level: nat)
    ensures level <= 2
    ensures var w := Width(raw[..LeadingBlanks(raw)]); level == (if w / 2 < 2 then w / 2 else 2)
  {
    var w := Width(raw[..LeadingBlanks(raw)]);
    if w / 2 < 2 then w / 2 else 2
  }

  /** `line.rstrip("\n")` with its leading spaces and tabs, then its blanks, taken off. */
  function ListText(line: string): (r: string)
    ensures Trimmed(r)
  {
    var raw := RStripChar(line, '\n');
    Strip(raw[LeadingBlanks(raw)..])
  }

  /** The nesting level of a list line. */
  function LineLevel(line: string): nat { ListLevel(RStripChar(line, '\n')) }

  /** A piece of a split bullet with a leading "- " taken off. */
  function DropDash(part: string): string {
    if StartsWith(part, "- ") then Strip(part[2..]) else part
  }

  /**
    `[p.strip() for p in parts if p.strip()]`: every piece that is not blank
    gives its stripped self, and every item kept is one of those.
   */
  function Pieces(parts: seq<string>): (r: seq<string>)
    ensures |r| <= |parts|
    ensures forall k :: 0 <= k < |r| ==> Strip(r[k]) == r[k] && r[k] != []
    ensures forall k :: 0 <= k < |parts| && Strip(parts[k]) != [] ==> Strip(parts[k]) in r
  {
    if parts == [] then []
    else
      var p := Strip(parts[0]);
      assert Strip(p) == p by { StripOfTrimmed(p); }
      assert forall k :: 1 <= k < |parts| ==> parts[k] == parts[1..][k - 1];
      Kept(parts[0]) + Pieces(parts[1..])
  }

  /** What one piece contributes: its stripped self, unless that is empty. */
  function Kept(part: string): seq<string> {
    if Strip(part) != [] then [Strip(part)] else []
  }

  /** Filtering the pieces distributes over concatenation. */
  lemma {:induction false} PiecesConcat(a: seq<string>, b: seq<string>)
    ensures Pieces(a + b) == Pieces(a) + Pieces(b)
    decreases |a|
  {
    if a == [] {
      assert a + b == b;
    } else {
      var ab := a + b;
      assert ab[0] == a[0];
      assert ab[1..] == a[1..] + b;
      PiecesConcat(a[1..], b);
      calc {
        Pieces(ab);
        Kept(a[0]) + Pieces(a[1..] + b);
        Kept(a[0]) + (Pieces(a[1..]) + Pieces(b));
        (Kept(a[0]) + Pieces(a[1..])) + Pieces(b);
      }
    }
  }

  /** One piece gives its stripped self exactly when it is not blank. */
  lemma PiecesOne(p: string)
    ensures Pieces([p]) == if Strip(p) != [] then [Strip(p)] else []
  {
    assert [p][1..] == [];
    assert Pieces([p]) == Kept(p) + [];
  }

  /**
    The pieces keep their order: a piece in the middle contributes its
    stripped self, exactly when it is not blank, between the pieces before
    and after it.
   */
  lemma PiecesInOrder(a: seq<string>, p: string, b: seq<string>)
    ensures Pieces(a + [p] + b) == Pieces(a) + (if Strip(p) != [] then [Strip(p)] else []) + Pieces(b)
  {
    PiecesConcat(a + [p], b);
    PiecesConcat(a, [p]);
    PiecesOne(p);
  }


  /**
    The items of a bullet line's content: when it holds " - ", one per
    non-empty stripped piece (a piece's own "- " dropped), else the content.
   */
  function BulletParts(content: string): seq<string> {
    if Contains(content, " - ") then
      var ps := Pieces(Split(content, " - "));
      seq(|ps|, k requires 0 <= k < |ps| => DropDash(ps[k]))
    else [content]
  }

  /**
    A bullet line's items: at least one, each trimmed and non-empty; a line
    without " - " is its one item.
   */
  lemma BulletItems(content: string)
    requires Trimmed(content) && content != []
    ensures |BulletParts(content)| >= 1
    ensures !Contains(content, " - ") ==> BulletParts(content) == [content]
    ensures forall k :: 0 <= k < |BulletParts(content)| ==> Trimmed(BulletParts(content)[k]) && BulletParts(content)[k] != []
  {
    if Contains(content, " - ") {
      var parts := Split(content, " - ");
      var ps := Pieces(parts);
      var i := Find(content, " - ").value;
      SplitAt(content, " - ");
      assert content[i..i + 3][0] == content[i] && IsSpace(' ');
      assert i != 0 by { assert !IsSpace(content[0]); }
      assert !AllSpace(parts[0]) by {
        assert parts[0] == content[..i] && parts[0][0] == content[0];
      }
      assert Strip(parts[0]) in ps;
      forall k | 0 <= k < |ps|
        ensures Trimmed(DropDash(ps[k])) && DropDash(ps[k]) != []
      {
        DropDashTrimmed(ps[k]);
      }
    }
  }

  /** The content of a trimmed `- ` line is trimmed, not empty, and gives at least one item. */
  lemma BulletContent(s: string)
    ensures Trimmed(s) && StartsWith(s, "- ") ==>
      var c := Strip(s[2..]); Trimmed(c) && c != [] && |BulletParts(c)| >= 1
  {
    if Trimmed(s) && StartsWith(s, "- ") {
      assert s[..2][1] == s[1] && IsSpace(' ');
      var rest := s[2..];
      assert |s| > 2;
      assert rest[|rest| - 1] == s[|s| - 1];
      assert !AllSpace(rest);
      BulletItems(Strip(rest));
    }
  }

  lemma DropDashTrimmed(p: string)
    requires Strip(p) == p && p != []
    ensures Trimmed(DropDash(p)) && DropDash(p) != []
  {
    if StartsWith(p, "- ") {
      assert Trimmed(p) && p[1] == ' ' && IsSpace(' ');
      var rest := p[2..];
      assert rest[|rest| - 1] == p[|p| - 1];
      assert !AllSpace(rest);
    }
  }

  /** The paragraphs of a bullet line's items, one each and in order. */
  function BulletParas(parts: seq<string>, level: nat, lang: string): (ps: seq<Block>)
    ensures |ps| == |parts|
    ensures forall k :: 0 <= k < |parts| ==> ps[k] == Par(BulletPara(parts[k], level, lang))
  {
    seq(|parts|, k requires 0 <= k < |parts| => Par(BulletPara(parts[k], level, lang)))
  }
}
