/**
  `GoogleDocsManager.upload_markdown_content`: the Markdown lines become one
  text inserted at index 1 and a list of style requests over 1-based ranges
  of it. `Upload` holds the loop's locals as a value and `LineStepped` says
  what one line does to them; the class `Uploader` keeps them in fields and
  its methods are proved to make exactly those steps. The requests are
  values: nothing is sent.
 */
module GoogleDocs {
  import opened Wrappers
  import opened Text
  import opened InlineSpans

  /** `RTL_LANGS` */
  const RtlLangs: set<string> := {"ar", "he", "fa", "ur"}

  /** The block kinds the loop records: 'CODE_BLOCK', 'HEADING', 'BLOCKQUOTE', 'NORMAL', 'BULLET', 'NUMBER', 'BULLET_CONT'. */
  datatype BlockKind = CodeBlock | Heading | Blockquote | Normal | Bullet | Number | BulletCont

  /** An entry of `formats`: `[start, end)` in document indices, the kind, the heading level and whether it follows a heading. */
  datatype Format = Format(start: nat, end: nat, kind: BlockKind, level: nat, consecutive: bool)

  /** An entry of `inline_formats`: `[start, end)` in document indices and the style of the match. */
  datatype InlineFormat = InlineFormat(start: nat, end: nat, style: Style)

  /**
    The loop's locals: `full_text`, `formats`, `inline_formats`,
    `current_offset`, `in_code_block`, `prev_type` and `start`, which is
    unbound (`None`) until the first line that is neither blank nor code.
   */
  datatype Upload = Upload(text: string, formats: seq<Format>, inlines: seq<InlineFormat>, offset: nat,
                           inCode: bool, prev: Option<BlockKind>, start: Option<nat>)

  /** What makes the loop raise: a code line read before `start` was ever assigned. */
  datatype UploadError = StartUnbound

  const UploadInitial: Upload := Upload("", [], [], 0, false, None, None)

  // ---------------------------------------------------------------------
  // One line
  // ---------------------------------------------------------------------

  /** The ranges `_strip_inline_markers` returns, shifted by the block's start. */
  function Shifted(start: nat, rs: seq<Range>): (gs: seq<InlineFormat>)
    ensures |gs| == |rs|
    ensures forall k :: 0 <= k < |rs| ==> gs[k] == InlineFormat(start + rs[k].start, start + rs[k].end, rs[k].style)
  {
    if rs == [] then []
    else Shifted(start, rs[..|rs| - 1]) + [InlineFormat(start + rs[|rs| - 1].start, start + rs[|rs| - 1].end, rs[|rs| - 1].style)]
  }

  /**
    A block with inline markup: the markup-free `raw` and a newline are
    appended at `start`, recorded as one format of `kind`, with the inline
    ranges shifted into the document.
   */
  function Emitted(u: Upload, start: nat, raw: string, kind: BlockKind, level: nat, consecutive: bool): Upload {
    Appended(u, start, Clean(raw), Ranges(raw), kind, level, consecutive)
  }

  /** The same block, given its markup-free text `cl` and its ranges `rs` into it. */
  function Appended(u: Upload, start: nat, cl: string, rs: seq<Range>, kind: BlockKind, level: nat, consecutive: bool): Upload {
    var content := cl + "\n";
    u.(text := u.text + content, formats := u.formats + [Format(start, start + |content|, kind, level, consecutive)],
       inlines := u.inlines + Shifted(start, rs), offset := u.offset + |content|,
       prev := Some(kind), start := Some(start))
  }

  /** `line.split(" ")[0]`: the heading's marker, whose length is its level. */
  function HeadingLevel(line: string): nat { |Split(line, " ")[0]| }

  /** `" ".join(line.split(" ")[1:])` */
  function HeadingText(line: string): string { Join(" ", Split(line, " ")[1..]) }

  /** `line.startswith("  ") or line.startswith("\t")` */
  predicate Indented(line: string) { StartsWith(line, "  ") || StartsWith(line, "\t") }

  /** A line that is not a heading, a quote, a rule, a bullet or a numbered item: a continuation or plain prose. */
  function ProseKind(line: string, prev: Option<BlockKind>): BlockKind {
    if Indented(line) && (prev == Some(Bullet) || prev == Some(Number)) then BulletCont
    else if prev == Some(BulletCont) && Indented(line) then BulletCont
    else Normal
  }

  /** What a non-blank line outside a code block records: the text `_strip_inline_markers` reads, the kind and the heading facts. */
  datatype Block = Block(raw: string, kind: BlockKind, level: nat, consecutive: bool)

  /**
    The classification, in the order the loop tries it: a heading, a quote,
    a rule (`None`: it is written as it is), a bullet, a numbered item,
    then a continuation or prose.
   */
  function Classified(line: string, prev: Option<BlockKind>): Option<Block>
    requires line != []
  {
    if StartsWith(line, "#") then Some(Block(HeadingText(line), Heading, HeadingLevel(line), prev == Some(Heading)))
    else if StartsWith(line, ">") then Some(Block(Strip(LStripChars(line, {'>'})), Blockquote, 0, false))
    else if StartsWith(line, "---") || StartsWith(line, "***") then None
    else if StartsWith(line, "- ") then Some(Block(line[2..], Bullet, 0, false))
    else if Strip(line) != [] && IsDigit(line[0]) && Contains(line, ". ") then Some(Block(AfterFirst(line, ". "), Number, 0, false))
    else Some(Block(Strip(line), ProseKind(line, prev), 0, false))
  }

  /** A line outside a code block, after `rstrip`: a blank one changes nothing; any other is a block at `1 + current_offset`. */
  function PlainStepped(u: Upload, line: string): Upload {
    if line == [] then u
    else
      var start := 1 + u.offset;
      match Classified(line, u.prev)
      case None =>
        u.(text := u.text + "---\n", formats := u.formats + [Format(start, start + 4, Normal, 0, false)],
           offset := u.offset + 4, prev := Some(Normal), start := Some(start))
      case Some(b) => Emitted(u, start, b.raw, b.kind, b.level, b.consecutive)
  }

  /**
    One line: a fence toggles the code block; a code line is appended with
    its newline under the `start` of the last block before it, and raises
    when there is none; any other line is read after `rstrip`.
   */
  function LineStepped(u: Upload, line: string): Result<Upload, UploadError> {
    if StartsWith(Strip(line), "```") then Success(u.(inCode := !u.inCode))
    else if u.inCode then
      match u.start
      case None => Failure(StartUnbound)
      case Some(s) =>
        var content := line + "\n";
        Success(u.(text := u.text + content, formats := u.formats + [Format(s, s + |content|, CodeBlock, 0, false)],
                   offset := u.offset + |content|, prev := Some(CodeBlock)))
    else Success(PlainStepped(u, RStrip(line)))
  }

  /** The locals after the loop has read `lines`, or the error it raised. */
  function UploadAfter(lines: seq<string>): Result<Upload, UploadError> {
    if lines == [] then Success(UploadInitial)
    else
      match UploadAfter(lines[..|lines| - 1])
      case Failure(e) => Failure(e)
      case Success(u) => LineStepped(u, lines[|lines| - 1])
  }

  // ---------------------------------------------------------------------
  // Requests
  // ---------------------------------------------------------------------

  datatype Alignment = Start | Center | End | Justified
  datatype Colour = Grey | Blue
  datatype Preset = DiscCircleSquare | DecimalAlphaRoman

  /** The paragraph-style fields a request sets (`None` where it leaves one alone); sizes in points, line spacing in percent. */
  datatype ParaStyle = ParaStyle(named: Option<string>, rightToLeft: bool, alignment: Option<Alignment>,
                                 spaceBelow: Option<nat>, spaceAbove: Option<nat>, lineSpacing: Option<nat>,
                                 indentStart: Option<nat>)

  /** The text-style fields a request sets. */
  datatype TextStyle = TextStyle(font: Option<string>, sizePt: Option<nat>, bold: bool, italic: bool,
                                 colour: Option<Colour>, background: bool, underline: bool, link: Option<string>)

  const NoPara: ParaStyle := ParaStyle(None, false, None, None, None, None, None)
  const NoText: TextStyle := TextStyle(None, None, false, false, None, false, false, None)

  /** The requests of one `batchUpdate`, with ranges `[start, end)` in document indices. */
  datatype Request =
    | InsertText(index: nat, text: string)
    | UpdateParagraphStyle(start: nat, end: nat, para: ParaStyle)
    | UpdateTextStyle(start: nat, end: nat, textStyle: TextStyle)
    | CreateBullets(start: nat, end: nat, preset: Preset)

  /** The document font of a language. */
  function DocsFont(lang: string): string {
    if lang == "zh" then "Noto Serif SC" else if lang == "ar" then "Amiri" else "Times New Roman"
  }

  /** The whole-text requests: the font at 12pt, then the direction, alignment and spacing of every paragraph. */
  function BaseRequests(total: nat, lang: string): seq<Request> {
    var para := if lang in RtlLangs then NoPara.(rightToLeft := true, alignment := Some(End), spaceBelow := Some(8), spaceAbove := Some(0), lineSpacing := Some(130))
                else NoPara.(alignment := Some(Justified), spaceBelow := Some(10), spaceAbove := Some(0), lineSpacing := Some(115));
    [UpdateTextStyle(1, 1 + total, NoText.(font := Some(DocsFont(lang)), sizePt := Some(12))),
     UpdateParagraphStyle(1, 1 + total, para)]
  }

  /** `namedStyleType` of a heading. */
  function NamedStyle(level: nat): string {
    if level == 1 then "TITLE"
    else if level == 0 then "HEADING_-1"
    else "HEADING_" + NatToString(if level - 1 < 6 then level - 1 else 6)
  }

  /** (space below, space above) of a heading. */
  function HeadingSpaces(level: nat, consecutive: bool): (nat, nat) {
    if consecutive then (4, 6) else if level == 1 then (36, 0) else (8, 36)
  }

  /** The requests one recorded block gets, in the order the loop appends them. */
  function FormatRequests(f: Format, lang: string): seq<Request> {
    var rtl := lang in RtlLangs;
    var own :=
      match f.kind
      case Heading =>
        var sp := HeadingSpaces(f.level, f.consecutive);
        var align := if f.level == 1 then Center else if rtl then End else Start;
        [UpdateParagraphStyle(f.start, f.end, NoPara.(named := Some(NamedStyle(f.level)), alignment := Some(align),
                                                       spaceBelow := Some(sp.0), spaceAbove := Some(sp.1))),
         UpdateTextStyle(f.start, f.end, NoText.(font := Some(DocsFont(lang))))]
      case Blockquote =>
        [UpdateParagraphStyle(f.start, f.end, NoPara.(indentStart := Some(36), spaceBelow := Some(4), spaceAbove := Some(4))),
         UpdateTextStyle(f.start, f.end, NoText.(italic := true, colour := Some(Grey)))]
      case BulletCont => [UpdateParagraphStyle(f.start, f.end, NoPara.(indentStart := Some(36)))]
      case Bullet => [CreateBullets(f.start, f.end, DiscCircleSquare)]
      case Number => [CreateBullets(f.start, f.end, DecimalAlphaRoman)]
      case _ => [];
    own + (if rtl && (f.kind == Bullet || f.kind == Number)
           then [UpdateParagraphStyle(f.start, f.end, NoPara.(rightToLeft := true, alignment := Some(End)))] else [])
  }

  /** Step 3, over the blocks in document order. */
  function AllFormatRequests(fs: seq<Format>, lang: string): seq<Request> {
    if fs == [] then [] else AllFormatRequests(fs[..|fs| - 1], lang) + FormatRequests(fs[|fs| - 1], lang)
  }

  /** The text style of an inline match: bold and italic flags, Courier New on grey for code, an underlined blue link. */
  function InlineStyle(st: Style): TextStyle {
    match st
    case BoldItalic => NoText.(bold := true, italic := true)
    case Bold => NoText.(bold := true)
    case Italic => NoText.(italic := true)
    case Code => NoText.(font := Some("Courier New"), background := true)
    case Link(url) => if url == [] then NoText else NoText.(link := Some(url), colour := Some(Blue), underline := true)
  }

  /** Step 4: one request per inline range whose style sets a field. */
  function InlineRequests(gs: seq<InlineFormat>): seq<Request> {
    if gs == [] then []
    else
      var g := gs[|gs| - 1];
      InlineRequests(gs[..|gs| - 1]) + (if InlineStyle(g.style) == NoText then [] else [UpdateTextStyle(g.start, g.end, InlineStyle(g.style))])
  }

  /** The request list: the text, the whole-text styles, the block styles, the inline styles. */
  function Requests(u: Upload, lang: string): seq<Request> {
    [InsertText(1, u.text)] + BaseRequests(|u.text|, lang) + AllFormatRequests(u.formats, lang) + InlineRequests(u.inlines)
  }

  /** What `upload_markdown_content` sends for `lines`, or the error it raises first. */
  function UploadRequests(lines: seq<string>, lang: string): Result<seq<Request>, UploadError> {
    match UploadAfter(lines)
    case Failure(e) => Failure(e)
    case Success(u) => Success(Requests(u, lang))
  }

  // ---------------------------------------------------------------------
  // The loop, in place
  // ---------------------------------------------------------------------

  /** The `for fs, fe, style in fmt_ranges` loop: each range moved by the block's start. */
  method ShiftRanges(blockStart: nat, ranges: seq<Range>) returns (out: seq<InlineFormat>)
    ensures out == Shifted(blockStart, ranges)
  {
    out := [];
    for k := 0 to |ranges|
      invariant out == Shifted(blockStart, ranges[..k])
    {
      assert ranges[..k + 1][..k] == ranges[..k];
      out := out + [InlineFormat(blockStart + ranges[k].start, blockStart + ranges[k].end, ranges[k].style)];
    }
    assert ranges[..|ranges|] == ranges;
  }

  class Uploader {
    var fullText: string
    var formats: seq<Format>
    var inlineFormats: seq<InlineFormat>
    var currentOffset: nat
    var inCodeBlock: bool
    var prevType: Option<BlockKind>
    var start: Option<nat>

    function State(): Upload
      reads this
    {
      Upload(fullText, formats, inlineFormats, currentOffset, inCodeBlock, prevType, start)
    }

    constructor()
      ensures State() == UploadInitial
    {
      fullText, formats, inlineFormats, currentOffset := "", [], [], 0;
      inCodeBlock, prevType, start := false, None, None;
    }

    /** One block with inline markup, through `_strip_inline_markers`. */
    method AddBlock(blockStart: nat, raw: string, kind: BlockKind, level: nat, consecutive: bool)
      modifies this
      ensures State() == Emitted(old(State()), blockStart, raw, kind, level, consecutive)
    {
      ghost var u := State();
      var clean, ranges := StripInlineMarkers(raw);
      var shifted := ShiftRanges(blockStart, ranges);
      var content := clean + "\n";
      fullText, formats, inlineFormats, currentOffset, prevType, start :=
        fullText + content, formats + [Format(blockStart, blockStart + |content|, kind, level, consecutive)],
        inlineFormats + shifted, currentOffset + |content|, Some(kind), Some(blockStart);
      assert State() == Appended(u, blockStart, clean, ranges, kind, level, consecutive);
    }

    /** A line outside a code block, already right-stripped. */
    method Plain(line: string)
      modifies this
      ensures State() == PlainStepped(old(State()), line)
    {
      if line == [] {
        return;
      }
      ghost var u := State();
      var blockStart := 1 + currentOffset;
      var b := Classified(line, prevType);
      if b.None? {
        fullText := fullText + "---\n";
        formats := formats + [Format(blockStart, blockStart + 4, Normal, 0, false)];
        currentOffset := currentOffset + 4;
        prevType := Some(Normal);
        start := Some(blockStart);
      } else {
        var v := b.value;
        assert PlainStepped(u, line) == Emitted(u, blockStart, v.raw, v.kind, v.level, v.consecutive);
        AddBlock(blockStart, v.raw, v.kind, v.level, v.consecutive);
      }
    }

    /** The body of `for line in lines`; `false` where the source raises. */
    method ProcessLine(line: string) returns (ok: bool)
      modifies this
      ensures ok == LineStepped(old(State()), line).Success?
      ensures ok ==> State() == LineStepped(old(State()), line).value
    {
      if StartsWith(Strip(line), "```") {
        inCodeBlock := !inCodeBlock;
        return true;
      }
      if inCodeBlock {
        if start.None? {
          return false;
        }
        var content := line + "\n";
        fullText := fullText + content;
        formats := formats + [Format(start.value, start.value + |content|, CodeBlock, 0, false)];
        currentOffset := currentOffset + |content|;
        prevType := Some(CodeBlock);
        return true;
      }
      Plain(RStrip(line));
      return true;
    }

    /** Steps 1 to 4: the request list built from the locals. */
    method BuildRequests(lang: string) returns (requests: seq<Request>)
      ensures requests == Requests(State(), lang)
    {
      requests := [InsertText(1, fullText)] + BaseRequests(|fullText|, lang);
      var head := requests;
      for k := 0 to |formats|
        invariant requests == head + AllFormatRequests(formats[..k], lang)
      {
        assert formats[..k + 1][..k] == formats[..k];
        requests := requests + FormatRequests(formats[k], lang);
      }
      assert formats[..|formats|] == formats;
      head := requests;
      for k := 0 to |inlineFormats|
        invariant requests == head + InlineRequests(inlineFormats[..k])
      {
        assert inlineFormats[..k + 1][..k] == inlineFormats[..k];
        var g := inlineFormats[k];
        var style := InlineStyle(g.style);
        if style != NoText {
          requests := requests + [UpdateTextStyle(g.start, g.end, style)];
        }
      }
      assert inlineFormats[..|inlineFormats|] == inlineFormats;
    }
  }

  /** Once a line has raised, the whole upload has. */
  lemma {:induction false} FailureSticks(lines: seq<string>, i: nat)
    requires i <= |lines| && UploadAfter(lines[..i]).Failure?
    ensures UploadAfter(lines).Failure?
    decreases |lines| - i
  {
    if i < |lines| {
      assert lines[..i + 1][..i] == lines[..i];
      FailureSticks(lines, i + 1);
    } else {
      assert lines[..i] == lines;
    }
  }

  /** `upload_markdown_content(doc_id, lines, lang)`: the request list it would send, or the error it raises. */
  method UploadMarkdownContent(lines: seq<string>, lang: string) returns (r: Result<seq<Request>, UploadError>)
    ensures r == UploadRequests(lines, lang)
  {
    var up := new Uploader();
    for i := 0 to |lines|
      invariant UploadAfter(lines[..i]).Success? && up.State() == UploadAfter(lines[..i]).value
    {
      assert lines[..i + 1][..i] == lines[..i];
      var ok := up.ProcessLine(lines[i]);
      if !ok {
        assert UploadAfter(lines[..i + 1]) == LineStepped(UploadAfter(lines[..i]).value, lines[i]);
        FailureSticks(lines, i + 1);
        assert UploadAfter(lines).error == StartUnbound;
        return Failure(StartUnbound);
      }
    }
    assert lines[..|lines|] == lines;
    var requests := up.BuildRequests(lang);
    r := Success(requests);
  }
}
