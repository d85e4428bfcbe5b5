/**
  What `upload_markdown_content` guarantees, proved about the step functions
  of `GoogleDocs`: every recorded range lies inside the inserted text, block
  ranges are ordered and end at their newline, each inline range covers
  exactly its match's text, and the request list has the documented order.
 */
module GoogleDocsProps {
  import opened Wrappers
  import opened Text
  import opened InlineSpans
  import opened GoogleDocs

  // ---------------------------------------------------------------------
  // The loop's invariant
  // ---------------------------------------------------------------------

  /**
    Every block but a code block lies inside the text (document index `i`
    is `text[i - 1]`) and ends with its newline. Code blocks are left out:
    their ranges reuse the `start` of an earlier block.
   */
  predicate BlocksInText(fs: seq<Format>, text: string) {
    forall k :: 0 <= k < |fs| && fs[k].kind != CodeBlock ==>
      1 <= fs[k].start < fs[k].end <= 1 + |text| && text[fs[k].end - 2] == '\n'
  }

  /** Blocks other than code blocks come in document order and do not overlap. */
  predicate BlocksInOrder(fs: seq<Format>) {
    forall i, j :: 0 <= i < j < |fs| && fs[i].kind != CodeBlock && fs[j].kind != CodeBlock ==> fs[i].end <= fs[j].start
  }

  /** Every inline range is non-empty and ends at document index `n` or before. */
  predicate InlinesWithin(gs: seq<InlineFormat>, n: nat) {
    forall k :: 0 <= k < |gs| ==> 1 <= gs[k].start < gs[k].end <= n
  }

  /** Between lines: the offset is the text's length and every range recorded so far lies inside the text. */
  predicate UploadSound(u: Upload) {
    |u.text| == u.offset && BlocksInText(u.formats, u.text) && BlocksInOrder(u.formats)
    && InlinesWithin(u.inlines, u.offset)
  }

  lemma BlocksAppend(fs: seq<Format>, text: string, c: string, f: Format)
    requires BlocksInText(fs, text) && BlocksInOrder(fs)
    requires f.kind != CodeBlock ==> f.start == 1 + |text| && f.end == 1 + |text| + |c| && |c| >= 1 && c[|c| - 1] == '\n'
    ensures BlocksInText(fs + [f], text + c) && BlocksInOrder(fs + [f])
  {
    var gs, t := fs + [f], text + c;
    forall k | 0 <= k < |gs| && gs[k].kind != CodeBlock
      ensures 1 <= gs[k].start < gs[k].end <= 1 + |t| && t[gs[k].end - 2] == '\n'
    {
      if k < |fs| {
        assert gs[k] == fs[k];
      }
    }
    forall i, j | 0 <= i < j < |gs| && gs[i].kind != CodeBlock && gs[j].kind != CodeBlock
      ensures gs[i].end <= gs[j].start
    {
      if j < |fs| {
        assert gs[i] == fs[i] && gs[j] == fs[j];
      } else {
        assert gs[i] == fs[i];
      }
    }
  }

  lemma InlinesAppend(gs: seq<InlineFormat>, more: seq<InlineFormat>, n: nat, m: nat)
    requires InlinesWithin(gs, n) && InlinesWithin(more, m) && n <= m
    ensures InlinesWithin(gs + more, m)
  {
    forall k | 0 <= k < |gs + more|
      ensures 1 <= (gs + more)[k].start < (gs + more)[k].end <= m
    {
      if k < |gs| {
        assert (gs + more)[k] == gs[k];
      } else {
        assert (gs + more)[k] == more[k - |gs|];
      }
    }
  }

  /** The shifted ranges of a block at `start` end before its newline. */
  lemma ShiftedWithin(start: nat, raw: string)
    requires start >= 1
    ensures InlinesWithin(Shifted(start, Ranges(raw)), start + |Clean(raw)|)
  {
    RangesSound(raw);
  }

  lemma EmittedSound(u: Upload, raw: string, kind: BlockKind, level: nat, consecutive: bool)
    requires UploadSound(u)
    ensures UploadSound(Emitted(u, 1 + u.offset, raw, kind, level, consecutive))
  {
    var start, content := 1 + u.offset, Clean(raw) + "\n";
    BlocksAppend(u.formats, u.text, content, Format(start, start + |content|, kind, level, consecutive));
    ShiftedWithin(start, raw);
    InlinesAppend(u.inlines, Shifted(start, Ranges(raw)), u.offset, start + |Clean(raw)|);
  }

  lemma PlainSound(u: Upload, line: string)
    requires UploadSound(u)
    ensures UploadSound(PlainStepped(u, line))
  {
    if line != [] {
      match Classified(line, u.prev)
      case None =>
        BlocksAppend(u.formats, u.text, "---\n", Format(1 + u.offset, 1 + u.offset + 4, Normal, 0, false));
        InlinesAppend(u.inlines, [], u.offset, u.offset + 4);
      case Some(b) =>
        EmittedSound(u, b.raw, b.kind, b.level, b.consecutive);
    }
  }

  lemma StepSound(u: Upload, line: string)
    requires UploadSound(u)
    ensures LineStepped(u, line).Success? ==> UploadSound(LineStepped(u, line).value)
  {
    if !StartsWith(Strip(line), "```") {
      if u.inCode {
        if u.start.Some? {
          var s := u.start.value;
          var content := line + "\n";
          BlocksAppend(u.formats, u.text, content, Format(s, s + |content|, CodeBlock, 0, false));
          InlinesAppend(u.inlines, [], u.offset, u.offset + |content|);
        }
      } else {
        PlainSound(u, RStrip(line));
      }
    }
  }

  lemma {:induction false} SoundAfter(lines: seq<string>)
    ensures UploadAfter(lines).Success? ==> UploadSound(UploadAfter(lines).value)
    decreases |lines|
  {
    if lines != [] {
      var front := lines[..|lines| - 1];
      SoundAfter(front);
      if UploadAfter(front).Success? {
        StepSound(UploadAfter(front).value, lines[|lines| - 1]);
      }
    }
  }

  // ---------------------------------------------------------------------
  // One block
  // ---------------------------------------------------------------------

  /**
    A block at `1 + current_offset` appends exactly its markup-free text
    and a newline, is recorded over exactly that text, and keeps the inline
    ranges before it, adding one for each match of its text.
   */
  lemma EmittedRule(u: Upload, raw: string, kind: BlockKind, level: nat, consecutive: bool)
    requires |u.text| == u.offset
    ensures var v := Emitted(u, 1 + u.offset, raw, kind, level, consecutive);
      && v.text == u.text + Clean(raw) + "\n" && v.offset == |v.text|
      && v.formats == u.formats + [Format(1 + u.offset, 1 + v.offset, kind, level, consecutive)]
      && |v.inlines| == |u.inlines| + |Matches(raw, 0)|
      && v.inlines[..|u.inlines|] == u.inlines
  {
    var rs := Ranges(raw);
    assert |rs| == |Matches(raw, 0)|;
    SliceBefore(u.inlines, Shifted(1 + u.offset, rs), 0, |u.inlines|);
    AppendAssoc(u.text, Clean(raw), "\n");
  }

  /**
    Each inline range of a block at `1 + current_offset` covers, inside
    that block and before its newline, the text of its match's group, and
    carries the match's style.
   */
  lemma EmittedInlines(u: Upload, raw: string, kind: BlockKind, level: nat, consecutive: bool, k: nat)
    requires |u.text| == u.offset && k < |Matches(raw, 0)|
    ensures var m := Matches(raw, 0)[k];
      LandsAt(Emitted(u, 1 + u.offset, raw, kind, level, consecutive), |u.inlines| + k, 1 + u.offset, m.style, Inner(raw, m))
  {
    var cl, rs, m := Clean(raw), Ranges(raw), Matches(raw, 0)[k];
    RangeK(raw, k);
    AppendedLands(u, cl, rs, kind, level, consecutive, k, Inner(raw, m));
  }

  /**
    Inline range `i` of `v` starts at or after `lo`, ends by the current
    offset, has `style` and covers `inner` (document indices start at 1).
   */
  predicate LandsAt(v: Upload, i: nat, lo: nat, style: Style, inner: string) {
    && i < |v.inlines|
    && var g := v.inlines[i];
    && 1 <= lo <= g.start < g.end <= v.offset && g.end - 1 <= |v.text| && g.style == style
    && v.text[g.start - 1..g.end - 1] == inner
  }

  /** `EmittedInlines` for any clean text and ranges into it. */
  lemma AppendedLands(u: Upload, cl: string, rs: seq<Range>, kind: BlockKind, level: nat, consecutive: bool, k: nat, inner: string)
    requires |u.text| == u.offset
    requires k < |rs| && rs[k].start < rs[k].end <= |cl| && cl[rs[k].start..rs[k].end] == inner
    ensures LandsAt(Appended(u, 1 + u.offset, cl, rs, kind, level, consecutive), |u.inlines| + k, 1 + u.offset, rs[k].style, inner)
  {
    ShiftedLands(u.text, u.inlines, cl, rs, k, inner);
  }

  /** Range `k` of a text holds match `k`'s group inside the clean text, with its style. */
  lemma RangeK(raw: string, k: nat)
    requires k < |Matches(raw, 0)|
    ensures var r := Ranges(raw)[k];
      r.start < r.end <= |Clean(raw)| && r.style == Matches(raw, 0)[k].style
      && Clean(raw)[r.start..r.end] == Inner(raw, Matches(raw, 0)[k])
  {
    RangeAt(raw, 0, Matches(raw, 0), k);
  }

  /** The `k`-th shifted range of a block appended after `text` covers, in the new text, what it covered in the clean text. */
  lemma ShiftedLands(text: string, gs: seq<InlineFormat>, cl: string, rs: seq<Range>, k: nat, inner: string)
    requires k < |rs| && rs[k].start < rs[k].end <= |cl| && cl[rs[k].start..rs[k].end] == inner
    ensures var t, hs := text + cl + "\n", gs + Shifted(1 + |text|, rs);
      |gs| + k < |hs|
      && var g := hs[|gs| + k];
      1 + |text| <= g.start < g.end <= |text| + |cl| + 1 && g.style == rs[k].style
      && t[g.start - 1..g.end - 1] == inner
  {
    var hs := gs + Shifted(1 + |text|, rs);
    assert hs[|gs| + k] == Shifted(1 + |text|, rs)[k];
    InlineLands(text, cl, rs[k], inner);
    assert text + cl + "\n" == text + (cl + "\n");
  }

  /** A range into the clean text, moved past what came before it, covers the same characters of the document text. */
  lemma InlineLands(pre: string, cl: string, r: Range, inner: string)
    requires r.start < r.end <= |cl| && cl[r.start..r.end] == inner
    ensures (pre + (cl + "\n"))[|pre| + r.start..|pre| + r.end] == inner
  {
    SliceAfter(pre, cl + "\n", r.start, r.end);
    assert (cl + "\n")[r.start..r.end] == cl[r.start..r.end];
  }

  /** A heading line splits at its first space: the marker before it gives the level, the rest is the text. */
  lemma HeadingSplit(line: string)
    ensures Contains(line, " ") ==>
      line == line[..HeadingLevel(line)] + " " + HeadingText(line) && !Contains(line[..HeadingLevel(line)], " ")
    ensures !Contains(line, " ") ==> HeadingLevel(line) == |line| && HeadingText(line) == ""
  {
    var f := Find(line, " ");
    if f.Some? {
      var i := f.value;
      var rest := line[i + 1..];
      SplitAt(line, " ");
      ConsParts(line[..i], Split(rest, " "));
      JoinSplit(rest, " ");
      CutTwice(line, i, i + 1);
      assert line[i..i + 1] == " ";
    }
  }

  /** A line outside a code block that is blank once right-stripped adds nothing and leaves `prev_type` alone. */
  lemma BlankLineRule(u: Upload, line: string)
    requires !u.inCode && RStrip(line) == []
    ensures LineStepped(u, line) == Success(u)
  {
    assert Strip(line) == [] by {
      assert AllSpace(line) by {
        forall k | 0 <= k < |line| ensures IsSpace(line[k]) {
          assert TrimEnd(line, 0, |line|) == 0;
        }
      }
    }
  }

  /** Blank lines in a row, outside a code block, change nothing. */
  lemma {:induction false} BlanksChangeNothing(lines: seq<string>, blanks: seq<string>)
    requires UploadAfter(lines).Success? && !UploadAfter(lines).value.inCode
    requires forall k :: 0 <= k < |blanks| ==> RStrip(blanks[k]) == []
    ensures UploadAfter(lines + blanks) == UploadAfter(lines)
    decreases |blanks|
  {
    if blanks == [] {
      assert lines + blanks == lines;
    } else {
      var front := blanks[..|blanks| - 1];
      assert (lines + blanks)[..|lines + blanks| - 1] == lines + front;
      BlanksChangeNothing(lines, front);
      BlankLineRule(UploadAfter(lines).value, blanks[|blanks| - 1]);
    }
  }

  /**
    Headings stay consecutive across blank lines: a heading read after a
    heading-only run of blank lines is recorded as consecutive, and one
    after anything else is not.
   */
  lemma ConsecutiveAcrossBlanks(lines: seq<string>, blanks: seq<string>, heading: string)
    requires UploadAfter(lines).Success? && !UploadAfter(lines).value.inCode
    requires forall k :: 0 <= k < |blanks| ==> RStrip(blanks[k]) == []
    requires !StartsWith(Strip(heading), "```") && StartsWith(RStrip(heading), "#")
    ensures var r := UploadAfter(lines + blanks + [heading]);
      r.Success? && r.value.formats[|r.value.formats| - 1].kind == Heading
      && (r.value.formats[|r.value.formats| - 1].consecutive <==> UploadAfter(lines).value.prev == Some(Heading))
  {
    BlanksChangeNothing(lines, blanks);
    assert (lines + blanks + [heading])[..|lines + blanks|] == lines + blanks;
  }

  /** A rule line is written as the four characters `---\n`, one plain block with no inline range. */
  lemma RuleLineRule(u: Upload, line: string)
    requires line != [] && !StartsWith(line, "#") && !StartsWith(line, ">")
    requires StartsWith(line, "---") || StartsWith(line, "***")
    ensures var v := PlainStepped(u, line);
      v.text == u.text + "---\n" && v.formats == u.formats + [Format(1 + u.offset, 5 + u.offset, Normal, 0, false)]
      && v.inlines == u.inlines && v.prev == Some(Normal)
  {
  }

  /** An unindented line, or one after anything but a list block, is plain prose; an indented one after a list block continues it. */
  lemma ContinuationRule(line: string, prev: Option<BlockKind>)
    ensures ProseKind(line, prev) == BulletCont <==>
      Indented(line) && (prev == Some(Bullet) || prev == Some(Number) || prev == Some(BulletCont))
    ensures ProseKind(line, prev) != BulletCont ==> ProseKind(line, prev) == Normal
  {
  }

  /** A code line before any other non-blank line reads `start` unbound, and the upload raises. */
  lemma CodeFirstRaises(fence: string, code: string)
    requires StartsWith(Strip(fence), "```") && !StartsWith(Strip(code), "```")
    ensures UploadAfter([fence, code]) == Failure(StartUnbound)
  {
    assert [fence, code][..1] == [fence];
    assert [fence][..0] == [];
    assert UploadAfter([fence]) == Success(UploadInitial.(inCode := true));
  }

  // ---------------------------------------------------------------------
  // Requests
  // ---------------------------------------------------------------------

  lemma {:induction false} AllFormatRequestsConcat(a: seq<Format>, b: seq<Format>, lang: string)
    ensures AllFormatRequests(a + b, lang) == AllFormatRequests(a, lang) + AllFormatRequests(b, lang)
    decreases |b|
  {
    if b == [] {
      assert a + b == a;
    } else {
      var front, last := b[..|b| - 1], b[|b| - 1];
      DropLastConcat(a, b);
      AllFormatRequestsConcat(a, front, lang);
      assert AllFormatRequests(a + b, lang) == AllFormatRequests(a + front, lang) + FormatRequests(last, lang);
      assert AllFormatRequests(b, lang) == AllFormatRequests(front, lang) + FormatRequests(last, lang);
      AppendAssoc(AllFormatRequests(a, lang), AllFormatRequests(front, lang), FormatRequests(last, lang));
    }
  }

  /** The requests of block `k` sit between those of the blocks before and after it. */
  lemma AllFormatRequestsAt(fs: seq<Format>, k: nat, lang: string)
    requires k < |fs|
    ensures AllFormatRequests(fs, lang) ==
      AllFormatRequests(fs[..k], lang) + FormatRequests(fs[k], lang) + AllFormatRequests(fs[k + 1..], lang)
  {
    assert fs == fs[..k] + [fs[k]] + fs[k + 1..];
    AllFormatRequestsConcat(fs[..k] + [fs[k]], fs[k + 1..], lang);
    AllFormatRequestsConcat(fs[..k], [fs[k]], lang);
    assert [fs[k]][..0] == [];
  }

  /**
    In a right-to-left language every bulleted or numbered block's
    `createParagraphBullets` is immediately followed by a paragraph-style
    request over the same range setting the direction and end alignment.
   */
  lemma RtlBulletsFollowed(fs: seq<Format>, k: nat, lang: string)
    requires k < |fs| && lang in RtlLangs && (fs[k].kind == Bullet || fs[k].kind == Number)
    ensures var rs, p := AllFormatRequests(fs, lang), |AllFormatRequests(fs[..k], lang)|;
      p + 1 < |rs| && rs[p].CreateBullets? && rs[p].start == fs[k].start && rs[p].end == fs[k].end
      && rs[p].preset == (if fs[k].kind == Bullet then DiscCircleSquare else DecimalAlphaRoman)
      && rs[p + 1] == UpdateParagraphStyle(fs[k].start, fs[k].end, NoPara.(rightToLeft := true, alignment := Some(End)))
  {
    AllFormatRequestsAt(fs, k, lang);
  }

  /** A heading's named style: `TITLE` for every level-1 heading, a numbered heading style for any other. */
  lemma NamedStyleRule(level: nat)
    ensures NamedStyle(level) == "TITLE" <==> level == 1
    ensures level >= 2 ==> NamedStyle(level) == "HEADING_" + NatToString(if level <= 7 then level - 1 else 6)
    ensures 2 <= level <= 7 ==> NamedStyle(level) == "HEADING_" + [(('0' as int) + level - 1) as char]
    ensures level > 7 ==> NamedStyle(level) == "HEADING_6"
  {
    if level != 1 {
      assert NamedStyle(level)[0] == 'H';
    }
  }

  /**
    A heading's paragraph request: its named style, centred at level 1 and
    otherwise aligned to the end in a right-to-left language, else the start;
    spaced 4pt below and 6pt above after another heading, else 36 and 0 at
    level 1 and 8 and 36 below it; then its font.
   */
  lemma HeadingRequestsRule(f: Format, lang: string)
    requires f.kind == Heading
    ensures var rs := FormatRequests(f, lang);
      |rs| == 2 && rs[0].UpdateParagraphStyle? && rs[0].start == f.start && rs[0].end == f.end
      && rs[0].para.named == Some(NamedStyle(f.level))
      && (rs[0].para.alignment == Some(Center) <==> f.level == 1)
      && (f.level != 1 ==> rs[0].para.alignment == Some(if lang in RtlLangs then End else Start))
      && (f.consecutive ==> rs[0].para.spaceBelow == Some(4) && rs[0].para.spaceAbove == Some(6))
      && (!f.consecutive && f.level == 1 ==> rs[0].para.spaceBelow == Some(36) && rs[0].para.spaceAbove == Some(0))
      && (!f.consecutive && f.level != 1 ==> rs[0].para.spaceBelow == Some(8) && rs[0].para.spaceAbove == Some(36))
      && rs[1] == UpdateTextStyle(f.start, f.end, NoText.(font := Some(DocsFont(lang))))
  {
  }

  /** A request whose range, if it has one, lies inside a document whose inserted text is `n` long. */
  predicate InDocument(r: Request, n: nat) {
    match r
    case InsertText(i, _) => i == 1
    case UpdateParagraphStyle(s, e, _) => 1 <= s <= e <= 1 + n
    case UpdateTextStyle(s, e, _) => 1 <= s <= e <= 1 + n
    case CreateBullets(s, e, _) => 1 <= s <= e <= 1 + n
  }

  predicate AllInDocument(rs: seq<Request>, n: nat) {
    forall k :: 0 <= k < |rs| ==> InDocument(rs[k], n)
  }

  lemma AllInDocumentConcat(a: seq<Request>, b: seq<Request>, n: nat)
    requires AllInDocument(a, n) && AllInDocument(b, n)
    ensures AllInDocument(a + b, n)
  {
    forall k | 0 <= k < |a + b|
      ensures InDocument((a + b)[k], n)
    {
      if k < |a| {
        assert (a + b)[k] == a[k];
      } else {
        assert (a + b)[k] == b[k - |a|];
      }
    }
  }

  lemma FormatRequestsInDocument(f: Format, lang: string, n: nat)
    requires f.kind != CodeBlock ==> 1 <= f.start < f.end <= 1 + n
    ensures AllInDocument(FormatRequests(f, lang), n)
  {
  }

  lemma {:induction false} AllFormatRequestsInDocument(fs: seq<Format>, text: string, lang: string)
    requires BlocksInText(fs, text)
    ensures AllInDocument(AllFormatRequests(fs, lang), |text|)
    decreases |fs|
  {
    if fs != [] {
      var front := fs[..|fs| - 1];
      assert BlocksInText(front, text) by {
        forall k | 0 <= k < |front| && front[k].kind != CodeBlock
          ensures 1 <= front[k].start < front[k].end <= 1 + |text| && text[front[k].end - 2] == '\n'
        {
          assert front[k] == fs[k];
        }
      }
      AllFormatRequestsInDocument(front, text, lang);
      FormatRequestsInDocument(fs[|fs| - 1], lang, |text|);
      AllInDocumentConcat(AllFormatRequests(front, lang), FormatRequests(fs[|fs| - 1], lang), |text|);
    }
  }

  lemma {:induction false} InlineRequestsInDocument(gs: seq<InlineFormat>, n: nat)
    requires InlinesWithin(gs, n)
    ensures AllInDocument(InlineRequests(gs), n)
    decreases |gs|
  {
    if gs != [] {
      var front, g := gs[..|gs| - 1], gs[|gs| - 1];
      assert InlinesWithin(front, n) by {
        forall k | 0 <= k < |front| ensures 1 <= front[k].start < front[k].end <= n {
          assert front[k] == gs[k];
        }
      }
      InlineRequestsInDocument(front, n);
      var last := if InlineStyle(g.style) == NoText then [] else [UpdateTextStyle(g.start, g.end, InlineStyle(g.style))];
      AllInDocumentConcat(InlineRequests(front), last, n);
    }
  }

  /**
    The request list starts with the insertion of the whole text at index
    1, then the font and the paragraph style over all of it, then the block
    requests and last the inline ones; and every range any request names
    lies inside the inserted text.
   */
  lemma RequestsRule(u: Upload, lang: string)
    requires UploadSound(u)
    ensures var rs, b := Requests(u, lang), AllFormatRequests(u.formats, lang);
      |rs| == 3 + |b| + |InlineRequests(u.inlines)|
      && rs[0] == InsertText(1, u.text)
      && rs[1].UpdateTextStyle? && rs[1].start == 1 && rs[1].end == 1 + |u.text|
      && rs[2].UpdateParagraphStyle? && rs[2].start == 1 && rs[2].end == 1 + |u.text|
      && rs[3..3 + |b|] == b && rs[3 + |b|..] == InlineRequests(u.inlines)
      && AllInDocument(rs, |u.text|)
  {
    var head := [InsertText(1, u.text)] + BaseRequests(|u.text|, lang);
    var b, i := AllFormatRequests(u.formats, lang), InlineRequests(u.inlines);
    assert Requests(u, lang) == head + b + i;
    AllFormatRequestsInDocument(u.formats, u.text, lang);
    InlineRequestsInDocument(u.inlines, u.offset);
    assert AllInDocument(head, |u.text|);
    AllInDocumentConcat(head, b, |u.text|);
    AllInDocumentConcat(head + b, i, |u.text|);
    assert (head + b + i)[3..3 + |b|] == b;
    assert (head + b + i)[3 + |b|..] == i;
  }

  /** Whatever the lines, a successful upload sends only requests inside the text it inserts. */
  lemma UploadStaysInDocument(lines: seq<string>, lang: string)
    ensures var r := UploadRequests(lines, lang);
      r.Success? ==> r.value[0] == InsertText(1, UploadAfter(lines).value.text)
                     && AllInDocument(r.value, |UploadAfter(lines).value.text|)
  {
    SoundAfter(lines);
    if UploadAfter(lines).Success? {
      RequestsRule(UploadAfter(lines).value, lang);
    }
  }
}
