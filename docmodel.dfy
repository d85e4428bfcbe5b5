/**
  The document the DOCX writers build, as plain records: the body is a list
  of paragraphs and tables in order; a paragraph keeps its style name, its
  text and how its runs are made from it, and the layout decisions the
  writers make (alignment, spacing, indents, direction). Points are whole
  points, line spacing is in percent (1.2 is 120) and indents are in
  millimetres (1.5 cm is 15).
 */
module DocModel {
  import opened Wrappers
  import opened Text

  datatype Align = Left | Right | Center | Justify

  datatype Colour = Black | LinkBlue

  /**
    One run: its text and the character formatting set on it; `None` means
    left to the style. `shaded` is the grey background of inline code.
   */
  datatype Run = Run(text: string, font: Option<string>, sizePt: Option<nat>, bold: bool, italic: bool,
                     colour: Colour, shaded: bool, underline: bool)

  /**
    What the writer made the paragraph for. The file itself does not record
    this; it tags each record so that properties can speak about it.
   */
  datatype Role = TitleRole | HeadingRole(rank: nat) | BodyRole | ListRole | QuoteRole | CodeRole | ContinuationRole

  /**
    The text a paragraph was given and how its runs were made from it: read
    for inline markup (the runs of `_add_formatted_runs` in `font`), taken
    as it is (one plain run, none for an empty text), or runs built by
    hand.
   */
  datatype Content = Markdown(text: string, font: string) | Verbatim(text: string) | Built(runs: seq<Run>)

  /** A pass over the runs after they were added: none, the body reset to `font`, or the heading reset. */
  datatype Reset = NoReset | BodyReset(font: string) | HeadingReset

  /** One paragraph record; `rtl` marks the paragraph and all of its runs right-to-left. */
  datatype Para = Para(role: Role, style: string, content: Content, reset: Reset, align: Option<Align>,
                       lineSpacing: Option<nat>, spaceBefore: Option<nat>, spaceAfter: Option<nat>,
                       leftIndent: Option<int>, rightIndent: Option<int>, firstLineIndent: Option<int>,
                       rtl: bool)

  /**
    A table: its header cells and its data rows, each row as wide as the header, the
    table style, whether the header runs are bold, and the font and point size of every cell's run.
   */
  datatype Table = Table(header: seq<string>, rows: seq<seq<string>>, style: string, headerBold: bool,
                         font: string, cellSize: nat)

  datatype Block = Par(p: Para) | Tab(t: Table)

  /** A paragraph with nothing set yet, as `add_paragraph()` returns it: style "Normal". */
  function NewPara(role: Role, content: Content): (p: Para)
    ensures p.style == "Normal" && p.content == content && p.reset == NoReset && p.role == role && !p.rtl
    ensures p.align.None? && p.spaceBefore.None? && p.spaceAfter.None? && p.lineSpacing.None?
  {
    Para(role, "Normal", content, NoReset, None, None, None, None, None, None, None, false)
  }

  /** A run as `add_run(text)` makes it, with nothing set. */
  function PlainRun(text: string): Run {
    Run(text, None, None, false, false, Black, false, false)
  }

  /** The runs `add_paragraph(text)` makes: one run, or none for an empty text. */
  function TextRuns(text: string): (rs: seq<Run>)
    ensures text == [] ==> rs == []
    ensures text != [] ==> |rs| == 1 && rs[0].text == text
  {
    if text == [] then [] else [PlainRun(text)]
  }

  /** The text a paragraph shows, its runs glued. */
  function RunsText(rs: seq<Run>): string {
    if rs == [] then "" else rs[0].text + RunsText(rs[1..])
  }

  /** The paragraphs of the body, in order: what `doc.paragraphs` lists (tables are skipped). */
  function Paragraphs(body: seq<Block>): seq<Para> {
    if body == [] then []
    else (if body[0].Par? then [body[0].p] else []) + Paragraphs(body[1..])
  }

  /** The index of `doc.paragraphs[-1]` in the body, if there is a paragraph at all. */
  function LastPara(body: seq<Block>): (r: Option<nat>)
    ensures r.Some? ==> r.value < |body| && body[r.value].Par? && forall k :: r.value < k < |body| ==> body[k].Tab?
    ensures r.None? ==> forall k :: 0 <= k < |body| ==> body[k].Tab?
  {
    if body == [] then None
    else if body[|body| - 1].Par? then Some(|body| - 1)
    else LastPara(body[..|body| - 1])
  }

  /** The style name of the last paragraph, `""` when there is none. */
  function LastStyle(body: seq<Block>): string {
    match LastPara(body)
    case None => ""
    case Some(i) => body[i].p.style
  }

  /** `doc.paragraphs[-1].paragraph_format.space_after = Pt(pt)`, when there is a last paragraph. */
  function SetLastSpaceAfter(body: seq<Block>, pt: nat): (r: seq<Block>)
    ensures |r| == |body|
    ensures LastPara(body).None? ==> r == body
    ensures LastPara(body).Some? ==> var i := LastPara(body).value;
      r == body[i := Par(body[i].p.(spaceAfter := Some(pt)))]
  {
    match LastPara(body)
    case None => body
    case Some(i) => body[i := Par(body[i].p.(spaceAfter := Some(pt)))]
  }

  /** `doc.paragraphs[-1].paragraph_format.space_before = Pt(pt)`, when there is a last paragraph. */
  function SetLastSpaceBefore(body: seq<Block>, pt: nat): (r: seq<Block>)
    ensures |r| == |body|
    ensures LastPara(body).None? ==> r == body
    ensures LastPara(body).Some? ==> var i := LastPara(body).value;
      r == body[i := Par(body[i].p.(spaceBefore := Some(pt)))]
  {
    match LastPara(body)
    case None => body
    case Some(i) => body[i := Par(body[i].p.(spaceBefore := Some(pt)))]
  }

  /**
    The spacing fix used before headings and lists: the last paragraph's
    space after becomes `pt`, but only when its style is exactly "Normal".
   */
  function TrimLastNormal(body: seq<Block>, pt: nat): seq<Block> {
    if LastStyle(body) == "Normal" then SetLastSpaceAfter(body, pt) else body
  }

  /** The spacing fix before prose: a last paragraph whose style name contains "List" gets 12pt after. */
  function SpaceAfterList(body: seq<Block>): seq<Block> {
    if Contains(LastStyle(body), "List") then SetLastSpaceAfter(body, 12) else body
  }

  /** Number of title paragraphs in the body. */
  function TitleCount(body: seq<Block>): nat {
    if body == [] then 0
    else (if body[0].Par? && body[0].p.role.TitleRole? then 1 else 0) + TitleCount(body[1..])
  }

  /** A block with its paragraph spacing forgotten: everything the spacing fixes leave alone. */
  function Unspaced(b: Block): (u: Block)
    ensures u.Par? == b.Par? && (b.Tab? ==> u == b)
    ensures b.Par? ==> u.p.role == b.p.role && u.p.style == b.p.style && u.p.content == b.p.content
  {
    if b.Par? then Par(b.p.(spaceBefore := None, spaceAfter := None)) else b
  }

  /** The body with every paragraph's spacing forgotten. */
  function Skeleton(body: seq<Block>): (r: seq<Block>)
    ensures |r| == |body| && forall k :: 0 <= k < |body| ==> r[k] == Unspaced(body[k])
  {
    seq(|body|, k requires 0 <= k < |body| => Unspaced(body[k]))
  }

  /**
    `b` is `a` with blocks appended and, at most, the spacing of `a`'s
    paragraphs changed: nothing written is lost, reordered or rewritten.
   */
  predicate Extends(a: seq<Block>, b: seq<Block>) {
    |a| <= |b| && Skeleton(b)[..|a|] == Skeleton(a)
  }

  lemma ExtendsAppend(a: seq<Block>, xs: seq<Block>)
    ensures Extends(a, a + xs)
  {
    assert Skeleton(a + xs)[..|a|] == Skeleton(a);
  }

  lemma ExtendsTrans(a: seq<Block>, b: seq<Block>, c: seq<Block>)
    requires Extends(a, b) && Extends(b, c)
    ensures Extends(a, c)
  {
    assert Skeleton(c)[..|a|] == Skeleton(c)[..|b|][..|a|];
  }

  /** A body re-spaced is an extension of the original, and the original of it. */
  lemma SameSkeletonExtends(a: seq<Block>, b: seq<Block>)
    requires Skeleton(a) == Skeleton(b)
    ensures Extends(a, b) && Extends(b, a)
  {
    assert |a| == |Skeleton(a)| == |b|;
  }

  /** Re-spacing a body and then appending to it extends the original body. */
  lemma ExtendsRespaced(a: seq<Block>, b: seq<Block>, xs: seq<Block>)
    requires Skeleton(a) == Skeleton(b)
    ensures Extends(a, b + xs)
  {
    SameSkeletonExtends(a, b);
    ExtendsAppend(b, xs);
    ExtendsTrans(a, b, b + xs);
  }

  /** Blocks none of which is a title paragraph count no title. */
  lemma {:induction false} NoTitles(xs: seq<Block>)
    requires forall k :: 0 <= k < |xs| && xs[k].Par? ==> !xs[k].p.role.TitleRole?
    ensures TitleCount(xs) == 0
    decreases |xs|
  {
    if xs != [] {
      assert forall k :: 0 <= k < |xs| - 1 ==> xs[1..][k] == xs[k + 1];
      NoTitles(xs[1..]);
    }
  }

  /** Bodies with the same skeleton have the same number of titles. */
  lemma {:induction false} TitleCountOfSkeleton(a: seq<Block>, b: seq<Block>)
    requires Skeleton(a) == Skeleton(b)
    ensures TitleCount(a) == TitleCount(b)
    decreases |a|
  {
    if a != [] {
      assert |b| == |a|;
      assert Skeleton(a)[0] == Skeleton(b)[0];
      assert Skeleton(a[1..]) == Skeleton(b[1..]) by {
        forall k | 0 <= k < |a| - 1
          ensures Skeleton(a[1..])[k] == Skeleton(b[1..])[k]
        {
          assert Skeleton(a)[k + 1] == Skeleton(b)[k + 1];
        }
      }
      TitleCountOfSkeleton(a[1..], b[1..]);
    }
  }

  /** Titles of a concatenation add up. */
  lemma {:induction false} TitleCountConcat(a: seq<Block>, b: seq<Block>)
    ensures TitleCount(a + b) == TitleCount(a) + TitleCount(b)
    decreases |a|
  {
    if a != [] {
      assert (a + b)[1..] == a[1..] + b;
      TitleCountConcat(a[1..], b);
    } else {
      assert a + b == b;
    }
  }

  /** The spacing fixes change one paragraph's spacing and nothing else. */
  lemma SpacingKeepsSkeleton(body: seq<Block>, pt: nat)
    ensures Skeleton(SetLastSpaceAfter(body, pt)) == Skeleton(body)
    ensures Skeleton(SetLastSpaceBefore(body, pt)) == Skeleton(body)
    ensures Skeleton(TrimLastNormal(body, pt)) == Skeleton(body)
    ensures Skeleton(SpaceAfterList(body)) == Skeleton(body)
  {
    assert Skeleton(SetLastSpaceAfter(body, 12)) == Skeleton(body);
  }

  /** The spacing fixes keep the number of titles. */
  lemma SpacingKeepsTitles(body: seq<Block>, pt: nat)
    ensures TitleCount(SetLastSpaceAfter(body, pt)) == TitleCount(body)
    ensures TitleCount(SetLastSpaceBefore(body, pt)) == TitleCount(body)
    ensures TitleCount(TrimLastNormal(body, pt)) == TitleCount(body)
    ensures TitleCount(SpaceAfterList(body)) == TitleCount(body)
  {
    SpacingKeepsSkeleton(body, pt);
    TitleCountOfSkeleton(SetLastSpaceAfter(body, pt), body);
    TitleCountOfSkeleton(SetLastSpaceBefore(body, pt), body);
    TitleCountOfSkeleton(TrimLastNormal(body, pt), body);
    TitleCountOfSkeleton(SpaceAfterList(body), body);
  }

  /** Appending a paragraph makes it the last one. */
  lemma LastParaAppend(body: seq<Block>, p: Para)
    ensures LastPara(body + [Par(p)]) == Some(|body|)
  {
  }

  /** A body keeps having a last paragraph once it has one, whatever is appended. */
  lemma {:induction false} LastParaGrows(a: seq<Block>, b: seq<Block>)
    requires LastPara(a).Some?
    ensures LastPara(a + b).Some?
  {
    assert (a + b)[LastPara(a).value].Par?;
  }

  /** The spacing fixes keep a last paragraph where there is one. */
  lemma SpacingKeepsLastPara(body: seq<Block>, pt: nat)
    requires LastPara(body).Some?
    ensures LastPara(SetLastSpaceAfter(body, pt)).Some? && LastPara(SetLastSpaceBefore(body, pt)).Some?
    ensures LastPara(TrimLastNormal(body, pt)).Some? && LastPara(SpaceAfterList(body)).Some?
  {
    var i := LastPara(body).value;
    assert SetLastSpaceAfter(body, pt)[i].Par? && SetLastSpaceBefore(body, pt)[i].Par?;
    assert SetLastSpaceAfter(body, 12)[i].Par?;
  }
}
