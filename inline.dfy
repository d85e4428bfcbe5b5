/**
  The inline-markup pattern shared by the Word and the Google Docs writers,
  five alternatives tried in this order at each position:

    `***x***` | `**x**` | `*x*` | `` `x` `` | `[label](url)`

  where the star groups are the shortest non-empty run without a newline,
  the code group is a run of non-backquotes and the label and URL are runs
  without `]` and `)` respectively. Matches are found as `re.finditer` finds
  them: leftmost first, each search resuming where the last match ended.

  The two consumers are modelled here: the styled segments of a Word
  paragraph (`_parse_inline_formatting`) and the markup-free text with its
  style ranges (`_strip_inline_markers` inside `upload_markdown_content`).
 */
module InlineSpans {
  import opened Wrappers
  import opened Text

  /** The alternative that matched; a link carries its URL. */
  datatype Style = BoldItalic | Bold | Italic | Code | Link(url: string)

  /**
    One match: `s[start..end]` is the whole markup and
    `s[innerStart..innerEnd]` the group kept as text.
   */
  datatype Match = Match(start: nat, innerStart: nat, innerEnd: nat, end: nat, style: Style)

  function Opener(st: Style): string {
    match st
    case BoldItalic => "***"
    case Bold => "**"
    case Italic => "*"
    case Code => "`"
    case Link(_) => "["
  }

  function Closer(st: Style): string {
    match st
    case BoldItalic => "***"
    case Bold => "**"
    case Italic => "*"
    case Code => "`"
    case Link(url) => "](" + url + ")"
  }

  /** The source text of a match of style `st` whose kept group is `inner`. */
  function Markup(st: Style, inner: string): string { Opener(st) + inner + Closer(st) }

  /** `m` spans markup of its style around a non-empty inner group of `s`. */
  predicate WellFormed(s: string, m: Match) {
    m.start < m.innerStart < m.innerEnd < m.end <= |s|
    && s[m.start..m.end] == Markup(m.style, s[m.innerStart..m.innerEnd])
  }

  predicate NewlineFree(s: string, lo: nat, hi: nat)
    requires lo <= hi <= |s|
  {
    forall k :: lo <= k < hi ==> s[k] != '\n'
  }

  /** A run of `n` stars (one to three) at `i`. */
  predicate StarsAt(s: string, i: nat, n: nat) {
    1 <= n <= 3 && i + n <= |s| && s[i] == '*' && (n >= 2 ==> s[i + 1] == '*') && (n == 3 ==> s[i + 2] == '*')
  }

  /**
    `n` stars at `i` and again at `j`, with a newline-free group between:
    the star alternatives `\*{n}(.+?)\*{n}` ending their group at `j`.
   */
  predicate StarsMatch(s: string, i: nat, n: nat, j: nat) {
    StarsAt(s, i, n) && i + n < j && StarsAt(s, j, n) && NewlineFree(s, i + n, j)
  }

  /** `` `([^`]+)` `` at `i`, its closing backquote at `j`. */
  predicate CodeMatch(s: string, i: nat, j: nat) {
    i + 1 < j < |s| && s[i] == '`' && s[j] == '`' && forall x :: i < x < j ==> s[x] != '`'
  }

  /** `\[([^\]]+)\]\(([^)]+)\)` at `i`, the label closed at `j` and the URL at `k`. */
  predicate LinkMatch(s: string, i: nat, j: nat, k: nat) {
    i + 1 < j && j + 2 < k < |s| && s[i] == '[' && s[j] == ']' && s[j + 1] == '(' && s[k] == ')'
    && (forall x :: i < x < j ==> s[x] != ']') && (forall x :: j + 2 <= x < k ==> s[x] != ')')
  }

  predicate StarStyle(st: Style) { st.BoldItalic? || st.Bold? || st.Italic? }

  /** The length of a star style's run. */
  function Stars(st: Style): nat { if st.BoldItalic? then 3 else if st.Bold? then 2 else 1 }

  /** Cutting `s[a..d]` at `b` and `c`. */
  lemma Cut3(s: string, a: nat, b: nat, c: nat, d: nat)
    requires a <= b <= c <= d <= |s|
    ensures s[a..d] == s[a..b] + s[b..c] + s[c..d]
  {
  }

  /**
    The lazy group before a closing run `d`: the least index from `j` on
    where `d` occurs, none once a newline is passed.
   */
  function LazyClose(s: string, lo: nat, j: nat, n: nat): (r: Option<nat>)
    requires lo < j
    ensures r.Some? ==> j <= r.value && r.value + n <= |s|
    decreases |s| + 1 - j
  {
    if j > |s| then None
    else if s[j - 1] == '\n' then None
    else if StarsAt(s, j, n) then Some(j)
    else LazyClose(s, lo, j + 1, n)
  }

  /** What `.+?` followed by `d` finds from `lo`: the first closing run, with no newline before it. */
  lemma {:induction false} LazyCloseFacts(s: string, lo: nat, j: nat, n: nat)
    requires lo < j <= |s| + 1 && NewlineFree(s, lo, j - 1)
    requires forall k :: lo < k < j ==> !StarsAt(s, k, n)
    ensures var r := LazyClose(s, lo, j, n);
      && (r.Some? ==> StarsAt(s, r.value, n) && NewlineFree(s, lo, r.value))
      && (r.Some? ==> forall k :: lo < k < r.value ==> !StarsAt(s, k, n))
      && (r.None? ==> forall k :: lo < k && StarsAt(s, k, n) ==> !NewlineFree(s, lo, k))
    decreases |s| + 1 - j
  {
    if j <= |s| && s[j - 1] != '\n' && !StarsAt(s, j, n) {
      LazyCloseFacts(s, lo, j + 1, n);
    }
  }

  /** A star alternative tried at `i`. */
  function TryStars(s: string, i: nat, st: Style): (r: Option<Match>)
    requires StarStyle(st)
    ensures r.Some? ==>
      && r.value.start == i && r.value.innerStart == i + Stars(st) && r.value.style == st
      && r.value.innerStart < r.value.innerEnd && r.value.end == r.value.innerEnd + Stars(st) <= |s|
  {
    var n := Stars(st);
    if !StarsAt(s, i, n) then None
    else
      match LazyClose(s, i + n, i + n + 1, n)
      case None => None
      case Some(j) => Some(Match(i, i + n, j, j + n, st))
  }

  /** A star alternative matches iff some `StarsMatch` exists, and then it ends at the first one. */
  lemma TryStarsFacts(s: string, i: nat, st: Style)
    requires StarStyle(st)
    ensures var r, n := TryStars(s, i, st), Stars(st);
      && (r.Some? ==> StarsMatch(s, i, n, r.value.innerEnd))
      && (r.Some? ==> forall j :: i + n < j < r.value.innerEnd ==> !StarsMatch(s, i, n, j))
      && (r.None? ==> forall j :: !StarsMatch(s, i, n, j))
  {
    var n := Stars(st);
    if StarsAt(s, i, n) {
      LazyCloseFacts(s, i + n, i + n + 1, n);
    }
  }

  /** First index at or after `from` holding `c`. */
  function CharFrom(s: string, from: nat, c: char): (r: Option<nat>)
    requires from <= |s|
    ensures r.Some? ==> from <= r.value < |s|
    decreases |s| - from
  {
    if from == |s| then None
    else if s[from] == c then Some(from)
    else CharFrom(s, from + 1, c)
  }

  lemma {:induction false} CharFromFacts(s: string, from: nat, c: char)
    requires from <= |s|
    ensures var r := CharFrom(s, from, c);
      && (r.Some? ==> s[r.value] == c)
      && (forall k :: from <= k < |s| && (r.Some? ==> k < r.value) ==> s[k] != c)
    decreases |s| - from
  {
    if from < |s| && s[from] != c {
      CharFromFacts(s, from + 1, c);
    }
  }

  /** The code alternative tried at `i`. */
  function TryCode(s: string, i: nat): (r: Option<Match>)
    ensures r.Some? ==>
      && r.value.start == i && r.value.innerStart == i + 1 && r.value.style == Code
      && i + 1 < r.value.innerEnd && r.value.end == r.value.innerEnd + 1 <= |s|
  {
    if i < |s| && s[i] == '`' then
      match CharFrom(s, i + 1, '`')
      case None => None
      case Some(j) => if j > i + 1 then Some(Match(i, i + 1, j, j + 1, Code)) else None
    else None
  }

  /** The code alternative matches iff a `CodeMatch` exists, and then it closes there. */
  lemma TryCodeFacts(s: string, i: nat)
    ensures var r := TryCode(s, i);
      && (r.Some? ==> CodeMatch(s, i, r.value.innerEnd))
      && (r.None? ==> forall j :: !CodeMatch(s, i, j))
  {
    if i < |s| {
      CharFromFacts(s, i + 1, '`');
    }
  }

  /** The link alternative tried at `i`; the URL travels in the style, not in the kept group. */
  function TryLink(s: string, i: nat): (r: Option<Match>)
    ensures r.Some? ==>
      && r.value.start == i && r.value.innerStart == i + 1 && r.value.style.Link?
      && i + 1 < r.value.innerEnd && r.value.innerEnd + 3 < r.value.end <= |s|
      && r.value.style.url == s[r.value.innerEnd + 2..r.value.end - 1]
  {
    if i < |s| && s[i] == '[' then
      match CharFrom(s, i + 1, ']')
      case None => None
      case Some(j) =>
        if j > i + 1 && j + 1 < |s| && s[j + 1] == '(' then
          match CharFrom(s, j + 2, ')')
          case None => None
          case Some(k) => if k > j + 2 then Some(Match(i, i + 1, j, k + 1, Link(s[j + 2..k]))) else None
        else None
    else None
  }

  /** The link alternative matches iff a `LinkMatch` exists, and then it is that one. */
  lemma TryLinkFacts(s: string, i: nat)
    ensures var r := TryLink(s, i);
      && (r.Some? ==> LinkMatch(s, i, r.value.innerEnd, r.value.end - 1))
      && (r.None? ==> forall j, k :: !LinkMatch(s, i, j, k))
  {
    if i < |s| {
      CharFromFacts(s, i + 1, ']');
      var j := CharFrom(s, i + 1, ']');
      if j.Some? && j.value + 2 <= |s| {
        CharFromFacts(s, j.value + 2, ')');
      }
    }
  }

  /** Position of an alternative in the pattern. */
  function Rank(st: Style): nat {
    match st
    case BoldItalic => 0
    case Bold => 1
    case Italic => 2
    case Code => 3
    case Link(_) => 4
  }

  /** The span facts every consumer needs, without the markup. */
  predicate Bounded(s: string, m: Match) {
    m.start < m.innerStart < m.innerEnd < m.end <= |s|
  }

  /**
    The pattern tried at one position: the first alternative, in pattern
    order, that matches there; none when none does.
   */
  function MatchAt(s: string, i: nat): (r: Option<Match>)
    ensures r.Some? ==> r.value.start == i && Bounded(s, r.value)
  {
    var a := TryStars(s, i, BoldItalic);
    if a.Some? then a
    else
      var b := TryStars(s, i, Bold);
      if b.Some? then b
      else
        var c := TryStars(s, i, Italic);
        if c.Some? then c
        else
          var e := TryCode(s, i);
          if e.Some? then e
          else TryLink(s, i)
  }

  /** A match found at `i` by a star alternative spans its markup. */
  lemma StarsWellFormed(s: string, i: nat, st: Style)
    requires StarStyle(st) && TryStars(s, i, st).Some?
    ensures WellFormed(s, TryStars(s, i, st).value)
  {
    var m := TryStars(s, i, st).value;
    TryStarsFacts(s, i, st);
    var n := Stars(st);
    assert s[i..i + n] == Opener(st) && s[m.innerEnd..m.end] == Closer(st);
    Cut3(s, i, m.innerStart, m.innerEnd, m.end);
  }

  lemma CodeWellFormed(s: string, i: nat)
    requires TryCode(s, i).Some?
    ensures WellFormed(s, TryCode(s, i).value)
  {
    var m := TryCode(s, i).value;
    TryCodeFacts(s, i);
    Cut3(s, i, i + 1, m.innerEnd, m.end);
  }

  /** The characters a link match checks are exactly its markup. */
  lemma LinkSpan(s: string, i: nat, j: nat, k: nat)
    requires i + 1 < j && j + 2 < k < |s| && s[i] == '[' && s[j] == ']' && s[j + 1] == '(' && s[k] == ')'
    ensures WellFormed(s, Match(i, i + 1, j, k + 1, Link(s[j + 2..k])))
  {
    LinkCloser(s, j, k);
    assert s[i..k + 1] == "[" + s[i + 1..j] + s[j..k + 1] by {
      Cut3(s, i, i + 1, j, k + 1);
      assert s[i..i + 1] == "[";
    }
  }

  /** The closing part of a link's markup: `](`, the URL, `)`. */
  lemma LinkCloser(s: string, j: nat, k: nat)
    requires j + 2 < k < |s| && s[j] == ']' && s[j + 1] == '(' && s[k] == ')'
    ensures s[j..k + 1] == Closer(Link(s[j + 2..k]))
  {
    Cut3(s, j, j + 2, k, k + 1);
    assert s[j..j + 2] == "](";
    assert s[k..k + 1] == ")";
  }

  lemma LinkWellFormed(s: string, i: nat)
    requires TryLink(s, i).Some?
    ensures WellFormed(s, TryLink(s, i).value)
  {
    var m := TryLink(s, i).value;
    var j, k := m.innerEnd, m.end - 1;
    assert LinkMatch(s, i, j, k) by {
      TryLinkFacts(s, i);
    }
    assert m == Match(i, i + 1, j, k + 1, Link(s[j + 2..k]));
    LinkSpan(s, i, j, k);
  }

  /** A match found at `i` spans its markup around its inner group. */
  lemma MatchAtWellFormed(s: string, i: nat)
    requires MatchAt(s, i).Some?
    ensures WellFormed(s, MatchAt(s, i).value)
  {
    if TryStars(s, i, BoldItalic).Some? {
      StarsWellFormed(s, i, BoldItalic);
    } else if TryStars(s, i, Bold).Some? {
      StarsWellFormed(s, i, Bold);
    } else if TryStars(s, i, Italic).Some? {
      StarsWellFormed(s, i, Italic);
    } else if TryCode(s, i).Some? {
      CodeWellFormed(s, i);
    } else {
      LinkWellFormed(s, i);
    }
  }

  /**
    Alternation order: the match at `i` is the one its own alternative
    gives, and every earlier alternative fails there.
   */
  lemma MatchAtFirst(s: string, i: nat)
    requires MatchAt(s, i).Some?
    ensures var m := MatchAt(s, i).value;
      && (StarStyle(m.style) ==> MatchAt(s, i) == TryStars(s, i, m.style))
      && (m.style.Code? ==> MatchAt(s, i) == TryCode(s, i))
      && (m.style.Link? ==> MatchAt(s, i) == TryLink(s, i))
      && (Rank(m.style) > 0 ==> forall j :: !StarsMatch(s, i, 3, j))
      && (Rank(m.style) > 1 ==> forall j :: !StarsMatch(s, i, 2, j))
      && (Rank(m.style) > 2 ==> forall j :: !StarsMatch(s, i, 1, j))
      && (Rank(m.style) > 3 ==> forall j :: !CodeMatch(s, i, j))
  {
    TryStarsFacts(s, i, BoldItalic);
    TryStarsFacts(s, i, Bold);
    TryStarsFacts(s, i, Italic);
    TryCodeFacts(s, i);
  }

  /** Nothing matches at `i` exactly when all five alternatives fail there. */
  lemma NoMatchAt(s: string, i: nat)
    ensures MatchAt(s, i).None? <==>
      && (forall j :: !StarsMatch(s, i, 3, j) && !StarsMatch(s, i, 2, j) && !StarsMatch(s, i, 1, j))
      && (forall j :: !CodeMatch(s, i, j))
      && (forall j, k :: !LinkMatch(s, i, j, k))
  {
    TryStarsFacts(s, i, BoldItalic);
    TryStarsFacts(s, i, Bold);
    TryStarsFacts(s, i, Italic);
    TryCodeFacts(s, i);
    TryLinkFacts(s, i);
    if MatchAt(s, i).Some? {
      var m := MatchAt(s, i).value;
      if TryStars(s, i, BoldItalic).Some? {
        assert StarsMatch(s, i, 3, m.innerEnd);
      } else if TryStars(s, i, Bold).Some? {
        assert StarsMatch(s, i, 2, m.innerEnd);
      } else if TryStars(s, i, Italic).Some? {
        assert StarsMatch(s, i, 1, m.innerEnd);
      } else if TryCode(s, i).Some? {
        assert CodeMatch(s, i, m.innerEnd);
      } else {
        assert LinkMatch(s, i, m.innerEnd, m.end - 1);
      }
    }
  }

  /**
    `finditer`'s search from `p`: the match at the leftmost position at or
    after `p` where the pattern matches.
   */
  function NextMatch(s: string, p: nat): (r: Option<Match>)
    ensures r.Some? ==> p <= r.value.start && Bounded(s, r.value) && MatchAt(s, r.value.start) == r
    decreases |s| - p
  {
    if p >= |s| then None
    else
      match MatchAt(s, p)
      case Some(m) => Some(m)
      case None => NextMatch(s, p + 1)
  }

  /** No position skipped by the search holds a match. */
  lemma {:induction false} NextMatchLeftmost(s: string, p: nat)
    ensures var r := NextMatch(s, p);
      && (r.Some? ==> forall i :: p <= i < r.value.start ==> MatchAt(s, i).None?)
      && (r.None? ==> forall i :: p <= i < |s| ==> MatchAt(s, i).None?)
    decreases |s| - p
  {
    if p < |s| && MatchAt(s, p).None? {
      NextMatchLeftmost(s, p + 1);
    }
  }

  /** Matches from `p` on, each within `s`, in order and not overlapping. */
  predicate Chain(s: string, p: nat, ms: seq<Match>)
    decreases |ms|
  {
    ms == [] || (p <= ms[0].start && Bounded(s, ms[0]) && Chain(s, ms[0].end, ms[1..]))
  }

  /** The group a match keeps as text. */
  function Inner(s: string, m: Match): string {
    if m.innerStart <= m.innerEnd <= |s| then s[m.innerStart..m.innerEnd] else ""
  }

  /** Every match of a chain spans its markup. */
  predicate AllWellFormed(s: string, ms: seq<Match>)
    decreases |ms|
  {
    ms == [] || (WellFormed(s, ms[0]) && AllWellFormed(s, ms[1..]))
  }

  /** `finditer(s)` resumed at `p`: each match is searched for from the end of the one before. */
  function Matches(s: string, p: nat): (ms: seq<Match>)
    ensures Chain(s, p, ms)
    decreases |s| - p
  {
    match NextMatch(s, p)
    case None => []
    case Some(m) => [m] + Matches(s, m.end)
  }

  lemma {:induction false} MatchesWellFormed(s: string, p: nat)
    ensures AllWellFormed(s, Matches(s, p))
    decreases |s| - p
  {
    match NextMatch(s, p)
    case None =>
    case Some(m) =>
      MatchAtWellFormed(s, m.start);
      MatchesWellFormed(s, m.end);
      assert Matches(s, p)[1..] == Matches(s, m.end);
  }

  // ---------------------------------------------------------------------
  // Word runs: `_parse_inline_formatting`
  // ---------------------------------------------------------------------

  /** One segment as `_parse_inline_formatting` describes it: text and flags. */
  datatype Segment = Segment(text: string, bold: bool, italic: bool, code: bool, linkUrl: Option<string>)

  function Plain(t: string): Segment { Segment(t, false, false, false, None) }

  predicate IsPlain(g: Segment) { !g.bold && !g.italic && !g.code && g.linkUrl.None? }

  /**
    The segment a match contributes: its inner group with the flags of its
    alternative. Bold-italic sets both flags, code only its own, and only a
    link carries a URL, which is not part of the text.
   */
  function Styled(st: Style, inner: string): (g: Segment)
    ensures g.text == inner && !IsPlain(g)
    ensures g.bold && g.italic <==> st.BoldItalic?
    ensures g.code <==> st.Code?
    ensures g.code ==> !g.bold && !g.italic && g.linkUrl.None?
    ensures g.linkUrl.Some? <==> st.Link?
    ensures st.Link? ==> g.linkUrl == Some(st.url) && !g.bold && !g.italic
  {
    match st
    case BoldItalic => Segment(inner, true, true, false, None)
    case Bold => Segment(inner, true, false, false, None)
    case Italic => Segment(inner, false, true, false, None)
    case Code => Segment(inner, false, false, true, None)
    case Link(url) => Segment(inner, false, false, false, Some(url))
  }

  /** The Markdown a segment's flags stand for. */
  function SegmentMarkup(g: Segment): string {
    if g.linkUrl.Some? then Markup(Link(g.linkUrl.value), g.text)
    else if g.code then Markup(Code, g.text)
    else if g.bold && g.italic then Markup(BoldItalic, g.text)
    else if g.bold then Markup(Bold, g.text)
    else if g.italic then Markup(Italic, g.text)
    else g.text
  }

  /** The segments written back as Markdown. */
  function Rendered(gs: seq<Segment>): string {
    if gs == [] then "" else SegmentMarkup(gs[0]) + Rendered(gs[1..])
  }

  /** The segments' texts, glued. */
  function Texts(gs: seq<Segment>): string {
    if gs == [] then "" else gs[0].text + Texts(gs[1..])
  }

  /** Segments never hold an empty plain run, and two plain runs never touch. */
  predicate GapFree(gs: seq<Segment>) {
    && (forall k :: 0 <= k < |gs| && IsPlain(gs[k]) ==> gs[k].text != [])
    && (forall k :: 0 <= k < |gs| - 1 && IsPlain(gs[k]) ==> !IsPlain(gs[k + 1]))
  }

  /** The segments of `s[p..]` around the chain `ms`: each gap as plain text, then the match's own segment. */
  function SegmentsOf(s: string, p: nat, ms: seq<Match>): seq<Segment>
    requires p <= |s| && Chain(s, p, ms)
    decreases |ms|
  {
    if ms == [] then (if p < |s| then [Plain(s[p..])] else [])
    else MatchSegments(s, p, ms[0]) + SegmentsOf(s, ms[0].end, ms[1..])
  }

  /** What one match adds after `p`: the gap before it, if any, then its own segment. */
  function MatchSegments(s: string, p: nat, m: Match): seq<Segment>
    requires p <= m.start && Bounded(s, m)
  {
    (if m.start > p then [Plain(s[p..m.start])] else []) + [Styled(m.style, s[m.innerStart..m.innerEnd])]
  }

  /** `_parse_inline_formatting(text)` as a value: never empty, and `""` gives one plain `""`. */
  function InlineSegments(s: string): (r: seq<Segment>)
    ensures |r| >= 1
    ensures s == [] ==> r == [Plain([])]
  {
    var gs := SegmentsOf(s, 0, Matches(s, 0));
    if gs == [] then [Plain(s)] else gs
  }

  /** `_parse_inline_formatting`: the loop over `finditer(text)` tracking `last_end`. */
  method ParseInlineFormatting(text: string) returns (segments: seq<Segment>)
    ensures segments == InlineSegments(text)
  {
    segments := SegmentsLoop(text, Matches(text, 0));
  }

  /** The body of `_parse_inline_formatting` over the matches `finditer` yields. */
  method SegmentsLoop(text: string, found: seq<Match>) returns (segments: seq<Segment>)
    requires Chain(text, 0, found)
    ensures segments == (var gs := SegmentsOf(text, 0, found); if gs == [] then [Plain(text)] else gs)
  {
    segments := [];
    var lastEnd: nat := 0;
    var rest := found;
    while rest != []
      invariant lastEnd <= |text| && Chain(text, lastEnd, rest)
      invariant segments + SegmentsOf(text, lastEnd, rest) == SegmentsOf(text, 0, found)
      decreases |rest|
    {
      var m := rest[0];
      ghost var before := segments;
      if m.start > lastEnd {
        segments := segments + [Plain(text[lastEnd..m.start])];
      }
      segments := segments + [Styled(m.style, text[m.innerStart..m.innerEnd])];
      assert segments == before + MatchSegments(text, lastEnd, m);
      AppendAssoc(before, MatchSegments(text, lastEnd, m), SegmentsOf(text, m.end, rest[1..]));
      lastEnd, rest := m.end, rest[1..];
    }
    if lastEnd < |text| {
      segments := segments + [Plain(text[lastEnd..])];
    }
    if segments == [] {
      segments := [Plain(text)];
    }
  }

  lemma {:induction false} RenderedConcat(a: seq<Segment>, b: seq<Segment>)
    ensures Rendered(a + b) == Rendered(a) + Rendered(b)
    decreases |a|
  {
    if a != [] {
      assert (a + b)[1..] == a[1..] + b;
      RenderedConcat(a[1..], b);
    } else {
      assert a + b == b;
    }
  }

  lemma {:induction false} TextsConcat(a: seq<Segment>, b: seq<Segment>)
    ensures Texts(a + b) == Texts(a) + Texts(b)
    decreases |a|
  {
    if a != [] {
      assert (a + b)[1..] == a[1..] + b;
      TextsConcat(a[1..], b);
    } else {
      assert a + b == b;
    }
  }

  /** A match's segment written back is the markup it came from. */
  lemma StyledMarkup(st: Style, inner: string)
    ensures SegmentMarkup(Styled(st, inner)) == Markup(st, inner)
  {
  }

  /** One match's segments written back give the text from `p` to the match's end. */
  lemma RenderedMatch(s: string, p: nat, m: Match)
    requires p <= m.start && WellFormed(s, m)
    ensures Rendered(MatchSegments(s, p, m)) == s[p..m.end]
  {
    var inner := s[m.innerStart..m.innerEnd];
    var gap: seq<Segment> := if m.start > p then [Plain(s[p..m.start])] else [];
    var st := [Styled(m.style, inner)];
    assert MatchSegments(s, p, m) == gap + st;
    RenderedOne(Plain(s[p..m.start]));
    assert Rendered(gap) == s[p..m.start];
    RenderedOne(Styled(m.style, inner));
    StyledMarkup(m.style, inner);
    assert Rendered(st) == s[m.start..m.end];
    RenderedConcat(gap, st);
    SliceSplit(s, p, m.start, m.end);
  }

  /** One segment written back is its markup. */
  lemma RenderedOne(g: Segment)
    ensures Rendered([g]) == SegmentMarkup(g)
  {
    assert [g][1..] == [];
  }

  lemma {:induction false} RenderedOf(s: string, p: nat, ms: seq<Match>)
    requires p <= |s| && Chain(s, p, ms) && AllWellFormed(s, ms)
    ensures Rendered(SegmentsOf(s, p, ms)) == s[p..]
    decreases |ms|
  {
    if ms == [] {
      if p < |s| {
        assert Rendered([Plain(s[p..])]) == s[p..];
      }
    } else {
      var m := ms[0];
      var here, rest := MatchSegments(s, p, m), SegmentsOf(s, m.end, ms[1..]);
      assert SegmentsOf(s, p, ms) == here + rest;
      RenderedMatch(s, p, m);
      RenderedOf(s, m.end, ms[1..]);
      RenderedConcat(here, rest);
      SuffixSplit(s, p, m.end);
    }
  }

  /**
    The segments lose nothing: written back as Markdown they give the input
    exactly, gaps verbatim and every match as its own markup.
   */
  lemma MarkupRoundTrip(s: string)
    ensures Rendered(InlineSegments(s)) == s
  {
    MatchesWellFormed(s, 0);
    RenderedOf(s, 0, Matches(s, 0));
    if SegmentsOf(s, 0, Matches(s, 0)) == [] {
      assert Rendered([Plain(s)]) == s;
    }
  }

  lemma GapFreeConcat(a: seq<Segment>, b: seq<Segment>)
    requires GapFree(a) && GapFree(b)
    requires a == [] || b == [] || !IsPlain(a[|a| - 1]) || !IsPlain(b[0])
    ensures GapFree(a + b)
  {
    var c := a + b;
    forall k | 0 <= k < |c| - 1 && IsPlain(c[k])
      ensures !IsPlain(c[k + 1])
    {
      if k + 1 < |a| {
        assert c[k] == a[k] && c[k + 1] == a[k + 1];
      } else if k >= |a| {
        assert c[k] == b[k - |a|] && c[k + 1] == b[k + 1 - |a|];
      }
    }
  }

  lemma {:induction false} GapFreeOf(s: string, p: nat, ms: seq<Match>)
    requires p <= |s| && Chain(s, p, ms)
    ensures GapFree(SegmentsOf(s, p, ms))
    decreases |ms|
  {
    if ms != [] {
      var m := ms[0];
      var gap: seq<Segment> := if m.start > p then [Plain(s[p..m.start])] else [];
      var st := [Styled(m.style, s[m.innerStart..m.innerEnd])];
      GapFreeOf(s, m.end, ms[1..]);
      GapFreeConcat(gap, st);
      GapFreeConcat(gap + st, SegmentsOf(s, m.end, ms[1..]));
    }
  }

  /**
    Plain segments are exactly the unmatched gaps: none is empty (but for
    the single segment of an empty text), and no two are adjacent.
   */
  lemma PlainSegmentsAreGaps(s: string)
    requires s != []
    ensures GapFree(InlineSegments(s))
  {
    GapFreeOf(s, 0, Matches(s, 0));
  }

  // ---------------------------------------------------------------------
  // Google Docs ranges: `_strip_inline_markers`
  // ---------------------------------------------------------------------

  /** A style range into the markup-free text: `clean[start..end]` carries `style`. */
  datatype Range = Range(start: nat, end: nat, style: Style)

  /** `s[p..]` with every match of the chain replaced by its inner group. */
  function CleanOf(s: string, p: nat, ms: seq<Match>): string
    requires p <= |s| && Chain(s, p, ms)
    decreases |ms|
  {
    if ms == [] then s[p..]
    else
      var m := ms[0];
      s[p..m.start] + s[m.innerStart..m.innerEnd] + CleanOf(s, m.end, ms[1..])
  }

  /** The ranges of the chain's groups, when the clean text so far is `base` long. */
  function RangesOf(s: string, p: nat, base: nat, ms: seq<Match>): (rs: seq<Range>)
    requires p <= |s| && Chain(s, p, ms)
    ensures |rs| == |ms|
    decreases |ms|
  {
    if ms == [] then []
    else
      var m := ms[0];
      var fs := base + (m.start - p);
      var fe := fs + (m.innerEnd - m.innerStart);
      [Range(fs, fe, m.style)] + RangesOf(s, m.end, fe, ms[1..])
  }

  /** The markup-free text of `s`. */
  function Clean(s: string): string { CleanOf(s, 0, Matches(s, 0)) }

  /** The style ranges into `Clean(s)`. */
  function Ranges(s: string): seq<Range> { RangesOf(s, 0, 0, Matches(s, 0)) }

  /** `_strip_inline_markers(text)`: the loop over `finditer` growing `clean` and `fmt_ranges`. */
  method StripInlineMarkers(text: string) returns (clean: string, ranges: seq<Range>)
    ensures clean == Clean(text) && ranges == Ranges(text)
  {
    clean, ranges := StripLoop(text, Matches(text, 0));
  }

  /** The body of `_strip_inline_markers` over the matches `finditer` yields. */
  method StripLoop(text: string, found: seq<Match>) returns (clean: string, ranges: seq<Range>)
    requires Chain(text, 0, found)
    ensures clean == CleanOf(text, 0, found) && ranges == RangesOf(text, 0, 0, found)
  {
    clean := "";
    ranges := [];
    var lastEnd: nat := 0;
    var rest := found;
    while rest != []
      invariant lastEnd <= |text| && Chain(text, lastEnd, rest)
      invariant clean + CleanOf(text, lastEnd, rest) == CleanOf(text, 0, found)
      invariant ranges + RangesOf(text, lastEnd, |clean|, rest) == RangesOf(text, 0, 0, found)
      decreases |rest|
    {
      var m := rest[0];
      ghost var c0, r0 := clean, ranges;
      clean := clean + text[lastEnd..m.start];
      var segStart := |clean|;
      var inner := text[m.innerStart..m.innerEnd];
      clean := clean + inner;
      ranges := ranges + [Range(segStart, segStart + |inner|, m.style)];
      ghost var tail := CleanOf(text, m.end, rest[1..]);
      AppendAssoc(c0 + text[lastEnd..m.start], inner, tail);
      AppendAssoc(c0, text[lastEnd..m.start], inner + tail);
      AppendAssoc(text[lastEnd..m.start], inner, tail);
      AppendAssoc(r0, [Range(segStart, segStart + |inner|, m.style)], RangesOf(text, m.end, |clean|, rest[1..]));
      lastEnd, rest := m.end, rest[1..];
    }
    clean := clean + text[lastEnd..];
  }

  /**
    Range k lies in the clean text of the chain, holds the k-th match's group
    and carries its style.
   */
  lemma {:induction false} RangeAt(s: string, p: nat, ms: seq<Match>, k: nat)
    requires p <= |s| && Chain(s, p, ms) && k < |ms|
    ensures RangeHolds(s, p, ms, k)
    decreases k
  {
    if k == 0 {
      FirstRangeHolds(s, p, ms);
    } else {
      RangeAt(s, ms[0].end, ms[1..], k - 1);
      NextRangeHolds(s, p, ms, k);
    }
  }

  /** Range k of the chain from `p`, counted from the start of its clean text, is the k-th group with its style. */
  predicate RangeHolds(s: string, p: nat, ms: seq<Match>, k: nat)
    requires p <= |s| && Chain(s, p, ms) && k < |ms|
  {
    var r, cl := RangesOf(s, p, 0, ms)[k], CleanOf(s, p, ms);
    && r.start < r.end <= |cl| && r.style == ms[k].style
    && cl[r.start..r.end] == Inner(s, ms[k])
  }

  lemma FirstRangeHolds(s: string, p: nat, ms: seq<Match>)
    requires p <= |s| && Chain(s, p, ms) && 0 < |ms|
    ensures RangeHolds(s, p, ms, 0)
  {
    var m := ms[0];
    var gap, inner := s[p..m.start], s[m.innerStart..m.innerEnd];
    var tail := CleanOf(s, m.end, ms[1..]);
    CleanOfStep(s, p, ms);
    assert RangesOf(s, p, 0, ms)[0] == Range(|gap|, |gap| + |inner|, m.style);
    assert Inner(s, m) == inner;
    FirstRange(gap, inner, tail);
  }

  lemma NextRangeHolds(s: string, p: nat, ms: seq<Match>, k: nat)
    requires p <= |s| && Chain(s, p, ms) && 0 < k < |ms|
    requires RangeHolds(s, ms[0].end, ms[1..], k - 1)
    ensures RangeHolds(s, p, ms, k)
  {
    var m := ms[0];
    var pre, tail := s[p..m.start] + s[m.innerStart..m.innerEnd], CleanOf(s, m.end, ms[1..]);
    var r0 := RangesOf(s, m.end, 0, ms[1..])[k - 1];
    CleanOfStep(s, p, ms);
    RangesOfStep(s, p, 0, ms, k, |pre|);
    RangesShift(s, m.end, |pre|, ms[1..], k - 1);
    assert ms[1..][k - 1] == ms[k];
    SliceAfter(pre, tail, r0.start, r0.end);
  }

  /** Ranges counted from offset `base` are those counted from 0, moved by `base`. */
  lemma {:induction false} RangesShift(s: string, p: nat, base: nat, ms: seq<Match>, k: nat)
    requires p <= |s| && Chain(s, p, ms) && k < |ms|
    ensures var r, r0 := RangesOf(s, p, base, ms)[k], RangesOf(s, p, 0, ms)[k];
      r == Range(base + r0.start, base + r0.end, r0.style)
    decreases k
  {
    if k > 0 {
      var m := ms[0];
      var w := (m.start - p) + (m.innerEnd - m.innerStart);
      RangesShift(s, m.end, base + w, ms[1..], k - 1);
      RangesShift(s, m.end, w, ms[1..], k - 1);
      RangesOfStep(s, p, base, ms, k, base + w);
      RangesOfStep(s, p, 0, ms, k, w);
    }
  }

  /** Range k of a chain is range k - 1 of the rest of the chain, whose clean text starts at `b2`. */
  lemma RangesOfStep(s: string, p: nat, base: nat, ms: seq<Match>, k: nat, b2: nat)
    requires p <= |s| && Chain(s, p, ms) && 0 < k < |ms|
    requires b2 == base + (ms[0].start - p) + (ms[0].innerEnd - ms[0].innerStart)
    ensures RangesOf(s, p, base, ms)[k] == RangesOf(s, ms[0].end, b2, ms[1..])[k - 1]
  {
  }

  /** The clean text of a chain: the gap, the first group, then the rest's clean text. */
  lemma CleanOfStep(s: string, p: nat, ms: seq<Match>)
    requires p <= |s| && Chain(s, p, ms) && 0 < |ms|
    ensures var m := ms[0];
      CleanOf(s, p, ms) == s[p..m.start] + s[m.innerStart..m.innerEnd] + CleanOf(s, m.end, ms[1..])
  {
  }

  /** The first group sits right after its gap. */
  lemma FirstRange(gap: string, inner: string, tail: string)
    ensures (gap + inner + tail)[|gap|..|gap| + |inner|] == inner
  {
    SliceBefore(gap + inner, tail, |gap|, |gap| + |inner|);
    SliceAfter(gap, inner, 0, |inner|);
  }

  /** Range k ends where range k + 1 starts or before. */
  lemma {:induction false} RangesIncrease(s: string, p: nat, base: nat, ms: seq<Match>, k: nat)
    requires p <= |s| && Chain(s, p, ms) && k + 1 < |ms|
    ensures RangesOf(s, p, base, ms)[k].end <= RangesOf(s, p, base, ms)[k + 1].start
    decreases k
  {
    var m := ms[0];
    var b2 := base + (m.start - p) + (m.innerEnd - m.innerStart);
    if k > 0 {
      RangesIncrease(s, m.end, b2, ms[1..], k - 1);
    }
  }

  /**
    `_strip_inline_markers` keeps its promise: range k is the k-th match's
    inner group inside the clean text, with its style; the ranges are
    non-empty, increasing and disjoint.
   */
  lemma RangesSound(s: string)
    ensures var ms, rs, cl := Matches(s, 0), Ranges(s), Clean(s);
      && |rs| == |ms|
      && (forall k :: 0 <= k < |rs| ==>
            && rs[k].start < rs[k].end <= |cl| && rs[k].style == ms[k].style
            && cl[rs[k].start..rs[k].end] == Inner(s, ms[k]))
      && (forall k :: 0 <= k < |rs| - 1 ==> rs[k].end <= rs[k + 1].start)
  {
    ChainRangesSound(s, Matches(s, 0), RangesOf(s, 0, 0, Matches(s, 0)), CleanOf(s, 0, Matches(s, 0)));
  }

  /** The same over any chain from the start of the text. */
  lemma ChainRangesSound(s: string, ms: seq<Match>, rs: seq<Range>, cl: string)
    requires Chain(s, 0, ms) && rs == RangesOf(s, 0, 0, ms) && cl == CleanOf(s, 0, ms)
    ensures |rs| == |ms|
    ensures forall k :: 0 <= k < |rs| ==>
      && rs[k].start < rs[k].end <= |cl| && rs[k].style == ms[k].style
      && cl[rs[k].start..rs[k].end] == Inner(s, ms[k])
    ensures forall k :: 0 <= k < |rs| - 1 ==> rs[k].end <= rs[k + 1].start
  {
    forall k | 0 <= k < |ms|
      ensures rs[k].start < rs[k].end <= |cl| && rs[k].style == ms[k].style && cl[rs[k].start..rs[k].end] == Inner(s, ms[k])
    {
      RangeAt(s, 0, ms, k);
    }
    forall k | 0 <= k < |ms| - 1
      ensures rs[k].end <= rs[k + 1].start
    {
      RangesIncrease(s, 0, 0, ms, k);
    }
  }

  lemma {:induction false} SegmentsSpellClean(s: string, p: nat, ms: seq<Match>)
    requires p <= |s| && Chain(s, p, ms)
    ensures Texts(SegmentsOf(s, p, ms)) == CleanOf(s, p, ms)
    decreases |ms|
  {
    if ms == [] {
      if p < |s| {
        assert Texts([Plain(s[p..])]) == s[p..];
      }
    } else {
      var m := ms[0];
      var gap: seq<Segment> := if m.start > p then [Plain(s[p..m.start])] else [];
      var st := [Styled(m.style, s[m.innerStart..m.innerEnd])];
      assert Texts(gap) == s[p..m.start];
      assert Texts(st) == s[m.innerStart..m.innerEnd];
      SegmentsSpellClean(s, m.end, ms[1..]);
      TextsConcat(gap, st);
      TextsConcat(gap + st, SegmentsOf(s, m.end, ms[1..]));
    }
  }

  /**
    The two consumers agree: the Word segments' texts, glued, are the clean
    text of the Google Docs writer, that is the input with the matched
    markup removed.
   */
  lemma SegmentTextsAreClean(s: string)
    ensures Texts(InlineSegments(s)) == Clean(s)
  {
    SegmentsSpellClean(s, 0, Matches(s, 0));
    if SegmentsOf(s, 0, Matches(s, 0)) == [] {
      assert Texts([Plain(s)]) == s;
    }
  }
}
