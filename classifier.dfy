/**
  The Markdown line classifier shared by the translation scripts: the regular
  expressions HEADING_RE, BULLET_RE, NUMBER_RE and HR_RE written as scanners,
  the `(kind, prefix, text)` triple of one line, the list of texts sent to the
  translator, and the line rebuilt around a translated text.

  Regex semantics used here (Python `re.match`): `\s` is `Text.IsSpace`, `.` is
  any character but a newline, `\d` is an ASCII digit; greedy and lazy
  quantifiers are resolved by hand in each scanner's comment.
 */
module Classifier {
  import opened Wrappers
  import opened Text

  /** What a line regex captures: a structural prefix and the text behind it. */
  datatype Capture = Capture(prefix: string, text: string)

  /** Bounds `[start, end)` of a captured group within the line. */
  datatype Span = Span(start: nat, end: nat)

  /** No newline among `s[lo..hi]`. */
  predicate NoNewlineIn(s: string, lo: nat, hi: nat) {
    forall j :: lo <= j < hi && j < |s| ==> s[j] != '\n'
  }

  /**
    The tail `\s+(.*\S)\s*$` matched from index `i` of `line`. `\s+` first
    takes every blank; `(.*\S)` must then end at the last non-blank character
    (only blanks may follow), and `.` refuses a newline, so the group is what
    is left once the blanks at both ends are dropped, when that is non-empty
    and on one line.
   */
  function SpacedTextAt(line: string, i: nat): (r: Option<Span>)
    requires i <= |line|
    ensures r.Some? ==> var sp := r.value;
      && i < sp.start < sp.end <= |line|
      && (forall j :: i <= j < sp.start ==> IsSpace(line[j]))
      && (forall j :: sp.end <= j < |line| ==> IsSpace(line[j]))
      && !IsSpace(line[sp.start]) && !IsSpace(line[sp.end - 1])
      && NoNewlineIn(line, sp.start, sp.end)
      && StructuredText(line[sp.start..sp.end])
  {
    var k := SkipSpaces(line, i);
    var e := TrimEnd(line, k, |line|);
    if k > i && e > k && NoNewlineIn(line, k, e) then
      assert StructuredText(line[k..e]) by {
        assert line[k..e][0] == line[k];
        assert line[k..e][e - k - 1] == line[e - 1];
        assert forall j :: 0 <= j < e - k ==> line[k..e][j] == line[k + j];
      }
      Some(Span(k, e))
    else None
  }

  /** A one-line, trimmed, non-empty text behind a run of blanks is what the tail captures. */
  lemma SpacedTextOf(line: string, i: nat, k: nat)
    requires i < k < |line|
    requires forall j :: i <= j < k ==> IsSpace(line[j])
    requires StructuredText(line[k..])
    ensures SpacedTextAt(line, i) == Some(Span(k, |line|))
  {
    assert line[k] == line[k..][0];
    assert line[|line| - 1] == line[k..][|line| - k - 1];
    assert NoNewlineIn(line, k, |line|) by {
      forall j | k <= j < |line| ensures line[j] != '\n' {
        assert line[j] == line[k..][j - k];
      }
    }
  }

  /** The first index at or after `i` that is not '#'. */
  function SkipHashes(s: string, i: nat): (j: nat)
    requires i <= |s|
    ensures i <= j <= |s| && (forall k :: i <= k < j ==> s[k] == '#')
    ensures j < |s| ==> s[j] != '#'
    decreases |s| - i
  {
    if i < |s| && s[i] == '#' then SkipHashes(s, i + 1) else i
  }

  /** The first index at or after `i` that is not an ASCII digit. */
  function SkipDigits(s: string, i: nat): (j: nat)
    requires i <= |s|
    ensures i <= j <= |s| && (forall k :: i <= k < j ==> IsDigit(s[k]))
    ensures j < |s| ==> !IsDigit(s[j])
    decreases |s| - i
  {
    if i < |s| && IsDigit(s[i]) then SkipDigits(s, i + 1) else i
  }

  /**
    `^(#{1,6})\s+(.*\S)\s*$`. The line must open with one to six '#': with
    seven or more, or with fewer taken, the next character is a '#' and `\s+`
    fails.
   */
  function MatchHeading(line: string): Option<Capture> {
    var k := SkipHashes(line, 0);
    if 1 <= k <= 6 then
      match SpacedTextAt(line, k)
      case Some(sp) => Some(Capture(line[..k], line[sp.start..sp.end]))
      case None => None
    else None
  }

  /** `^(\s*)-\s+(.*\S)\s*$`: the indentation is every leading blank. */
  function MatchBullet(line: string): Option<Capture> {
    var w := LeadingSpaces(line);
    if w < |line| && line[w] == '-' then
      match SpacedTextAt(line, w + 1)
      case Some(sp) => Some(Capture(line[..w], line[sp.start..sp.end]))
      case None => None
    else None
  }

  /** `(\d+)\.\s+(.*\S)\s*$` matched from index `w`; the prefix runs up to the '.'. */
  function MatchNumberFrom(line: string, w: nat): Option<Capture>
    requires w <= |line|
  {
    var d := SkipDigits(line, w);
    if w < d < |line| && line[d] == '.' then
      match SpacedTextAt(line, d + 1)
      case Some(sp) => Some(Capture(line[..d + 1], line[sp.start..sp.end]))
      case None => None
    else None
  }

  /** `^(\d+)\.\s+(.*\S)\s*$`, with prefix `digits + "."`. */
  function MatchNumbered(s: string): Option<Capture> { MatchNumberFrom(s, 0) }

  /** `^(\s*)(\d+)\.\s+(.*\S)\s*$`, with prefix `indentation + digits + "."`. */
  function MatchNumber(line: string): Option<Capture> { MatchNumberFrom(line, LeadingSpaces(line)) }

  /** `^\s*---\s*$` */
  predicate IsHr(line: string) { Strip(line) == "---" }

  datatype LineKind = Blank | Hr | Heading | Bullet | Number | Body

  /** The `(kind, prefix, text)` triple of one line. */
  datatype LineInfo = LineInfo(kind: LineKind, prefix: string, text: string)

  /** The kinds whose text goes to the translator and is consumed when rebuilding. */
  predicate Translatable(kind: LineKind) { kind in {Heading, Bullet, Number, Body} }

  /** Text found under one of the three structural regexes. */
  predicate StructuredText(t: string) { t != [] && Trimmed(t) && NoNewline(t) }

  /**
    The body of the classification loop for one raw line: blank first, then
    rule, heading, bullet, number, and body for everything else.
   */
  function ClassifyLine(raw: string): LineInfo
  {
    var line := RStripChar(raw, '\n');
    if Strip(line) == [] then LineInfo(Blank, "", "")
    else if IsHr(line) then LineInfo(Hr, "---", "")
    else Structure(line)
  }

  /**
    What the classification promises: blank exactly for an all-blank line,
    a rule exactly for `---` between blanks, a one-line trimmed text for the
    structural kinds, the stripped line for a body, and a text exactly for
    the kinds the rebuild consumes.
   */
  lemma ClassifyLineFacts(raw: string)
    ensures var line, e := RStripChar(raw, '\n'), ClassifyLine(raw);
      && (e.kind == Blank <==> AllSpace(line))
      && (e.kind == Blank ==> e == LineInfo(Blank, "", ""))
      && (e.kind == Hr <==> !AllSpace(line) && Strip(line) == "---")
      && (e.kind == Hr ==> e == LineInfo(Hr, "---", ""))
      && (e.kind in {Heading, Bullet, Number} ==> StructuredText(e.text))
      && (e.kind == Body ==> e.prefix == "" && e.text == Strip(line) && e.text != "")
      && (e.text != "" <==> Translatable(e.kind))
  {
  }

  /** A line that is neither blank nor a rule: the first structural regex that matches, else a body. */
  function Structure(line: string): (e: LineInfo)
    ensures e.kind != Blank && e.kind != Hr
    ensures e.kind in {Heading, Bullet, Number} ==> StructuredText(e.text)
    ensures e.kind == Body ==> e.prefix == "" && e.text == Strip(line)
  {
    if MatchHeading(line).Some? then
      LineInfo(Heading, MatchHeading(line).value.prefix, MatchHeading(line).value.text)
    else if MatchBullet(line).Some? then
      LineInfo(Bullet, MatchBullet(line).value.prefix, MatchBullet(line).value.text)
    else if MatchNumber(line).Some? then
      LineInfo(Number, MatchNumber(line).value.prefix, MatchNumber(line).value.text)
    else LineInfo(Body, "", Strip(line))
  }

  /** What the heading regex matches is its hashes, blanks, the text and blanks. */
  lemma MatchHeadingShape(line: string) returns (w1: string, w2: string)
    requires MatchHeading(line).Some?
    ensures var c := MatchHeading(line).value;
      && |w1| >= 1 && AllSpace(w1) && AllSpace(w2)
      && line == c.prefix + w1 + c.text + w2 && HeadingPrefix(c.prefix)
  {
    var k := SkipHashes(line, 0);
    var sp := SpacedTextAt(line, k).value;
    assert MatchHeading(line).value == Capture(line[..k], line[sp.start..sp.end]);
    w1, w2 := CutAround(line, k, sp.start, sp.end);
  }

  /** What the bullet regex matches is its indentation, '-', blanks, the text and blanks. */
  lemma MatchBulletShape(line: string) returns (w1: string, w2: string)
    requires MatchBullet(line).Some?
    ensures var c := MatchBullet(line).value;
      && |w1| >= 1 && AllSpace(w1) && AllSpace(w2)
      && line == c.prefix + "-" + w1 + c.text + w2 && AllSpace(c.prefix)
  {
    var w := LeadingSpaces(line);
    var sp := SpacedTextAt(line, w + 1).value;
    var c := MatchBullet(line).value;
    assert c.prefix == line[..w] && c.text == line[sp.start..sp.end];
    IndentBlank(line);
    w1, w2 := CutAroundDash(line, w, sp.start, sp.end);
  }

  /** What the number regex matches is its indentation, digits and '.', blanks, the text and blanks. */
  lemma MatchNumberShape(line: string) returns (w1: string, w2: string)
    requires MatchNumber(line).Some?
    ensures var c := MatchNumber(line).value;
      && |w1| >= 1 && AllSpace(w1) && AllSpace(w2)
      && line == c.prefix + w1 + c.text + w2 && NumberPrefix(c.prefix)
  {
    var w := LeadingSpaces(line);
    var d := SkipDigits(line, w);
    var sp := SpacedTextAt(line, d + 1).value;
    assert MatchNumber(line).value == Capture(line[..d + 1], line[sp.start..sp.end]);
    w1, w2 := CutAround(line, d + 1, sp.start, sp.end);
    NumberPrefixOf(line, d);
  }

  /** Indentation, digits up to index `d` and the '.' at `d` make a number prefix. */
  lemma NumberPrefixOf(line: string, d: nat)
    requires LeadingSpaces(line) < d < |line| && line[d] == '.'
    requires forall i :: LeadingSpaces(line) <= i < d ==> IsDigit(line[i])
    ensures NumberPrefix(line[..d + 1])
  {
    var p, w := line[..d + 1], LeadingSpaces(line);
    assert forall i :: 0 <= i < |p| ==> p[i] == line[i];
    LeadingSpacesOf(p, w);
  }

  /** As `CutAround`, with a '-' just before the blanks. */
  lemma CutAroundDash(s: string, a: nat, b: nat, c: nat) returns (w1: string, w2: string)
    requires a + 1 < b <= c <= |s| && s[a] == '-'
    requires forall j :: a + 1 <= j < b ==> IsSpace(s[j])
    requires forall j :: c <= j < |s| ==> IsSpace(s[j])
    ensures w1 == s[a + 1..b] && w2 == s[c..]
    ensures |w1| >= 1 && AllSpace(w1) && AllSpace(w2)
    ensures s == s[..a] + "-" + w1 + s[b..c] + w2
  {
    w1, w2 := s[a + 1..b], s[c..];
    Concat5(s, a, a + 1, b, c);
    assert s[a..a + 1] == "-";
  }

  /** A line cut before the blanks, at the text, and after it, with blanks on both sides. */
  lemma CutAround(s: string, a: nat, b: nat, c: nat) returns (w1: string, w2: string)
    requires a < b <= c <= |s|
    requires forall j :: a <= j < b ==> IsSpace(s[j])
    requires forall j :: c <= j < |s| ==> IsSpace(s[j])
    ensures w1 == s[a..b] && w2 == s[c..]
    ensures |w1| >= 1 && AllSpace(w1) && AllSpace(w2)
    ensures s == s[..a] + w1 + s[b..c] + w2
  {
    w1, w2 := s[a..b], s[c..];
    Concat4(s, a, b, c);
  }

  /** Each structural kind carries the capture of its regex. */
  lemma ClassifiedCapture(raw: string)
    ensures var line, e := RStripChar(raw, '\n'), ClassifyLine(raw);
      && (e.kind == Heading ==> MatchHeading(line) == Some(Capture(e.prefix, e.text)))
      && (e.kind == Bullet ==> MatchBullet(line) == Some(Capture(e.prefix, e.text)))
      && (e.kind == Number ==> MatchNumber(line) == Some(Capture(e.prefix, e.text)))
  {
    var line := RStripChar(raw, '\n');
    if Strip(line) != [] && !IsHr(line) {
      StructureCapture(line);
    }
  }

  lemma StructureCapture(line: string)
    ensures var e := Structure(line);
      && (e.kind == Heading ==> MatchHeading(line) == Some(Capture(e.prefix, e.text)))
      && (e.kind == Bullet ==> MatchBullet(line) == Some(Capture(e.prefix, e.text)))
      && (e.kind == Number ==> MatchNumber(line) == Some(Capture(e.prefix, e.text)))
  {
    CaptureChoice(MatchHeading(line), MatchBullet(line), MatchNumber(line), Strip(line));
  }

  /** The choice `Structure` makes among the three regexes' results, for any results. */
  lemma CaptureChoice(h: Option<Capture>, b: Option<Capture>, n: Option<Capture>, body: string)
    ensures var e :=
      if h.Some? then LineInfo(Heading, h.value.prefix, h.value.text)
      else if b.Some? then LineInfo(Bullet, b.value.prefix, b.value.text)
      else if n.Some? then LineInfo(Number, n.value.prefix, n.value.text)
      else LineInfo(Body, "", body);
      && (e.kind == Heading ==> h == Some(Capture(e.prefix, e.text)))
      && (e.kind == Bullet ==> b == Some(Capture(e.prefix, e.text)))
      && (e.kind == Number ==> n == Some(Capture(e.prefix, e.text)))
  {
  }

  /**
    The prefix of a structural line is copied from the line itself: the line
    is the prefix (a bullet's followed by its '-'), at least one blank, the
    text, and blanks.
   */
  lemma PrefixVerbatim(raw: string) returns (w1: string, w2: string)
    requires ClassifyLine(raw).kind in {Heading, Bullet, Number}
    ensures var e := ClassifyLine(raw);
      && |w1| >= 1 && AllSpace(w1) && AllSpace(w2)
      && RStripChar(raw, '\n') == (if e.kind == Bullet then e.prefix + "-" else e.prefix) + w1 + e.text + w2
      && (e.kind == Heading ==> HeadingPrefix(e.prefix))
      && (e.kind == Bullet ==> AllSpace(e.prefix))
      && (e.kind == Number ==> NumberPrefix(e.prefix))
  {
    var line, e := RStripChar(raw, '\n'), ClassifyLine(raw);
    ClassifiedCapture(raw);
    if e.kind == Heading {
      w1, w2 := MatchHeadingShape(line);
    } else if e.kind == Bullet {
      w1, w2 := MatchBulletShape(line);
    } else {
      w1, w2 := MatchNumberShape(line);
    }
  }
  /** One to six '#'. */
  predicate HeadingPrefix(p: string) {
    1 <= |p| <= 6 && forall i :: 0 <= i < |p| ==> p[i] == '#'
  }

  /** Leading blanks, at least one digit, then '.'. */
  predicate NumberPrefix(p: string) {
    var w := LeadingSpaces(p);
    && |p| >= w + 2 && p[|p| - 1] == '.'
    && forall i :: w <= i < |p| - 1 ==> IsDigit(p[i])
  }

  /** The line written back for one triple and the text that replaces its own. */
  function RebuildLine(e: LineInfo, t: string): string {
    match e.kind
    case Blank => ""
    case Hr => "---"
    case Heading => e.prefix + " " + t
    case Bullet => e.prefix + "- " + t
    case Number => e.prefix + " " + t
    case Body => t
  }

  /** Number of triples among `parsed[..n]` whose kind consumes a translated text. */
  function CountUpTo(parsed: seq<LineInfo>, n: nat): nat
    requires n <= |parsed|
  {
    if n == 0 then 0
    else CountUpTo(parsed, n - 1) + (if Translatable(parsed[n - 1].kind) then 1 else 0)
  }

  /** Number of triples in `parsed` whose kind consumes a translated text. */
  function TextCount(parsed: seq<LineInfo>): nat { CountUpTo(parsed, |parsed|) }

  lemma {:induction false} CountMonotone(parsed: seq<LineInfo>, m: nat, n: nat)
    requires m <= n <= |parsed|
    ensures CountUpTo(parsed, m) <= CountUpTo(parsed, n)
    ensures m < n && Translatable(parsed[m].kind) ==> CountUpTo(parsed, m) < CountUpTo(parsed, n)
    decreases n
  {
    if m < n {
      CountMonotone(parsed, m, n - 1);
    }
  }

  /**
    The translated text that the `i`-th triple takes when rebuilding: the
    next unconsumed one for the kinds that take a text, none otherwise (and
    none once the translated texts have run out).
   */
  function TextFor(parsed: seq<LineInfo>, translated: seq<string>, i: nat): string
    requires i < |parsed|
  {
    if Translatable(parsed[i].kind) && CountUpTo(parsed, i) < |translated| then translated[CountUpTo(parsed, i)] else ""
  }

  /** What rebuilding `parsed` with enough translated texts writes, line by line. */
  function Rebuilt(parsed: seq<LineInfo>, translated: seq<string>): (out: seq<string>)
    requires TextCount(parsed) <= |translated|
    ensures |out| == |parsed|
  {
    seq(|parsed|, i requires 0 <= i < |parsed| => RebuildLine(parsed[i], TextFor(parsed, translated, i)))
  }

  /** The first `n` rebuilt lines, one appended per triple. */
  function RebuiltUpTo(parsed: seq<LineInfo>, translated: seq<string>, n: nat): seq<string>
    requires n <= |parsed|
  {
    if n == 0 then [] else RebuiltUpTo(parsed, translated, n - 1) + [RebuildLine(parsed[n - 1], TextFor(parsed, translated, n - 1))]
  }

  /** Appending the lines one by one writes the rebuild line by line. */
  lemma {:induction false} RebuiltUpToAll(parsed: seq<LineInfo>, translated: seq<string>, n: nat)
    requires n <= |parsed|
    ensures |RebuiltUpTo(parsed, translated, n)| == n
    ensures forall i :: 0 <= i < n ==>
      RebuiltUpTo(parsed, translated, n)[i] == RebuildLine(parsed[i], TextFor(parsed, translated, i))
  {
    if n > 0 {
      RebuiltUpToAll(parsed, translated, n - 1);
      var prev := RebuiltUpTo(parsed, translated, n - 1);
      var line := RebuildLine(parsed[n - 1], TextFor(parsed, translated, n - 1));
      var r := RebuiltUpTo(parsed, translated, n);
      assert r == prev + [line];
      SnocIndex(prev, line);
      forall i | 0 <= i < n
        ensures r[i] == RebuildLine(parsed[i], TextFor(parsed, translated, i))
      {
        if i < n - 1 {
          assert r[i] == prev[i];
        }
      }
    }
  }

  /** Appending the lines one by one for every triple writes the whole rebuild. */
  lemma RebuiltUpToWhole(parsed: seq<LineInfo>, translated: seq<string>)
    requires TextCount(parsed) <= |translated|
    ensures RebuiltUpTo(parsed, translated, |parsed|) == Rebuilt(parsed, translated)
  {
    RebuiltUpToAll(parsed, translated, |parsed|);
    var a, b := RebuiltUpTo(parsed, translated, |parsed|), Rebuilt(parsed, translated);
    assert forall i :: 0 <= i < |parsed| ==> a[i] == b[i];
  }

  /**
    `rebuild_lines` of the DeepL script and `rebuild_markdown_from_translations`
    of the pipeline (the two are the same loop): one line per triple, the
    translated texts taken strictly in order. `None` is the `IndexError` that
    `translated_texts[t_idx]` raises exactly when the texts run out.
   */
  method RebuildLines(parsed: seq<LineInfo>, translated: seq<string>) returns (r: Option<seq<string>>)
    ensures r.Some? <==> TextCount(parsed) <= |translated|
    ensures r.Some? ==> r.value == Rebuilt(parsed, translated)
  {
    var out: seq<string> := [];
    var tIdx := 0;
    for i := 0 to |parsed|
      invariant tIdx == CountUpTo(parsed, i) && tIdx <= |translated|
      invariant out == RebuiltUpTo(parsed, translated, i)
    {
      var e := parsed[i];
      if e.kind == Blank {
        out := out + [""];
        assert CountUpTo(parsed, i + 1) == tIdx;
      } else if e.kind == Hr {
        out := out + ["---"];
        assert CountUpTo(parsed, i + 1) == tIdx;
      } else {
        if tIdx >= |translated| {
          CountMonotone(parsed, i + 1, |parsed|);
          return None;
        }
        var t := translated[tIdx];
        if e.kind == Heading {
          out := out + [e.prefix + " " + t];
        } else if e.kind == Bullet {
          out := out + [e.prefix + "- " + t];
        } else if e.kind == Number {
          out := out + [e.prefix + " " + t];
        } else {
          out := out + [t];
        }
        assert CountUpTo(parsed, i + 1) == tIdx + 1;
        assert TextFor(parsed, translated, i) == t;
        tIdx := tIdx + 1;
      }
    }
    RebuiltUpToWhole(parsed, translated);
    return Some(out);
  }

  /** The whole document classified, one triple per line. */
  function Parsed(lines: seq<string>): (parsed: seq<LineInfo>)
    ensures |parsed| == |lines|
  {
    seq(|lines|, i requires 0 <= i < |lines| => ClassifyLine(lines[i]))
  }

  /** The body of the classification loop for one raw line, branch by branch as the loop reads it. */
  method ClassifyRaw(raw: string) returns (e: LineInfo)
    ensures e == ClassifyLine(raw)
  {
    var line := RStripChar(raw, '\n');
    if Strip(line) == [] {
      return LineInfo(Blank, "", "");
    }
    if IsHr(line) {
      return LineInfo(Hr, "---", "");
    }
    var m := MatchHeading(line);
    if m.Some? {
      return LineInfo(Heading, m.value.prefix, m.value.text);
    }
    m := MatchBullet(line);
    if m.Some? {
      return LineInfo(Bullet, m.value.prefix, m.value.text);
    }
    m := MatchNumber(line);
    if m.Some? {
      return LineInfo(Number, m.value.prefix, m.value.text);
    }
    return LineInfo(Body, "", Strip(line));
  }

  /**
    `parse_markdown_lines` of the pipeline and `parse_lines` of the DeepL
    script (the two are the same loop): one triple per line, in input order.
   */
  method ParseLines(lines: seq<string>) returns (parsed: seq<LineInfo>)
    ensures |parsed| == |lines|
    ensures forall i :: 0 <= i < |lines| ==> parsed[i] == ClassifyLine(lines[i])
    ensures parsed == Parsed(lines)
  {
    ghost var whole := Parsed(lines);
    parsed := [];
    for i := 0 to |lines|
      invariant parsed == whole[..i]
    {
      var e := ClassifyRaw(lines[i]);
      assert e == whole[i];
      parsed := parsed + [e];
      PrefixSnoc(whole, i);
    }
    assert whole[..|lines|] == whole;
  }

  /** `[text for kind, _pfx, text in parsed[..n] if text]` */
  function TextsUpTo(parsed: seq<LineInfo>, n: nat): seq<string>
    requires n <= |parsed|
  {
    if n == 0 then []
    else TextsUpTo(parsed, n - 1) + (if parsed[n - 1].text != "" then [parsed[n - 1].text] else [])
  }

  /** `[text for kind, _pfx, text in parsed if text]`: the texts sent to the translator. */
  function TextsToTranslate(parsed: seq<LineInfo>): seq<string> { TextsUpTo(parsed, |parsed|) }

  /** Triples as the classifier makes them: a text exactly when the kind takes one. */
  predicate WellFormed(parsed: seq<LineInfo>) {
    forall i :: 0 <= i < |parsed| ==> (parsed[i].text != "" <==> Translatable(parsed[i].kind))
  }

  lemma ParsedWellFormed(lines: seq<string>)
    ensures WellFormed(Parsed(lines))
  {
    forall i | 0 <= i < |lines| ensures (Parsed(lines)[i].text != "" <==> Translatable(Parsed(lines)[i].kind)) {
      ClassifyLineFacts(lines[i]);
    }
  }

  /**
    For well-formed triples, the extracted list has one entry per
    translatable triple, and the text of the triple with `k` translatable
    triples before it is at position `k`: the texts of headings, bullets,
    numbers and bodies, in document order.
   */
  lemma {:induction false} ExtractedTexts(parsed: seq<LineInfo>, n: nat)
    requires n <= |parsed| && WellFormed(parsed)
    ensures |TextsUpTo(parsed, n)| == CountUpTo(parsed, n)
    ensures forall i :: 0 <= i < n && Translatable(parsed[i].kind) ==>
      CountUpTo(parsed, i) < CountUpTo(parsed, n)
      && TextsUpTo(parsed, n)[CountUpTo(parsed, i)] == parsed[i].text
  {
    if n > 0 {
      ExtractedTexts(parsed, n - 1);
      forall i | 0 <= i < n && Translatable(parsed[i].kind)
        ensures CountUpTo(parsed, i) < CountUpTo(parsed, n)
      {
        CountMonotone(parsed, i, n);
      }
    }
  }

  /**
    A line that ends in a non-blank character is kept whole by
    `rstrip("\\n")` and is not blank; it is not a rule either when its first
    non-blank character, or the one after, is not '-'.
   */
  lemma SolidLine(l: string)
    requires |l| > 0 && !IsSpace(l[|l| - 1])
    ensures RStripChar(l, '\n') == l && !AllSpace(l)
    ensures var k := LeadingSpaces(l);
      k < |l| && (l[k] != '-' || (k + 1 < |l| && l[k + 1] != '-')) ==> !IsHr(l)
  {
    var r := Strip(l);
    var k := LeadingSpaces(l);
    assert k + |r| == |l|;
  }

  /** A line laid out as one to six '#', one blank and a structured text is a heading. */
  lemma HeadingLine(l: string, k: nat)
    requires 1 <= k <= 6 && k + 1 < |l|
    requires forall i :: 0 <= i < k ==> l[i] == '#'
    requires l[k] == ' ' && StructuredText(l[k + 1..])
    ensures ClassifyLine(l) == LineInfo(Heading, l[..k], l[k + 1..])
  {
    assert l[|l| - 1] == l[k + 1..][|l| - k - 2];
    assert LeadingSpaces(l) == 0;
    SolidLine(l);
    assert SkipHashes(l, 0) == k;
    SpacedTextOf(l, k, k + 1);
    assert Structure(l) == LineInfo(Heading, l[..k], l[k + 1..]);
  }

  /** Hashes, one blank and a structured text classify as that heading. */
  lemma ReclassifyHeading(p: string, t: string)
    requires HeadingPrefix(p) && StructuredText(t)
    ensures ClassifyLine(p + " " + t) == LineInfo(Heading, p, t)
  {
    var l := p + " " + t;
    var k := |p|;
    assert l[..k] == p;
    assert l[k + 1..] == t;
    HeadingLine(l, k);
  }

  /** A line laid out as indentation, '-', one blank and a structured text is a bullet. */
  lemma BulletLine(l: string, w: nat)
    requires w + 2 < |l|
    requires forall i :: 0 <= i < w ==> IsSpace(l[i])
    requires l[w] == '-' && l[w + 1] == ' ' && StructuredText(l[w + 2..])
    ensures ClassifyLine(l) == LineInfo(Bullet, l[..w], l[w + 2..])
  {
    assert l[|l| - 1] == l[w + 2..][|l| - w - 3];
    assert LeadingSpaces(l) == w by { LeadingSpacesOf(l, w); }
    SolidLine(l);
    assert SkipHashes(l, 0) == 0 by { assert l[0] == '-' || IsSpace(l[0]); }
    BulletMatch(l, w);
    assert Structure(l) == LineInfo(Bullet, l[..w], l[w + 2..]);
  }

  /** The bullet regex on such a line captures the indentation and the text. */
  lemma BulletMatch(l: string, w: nat)
    requires w + 2 < |l|
    requires LeadingSpaces(l) == w
    requires l[w] == '-' && l[w + 1] == ' ' && StructuredText(l[w + 2..])
    ensures MatchBullet(l) == Some(Capture(l[..w], l[w + 2..]))
  {
    SpacedTextOf(l, w + 1, w + 2);
    assert l[w + 2..|l|] == l[w + 2..];
  }

  /** Indentation, "- " and a structured text classify as that bullet. */
  lemma ReclassifyBullet(p: string, t: string)
    requires AllSpace(p) && StructuredText(t)
    ensures ClassifyLine(p + "- " + t) == LineInfo(Bullet, p, t)
  {
    var l := p + "- " + t;
    var w := |p|;
    assert l[..w] == p;
    assert l[w + 2..] == t;
    BulletLine(l, w);
  }

  /** A line laid out as indentation, digits, '.', one blank and a structured text is numbered. */
  lemma NumberLine(l: string, w: nat, d: nat)
    requires w < d && d + 2 < |l|
    requires forall i :: 0 <= i < w ==> IsSpace(l[i])
    requires forall i :: w <= i < d ==> IsDigit(l[i])
    requires l[d] == '.' && l[d + 1] == ' ' && StructuredText(l[d + 2..])
    ensures ClassifyLine(l) == LineInfo(Number, l[..d + 1], l[d + 2..])
  {
    assert l[|l| - 1] == l[d + 2..][|l| - d - 3];
    assert LeadingSpaces(l) == w by { LeadingSpacesOf(l, w); }
    SolidLine(l);
    assert SkipHashes(l, 0) == 0 by { assert IsDigit(l[0]) || IsSpace(l[0]); }
    assert MatchHeading(l) == None;
    assert MatchBullet(l) == None;
    NumberMatch(l, w, d);
    assert Structure(l) == LineInfo(Number, l[..d + 1], l[d + 2..]);
  }

  /** The number regex on such a line captures the digits with their '.' and the text. */
  lemma NumberMatch(l: string, w: nat, d: nat)
    requires w < d && d + 2 < |l|
    requires LeadingSpaces(l) == w
    requires forall i :: w <= i < d ==> IsDigit(l[i])
    requires l[d] == '.' && l[d + 1] == ' ' && StructuredText(l[d + 2..])
    ensures MatchNumber(l) == Some(Capture(l[..d + 1], l[d + 2..]))
  {
    assert SkipDigits(l, w) == d;
    SpacedTextOf(l, d + 1, d + 2);
    assert MatchNumberFrom(l, w) == Some(Capture(l[..d + 1], l[d + 2..|l|]));
    assert l[d + 2..|l|] == l[d + 2..];
  }

  /** A number prefix, one blank and a structured text classify as that numbered item. */
  lemma ReclassifyNumber(p: string, t: string)
    requires NumberPrefix(p) && StructuredText(t)
    ensures ClassifyLine(p + " " + t) == LineInfo(Number, p, t)
  {
    var l := p + " " + t;
    var d := |p| - 1;
    assert l[..d + 1] == p;
    assert l[d + 2..] == t;
    NumberLine(l, LeadingSpaces(p), d);
  }

  /**
    Rebuilding a heading, bullet or number around any one-line, trimmed,
    non-empty text gives a line that classifies as the same kind with the
    same prefix and exactly that text: the structure survives translation.
   */
  lemma Reclassify(raw: string, t: string)
    requires ClassifyLine(raw).kind in {Heading, Bullet, Number}
    requires StructuredText(t)
    ensures ClassifyLine(RebuildLine(ClassifyLine(raw), t)) == LineInfo(ClassifyLine(raw).kind, ClassifyLine(raw).prefix, t)
  {
    var e := ClassifyLine(raw);
    var _, _ := PrefixVerbatim(raw);
    if e.kind == Heading {
      ReclassifyHeading(e.prefix, t);
    } else if e.kind == Bullet {
      ReclassifyBullet(e.prefix, t);
    } else {
      ReclassifyNumber(e.prefix, t);
    }
  }

  /** Blank lines and rules rebuild to lines that classify the same way. */
  lemma ReclassifyBlankAndRule(raw: string)
    requires ClassifyLine(raw).kind in {Blank, Hr}
    ensures ClassifyLine(RebuildLine(ClassifyLine(raw), "")) == ClassifyLine(raw)
  {
    var l := RebuildLine(ClassifyLine(raw), "");
    if l == "---" {
      StripOfTrimmed(l);
    }
  }

  /**
    Feeding the extracted texts straight back rebuilds every line except a
    body into one that classifies exactly as the original did.
   */
  lemma IdentityRoundTrip(lines: seq<string>)
    ensures TextCount(Parsed(lines)) <= |TextsToTranslate(Parsed(lines))|
    ensures var parsed := Parsed(lines);
      forall i :: 0 <= i < |lines| ==>
        ClassifyLine(Rebuilt(parsed, TextsToTranslate(parsed))[i])
          == if parsed[i].kind == Body then ClassifyLine(parsed[i].text) else parsed[i]
  {
    var parsed := Parsed(lines);
    ParsedWellFormed(lines);
    ExtractedTexts(parsed, |parsed|);
    var texts := TextsToTranslate(parsed);
    var out := Rebuilt(parsed, texts);
    forall i | 0 <= i < |lines|
      ensures ClassifyLine(out[i]) == (if parsed[i].kind == Body then ClassifyLine(parsed[i].text) else parsed[i])
    {
      var e := parsed[i];
      ClassifyLineFacts(lines[i]);
      CountMonotone(parsed, i + 1, |parsed|);
      if e.kind in {Heading, Bullet, Number} {
        assert TextFor(parsed, texts, i) == e.text;
        Reclassify(lines[i], e.text);
      } else if e.kind in {Blank, Hr} {
        ReclassifyBlankAndRule(lines[i]);
      } else {
        assert TextFor(parsed, texts, i) == e.text;
      }
    }
  }

  /**
    A body does not survive in general: " # x" is a body (the heading regex
    wants the '#' first), and its text "# x" then reads as a heading.
   */
  lemma BodyDoesNotRoundTrip()
    ensures ClassifyLine(" # x") == LineInfo(Body, "", "# x")
    ensures ClassifyLine(RebuildLine(ClassifyLine(" # x"), "# x")) == LineInfo(Heading, "#", "x")
  {
    SpacedHashIsBody();
    assert RebuildLine(LineInfo(Body, "", "# x"), "# x") == "# x";
    HashIsHeading();
  }

  /** "# x" is a level-one heading. */
  lemma HashIsHeading()
    ensures ClassifyLine("# x") == LineInfo(Heading, "#", "x")
  {
    var h := "# x";
    assert h[..1] == "#" && h[2..] == "x";
    HeadingLine(h, 1);
  }

  /** " # x" matches none of the structural regexes. */
  lemma SpacedHashIsBody()
    ensures ClassifyLine(" # x") == LineInfo(Body, "", "# x")
  {
    var line := " # x";
    assert LeadingSpaces(line) == 1;
    assert TrimEnd(line, 1, 4) == 4;
    assert Strip(line) == "# x";
    assert RStripChar(line, '\n') == line;
    assert MatchHeading(line) == None by {
      assert SkipHashes(line, 0) == 0;
    }
    assert MatchBullet(line) == None;
    assert MatchNumber(line) == None by {
      assert SkipDigits(line, 1) == 1;
    }
  }
}
