/**
  The translation skeleton of the Markdown pipeline: classify every line,
  send the texts that carry words to a translator, and put the translations
  back behind the untouched structural prefixes, one output document per
  target language.
 */
module TranslationPipeline {
  import opened Wrappers
  import opened Text
  import opened Classifier
  import opened Translators

  /** The exception the rebuild raises when the translated texts run out. */
  datatype RebuildError = IndexError

  /** Why one target language produced no document: the translator raised, or the rebuild did. */
  datatype StepError = TranslateFailed(cause: Translators.Error) | RebuildFailed(rebuild: RebuildError)

  /** One target language's outcome: its short code and the rebuilt lines or the exception caught. */
  datatype LangOutput = LangOutput(short: string, lines: Result<seq<string>, StepError>)

  /**
    The short code naming a language's output folder and file: its entry in
    `LangMap`, else the lower-cased code up to its first '-'.
   */
  function ShortCode(code: string): (r: string)
    ensures code in LangMap ==> r == LangMap[code]
    ensures code !in LangMap ==>
      |r| <= |code| && r == Lower(code)[..|r|] && '-' !in r && (|r| < |code| ==> Lower(code)[|r|] == '-')
  {
    if code in LangMap then LangMap[code]
    else
      FirstPiece(Lower(code), '-');
      Split(Lower(code), "-")[0]
  }

  /** The first piece `split` returns is everything before the first separator. */
  lemma FirstPiece(s: string, c: char)
    ensures var p := Split(s, [c])[0];
      |p| <= |s| && p == s[..|p|] && c !in p && (|p| < |s| ==> s[|p|] == c)
  {
    var f := Find(s, [c]);
    forall j | 0 <= j < |s| && (f.Some? ==> j < f.value)
      ensures s[j] != c
    {
      assert !IsAt(s, j, [c]);
      assert s[j..j + 1] == [s[j]];
    }
    if f.Some? {
      assert s[f.value..f.value + 1] == [c];
    }
  }

  /** The short codes of the default languages. */
  lemma DefaultShortCodes()
    ensures ShortCode("EN-GB") == "en" && ShortCode("FR") == "fr"
    ensures ShortCode("AR") == "ar" && ShortCode("ZH") == "zh"
  {
  }

  /**
    What translating to one language inside the `try` block gives: the
    translator's exception, or the rebuild of the translations, or the
    rebuild's `IndexError` when the translator returned too few texts.
   */
  function LangStep(parsed: seq<LineInfo>, texts: seq<string>, translator: Translator, lang: string,
                    service: Service): Result<seq<string>, StepError>
  {
    match TranslateSpec(translator, texts, lang, service)
    case Failure(e) => Failure(TranslateFailed(e))
    case Success(translated) =>
      if TextCount(parsed) <= |translated| then Success(Rebuilt(parsed, translated))
      else Failure(RebuildFailed(IndexError))
  }

  /** Translate the extracted texts, then rebuild; either exception is caught and the language skipped. */
  method TranslateAndRebuild(parsed: seq<LineInfo>, texts: seq<string>, translator: Translator, lang: string,
                             service: Service) returns (r: Result<seq<string>, StepError>)
    ensures r == LangStep(parsed, texts, translator, lang, service)
  {
    var translated := Translate(translator, texts, lang, service);
    if translated.Failure? {
      return Failure(TranslateFailed(translated.error));
    }
    var rebuilt := RebuildLines(parsed, translated.value);
    if rebuilt.None? {
      return Failure(RebuildFailed(IndexError));
    }
    return Success(rebuilt.value);
  }

  /**
    The language loop of `process_source_file` without its file and network
    output: nothing when no line carries text, else one outcome per target
    language, in order.
   */
  method TranslateDocument(lines: seq<string>, translator: Translator, langs: seq<string>, service: Service)
    returns (outputs: seq<LangOutput>)
    ensures TextsToTranslate(Parsed(lines)) == [] ==> outputs == []
    ensures TextsToTranslate(Parsed(lines)) != [] ==>
      |outputs| == |langs|
      && forall k :: 0 <= k < |langs| ==>
           outputs[k] == LangOutput(ShortCode(langs[k]),
                                    LangStep(Parsed(lines), TextsToTranslate(Parsed(lines)), translator, langs[k], service))
  {
    var parsed := ParseLines(lines);
    var texts := TextsToTranslate(parsed);
    if texts == [] {
      return [];
    }
    outputs := LanguageLoop(parsed, texts, translator, langs, service);
  }

  /** `for lang in target_langs`: one outcome per language, in order. */
  method LanguageLoop(parsed: seq<LineInfo>, texts: seq<string>, translator: Translator, langs: seq<string>,
                      service: Service) returns (outputs: seq<LangOutput>)
    ensures |outputs| == |langs|
    ensures forall k :: 0 <= k < |langs| ==>
      outputs[k] == LangOutput(ShortCode(langs[k]), LangStep(parsed, texts, translator, langs[k], service))
  {
    outputs := [];
    for k := 0 to |langs|
      invariant |outputs| == k
      invariant forall j :: 0 <= j < k ==>
        outputs[j] == LangOutput(ShortCode(langs[j]), LangStep(parsed, texts, translator, langs[j], service))
    {
      var short := ShortCode(langs[k]);
      var result := TranslateAndRebuild(parsed, texts, translator, langs[k], service);
      outputs := outputs + [LangOutput(short, result)];
    }
  }

  /**
    A translator that returns as many texts as it was given keeps the rebuild
    in bounds: the extracted list has exactly one text per triple that takes
    one.
   */
  lemma LengthPreservingInBounds(lines: seq<string>, translated: seq<string>)
    requires |translated| == |TextsToTranslate(Parsed(lines))|
    ensures TextCount(Parsed(lines)) <= |translated|
  {
    ParsedWellFormed(lines);
    ExtractedTexts(Parsed(lines), |lines|);
  }

  /**
    With a provider whose service translates text by text, every language
    yields a document: each line is its triple rebuilt around the translation
    of that triple's own text.
   */
  lemma ProviderTranslatesEveryLine(lines: seq<string>, t: Translator, lang: string, service: Service,
                                    f: (string, string) -> string)
    requires !t.Fallback? && TextByText(service, f)
    ensures var parsed := Parsed(lines);
      var r := LangStep(parsed, TextsToTranslate(parsed), t, lang, service);
      && r.Success? && |r.value| == |lines|
      && forall i :: 0 <= i < |lines| ==>
           r.value[i] == RebuildLine(parsed[i], if Translatable(parsed[i].kind) then f(parsed[i].text, Target(t, lang)) else "")
  {
    var parsed, texts := Parsed(lines), TextsToTranslate(Parsed(lines));
    BatchingPreservesOrder(t, texts, 0, lang, service, f);
    assert texts[0..] == texts;
    var translated := Mapped(texts, Target(t, lang), f);
    LengthPreservingInBounds(lines, translated);
    ParsedWellFormed(lines);
    ExtractedTexts(parsed, |parsed|);
    forall i | 0 <= i < |lines|
      ensures Rebuilt(parsed, translated)[i]
        == RebuildLine(parsed[i], if Translatable(parsed[i].kind) then f(parsed[i].text, Target(t, lang)) else "")
    {
      CountMonotone(parsed, i + 1, |parsed|);
    }
  }
}
