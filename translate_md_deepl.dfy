/**
  The standalone DeepL script: the same classify, extract and rebuild
  skeleton as the pipeline, with its own copies of the loops, its own
  DeepL batch call, and no exception handling, so that the first failure
  ends the run.
 */
module TranslateMdDeepl {
  import opened Wrappers
  import opened Text
  import opened Classifier
  import Translators
  import TranslationPipeline

  /** DeepL target codes and their short file-name codes, as the script defines them. */
  const LangMap: map<string, string> := map["EN-GB" := "en", "FR" := "fr", "AR" := "ar", "ZH" := "zh"]

  /** What ends a run of the script: `sys.exit(1)` for a missing key, or an exception nobody catches. */
  datatype ScriptError = MissingKey | Raised(message: string)

  /** One output file: the short code naming it and the text written to it. */
  datatype LangFile = LangFile(short: string, content: string)

  /** The script's DeepL host, chosen once from `DEEPL_API_KEY`. */
  function DeepLBase(apiKey: string): (url: string)
    ensures url == "https://api-free.deepl.com" <==> EndsWith(apiKey, ":fx")
    ensures url == "https://api.deepl.com" <==> !EndsWith(apiKey, ":fx")
  {
    if EndsWith(apiKey, ":fx") then "https://api-free.deepl.com" else "https://api.deepl.com"
  }

  /** The script and the provider classes agree on the language table and on the DeepL host. */
  lemma AgreesWithProviders(apiKey: string)
    ensures LangMap == Translators.LangMap
    ensures DeepLBase(apiKey) == Translators.DeepLBaseUrl(apiKey)
  {
  }

  /** What one request contributes to `translate_batch`: nothing is caught, so every error ends the run. */
  function BatchOutcome(reply: Translators.Reply): (r: Result<seq<string>, ScriptError>)
    ensures r.Success? <==> reply.Translated?
    ensures r.Success? ==> r.value == reply.texts
    ensures r.Failure? ==> r.error == Raised(reply.error)
  {
    match reply
    case Translated(ts) => Success(ts)
    case Refused(_, error, _) => Failure(Raised(error))
    case Unreachable(error) => Failure(Raised(error))
    case Malformed(error) => Failure(Raised(error))
  }

  /** The request for one batch of at most 50 texts. */
  function BatchRequest(apiKey: string, batch: seq<string>, lang: string): Translators.Request {
    Translators.Request(DeepLBase(apiKey) + "/v2/translate", apiKey, "", batch, lang)
  }

  /** The batches from index `from` on, in order: their translations appended, or the first error. */
  function BatchesFrom(apiKey: string, texts: seq<string>, from: nat, lang: string, service: Translators.Service)
    : Result<seq<string>, ScriptError>
    decreases |texts| - from
  {
    if from >= |texts| then Success([])
    else
      var batch := texts[from..Translators.Min(from + 50, |texts|)];
      match BatchOutcome(service(BatchRequest(apiKey, batch, lang)))
      case Failure(e) => Failure(e)
      case Success(ts) =>
        match BatchesFrom(apiKey, texts, from + 50, lang, service)
        case Failure(e) => Failure(e)
        case Success(rest) => Success(ts + rest)
  }

  /** What `translate_batch` returns: `[]` for no texts, an exit for a missing key, else the batches. */
  function TranslateBatchSpec(apiKey: string, texts: seq<string>, lang: string, service: Translators.Service)
    : Result<seq<string>, ScriptError>
  {
    if texts == [] then Success([])
    else if apiKey == [] then Failure(MissingKey)
    else BatchesFrom(apiKey, texts, 0, lang, service)
  }

  /** `translate_batch` */
  method TranslateBatch(apiKey: string, texts: seq<string>, lang: string, service: Translators.Service)
    returns (r: Result<seq<string>, ScriptError>)
    ensures r == TranslateBatchSpec(apiKey, texts, lang, service)
  {
    if |texts| == 0 {
      return Success([]);
    }
    if apiKey == [] {
      return Failure(MissingKey);
    }
    var results: seq<string> := [];
    var i := 0;
    GlueGlue([], [], BatchesFrom(apiKey, texts, 0, lang, service));
    while i < |texts|
      invariant Glue(results, BatchesFrom(apiKey, texts, i, lang, service)) == BatchesFrom(apiKey, texts, 0, lang, service)
      decreases |texts| - i
    {
      var chunk := texts[i..Translators.Min(i + 50, |texts|)];
      var outcome := BatchOutcome(service(BatchRequest(apiKey, chunk, lang)));
      if outcome.Failure? {
        return Failure(outcome.error);
      }
      GlueGlue(results, outcome.value, BatchesFrom(apiKey, texts, i + 50, lang, service));
      results := results + outcome.value;
      i := i + 50;
    }
    assert results + [] == results;
    return Success(results);
  }

  /** `p` followed by a result's value; a failure stays a failure. */
  function Glue(p: seq<string>, r: Result<seq<string>, ScriptError>): Result<seq<string>, ScriptError> {
    match r
    case Success(v) => Success(p + v)
    case Failure(e) => Failure(e)
  }

  lemma GlueGlue(a: seq<string>, b: seq<string>, r: Result<seq<string>, ScriptError>)
    ensures Glue(a, Glue(b, r)) == Glue(a + b, r)
    ensures Glue([], r) == r
  {
    if r.Success? {
      assert a + (b + r.value) == (a + b) + r.value;
      assert [] + r.value == r.value;
    }
  }

  /**
    With a service that translates text by text, the script's batch call
    returns what the provider class `DeepLTranslator` returns for the same
    key: every text translated, in input order.
   */
  lemma {:induction false} BatchMatchesProvider(apiKey: string, texts: seq<string>, from: nat, lang: string,
                                               service: Translators.Service, f: (string, string) -> string)
    requires apiKey != [] && from <= |texts| && Translators.TextByText(service, f)
    ensures BatchesFrom(apiKey, texts, from, lang, service) == Success(Translators.Mapped(texts[from..], lang, f))
    ensures Translators.SendFrom(Translators.DeepL(apiKey, Translators.DeepLBaseUrl(apiKey)), texts, from, lang, service)
         == Success(BatchesFrom(apiKey, texts, from, lang, service).value)
    decreases |texts| - from
  {
    Translators.BatchingPreservesOrder(Translators.DeepL(apiKey, Translators.DeepLBaseUrl(apiKey)), texts, from, lang, service, f);
    if from < |texts| {
      var m := Translators.Min(from + 50, |texts|);
      var q := BatchRequest(apiKey, texts[from..m], lang);
      assert service(q) == Translators.Translated(Translators.Mapped(texts[from..m], lang, f));
      if from + 50 < |texts| {
        BatchMatchesProvider(apiKey, texts, from + 50, lang, service, f);
      } else {
        assert texts[m..] == [];
      }
      assert texts[from..] == texts[from..m] + texts[m..];
      Translators.MappedConcat(texts[from..m], texts[m..], lang, f);
    }
  }

  /** The short file-name code, from the script's own table. */
  function ShortCode(code: string): string {
    if code in LangMap then LangMap[code] else Split(Lower(code), "-")[0]
  }

  /** The script names its files as the pipeline names its folders. */
  lemma ShortCodesAgree(code: string)
    ensures ShortCode(code) == TranslationPipeline.ShortCode(code)
  {
  }

  /** `"\n".join(rebuilt) + "\n"`: the text written to a translated file. */
  function Render(lines: seq<string>): string {
    Join("\n", lines) + "\n"
  }

  /** What one language of the loop gives: the translation, then the rebuild, neither guarded. */
  function ScriptStep(parsed: seq<LineInfo>, texts: seq<string>, apiKey: string, lang: string,
                      service: Translators.Service): Result<seq<string>, ScriptError>
  {
    match TranslateBatchSpec(apiKey, texts, lang, service)
    case Failure(e) => Failure(e)
    case Success(translated) =>
      if TextCount(parsed) <= |translated| then Success(Rebuilt(parsed, translated))
      else Failure(Raised("list index out of range"))
  }

  /** `file` is what the loop writes for `lang`: its short code and its rebuilt lines. */
  predicate WrittenAs(file: LangFile, parsed: seq<LineInfo>, texts: seq<string>, apiKey: string, lang: string,
                      service: Translators.Service) {
    var step := ScriptStep(parsed, texts, apiKey, lang, service);
    step.Success? && file == LangFile(ShortCode(lang), Render(step.value))
  }

  /**
    The language loop of `process_file`: one file per language, in order,
    until the first language that fails, which ends the run.
   */
  method WriteLanguages(parsed: seq<LineInfo>, texts: seq<string>, langs: seq<string>, apiKey: string,
                        service: Translators.Service) returns (written: seq<LangFile>, failure: Option<ScriptError>)
    ensures |written| <= |langs|
    ensures forall k :: 0 <= k < |written| ==> WrittenAs(written[k], parsed, texts, apiKey, langs[k], service)
    ensures failure == None ==> |written| == |langs|
    ensures failure.Some? ==>
      |written| < |langs| && ScriptStep(parsed, texts, apiKey, langs[|written|], service) == Failure(failure.value)
  {
    written := [];
    for k := 0 to |langs|
      invariant |written| == k
      invariant forall j :: 0 <= j < k ==> WrittenAs(written[j], parsed, texts, apiKey, langs[j], service)
    {
      var short := ShortCode(langs[k]);
      var translated := TranslateBatch(apiKey, texts, langs[k], service);
      if translated.Failure? {
        return written, Some(translated.error);
      }
      var rebuilt := RebuildLines(parsed, translated.value);
      if rebuilt.None? {
        return written, Some(Raised("list index out of range"));
      }
      written := written + [LangFile(short, Render(rebuilt.value))];
    }
    return written, None;
  }

  /**
    `process_file` without its file system: nothing when no line carries
    text, else the language loop over the classified lines.
   */
  method ProcessFile(lines: seq<string>, langs: seq<string>, apiKey: string, service: Translators.Service)
    returns (written: seq<LangFile>, failure: Option<ScriptError>)
    ensures TextsToTranslate(Parsed(lines)) == [] ==> written == [] && failure == None
    ensures |written| <= |langs|
    ensures forall k :: 0 <= k < |written| ==>
      WrittenAs(written[k], Parsed(lines), TextsToTranslate(Parsed(lines)), apiKey, langs[k], service)
    ensures TextsToTranslate(Parsed(lines)) != [] && failure == None ==> |written| == |langs|
    ensures failure.Some? ==>
      (|written| < |langs|
       && ScriptStep(Parsed(lines), TextsToTranslate(Parsed(lines)), apiKey, langs[|written|], service) == Failure(failure.value))
  {
    var parsed := ParseLines(lines);
    var texts := TextsToTranslate(parsed);
    if texts == [] {
      return [], None;
    }
    written, failure := WriteLanguages(parsed, texts, langs, apiKey, service);
  }

  /**
    An order- and length-preserving service keeps `rebuild_lines` in bounds:
    with a key set, every language is written, each line rebuilt around the
    translation of its own text.
   */
  lemma EveryLanguageWritten(lines: seq<string>, apiKey: string, lang: string, service: Translators.Service,
                             f: (string, string) -> string)
    requires apiKey != [] && Translators.TextByText(service, f)
    ensures var parsed := Parsed(lines);
      var step := ScriptStep(parsed, TextsToTranslate(parsed), apiKey, lang, service);
      && step.Success? && |step.value| == |lines|
      && forall i :: 0 <= i < |lines| ==>
           step.value[i] == RebuildLine(parsed[i], if Translatable(parsed[i].kind) then f(parsed[i].text, lang) else "")
  {
    var parsed, texts := Parsed(lines), TextsToTranslate(Parsed(lines));
    var translated := Translators.Mapped(texts, lang, f);
    if texts != [] {
      BatchMatchesProvider(apiKey, texts, 0, lang, service, f);
      assert texts[0..] == texts;
    }
    assert TranslateBatchSpec(apiKey, texts, lang, service) == Success(translated);
    TranslationPipeline.LengthPreservingInBounds(lines, translated);
    ParsedWellFormed(lines);
    ExtractedTexts(parsed, |parsed|);
    forall i | 0 <= i < |lines|
      ensures Rebuilt(parsed, translated)[i]
        == RebuildLine(parsed[i], if Translatable(parsed[i].kind) then f(parsed[i].text, lang) else "")
    {
      CountMonotone(parsed, i + 1, |parsed|);
    }
  }
}
