/**
  The translation providers: DeepL and Azure send the texts in consecutive
  batches and translate the target language code, a fallback translator tries
  several providers in order, and a factory picks providers from the
  environment. The HTTP endpoint of a provider is a `Service`: a function from
  the request it is sent to the reply it gives.
 */
module Translators {
  import opened Wrappers
  import opened Text

  /** DeepL target codes and the short codes used in output file and folder names. */
  const LangMap: map<string, string> := map["EN-GB" := "en", "FR" := "fr", "AR" := "ar", "ZH" := "zh"]

  /** The target languages used when none are given: the keys of `LangMap`, in order. */
  const DefaultLangs: seq<string> := ["EN-GB", "FR", "AR", "ZH"]

  /** The exceptions a translator can raise. */
  datatype Error =
    | TranslationError(message: string)
    | ValueError(message: string)
      /** Any other exception, such as the `KeyError` of a reply whose JSON has an unexpected shape. */
    | OtherError(message: string)

  /** One HTTP request to a provider: its URL, credentials, a batch of texts and the target language. */
  datatype Request = Request(url: string, key: string, region: string, texts: seq<string>, target: string)

  /** What a provider's endpoint does with one request. */
  datatype Reply =
      /** A successful response holding one translation per text, in order. */
    | Translated(texts: seq<string>)
      /** A 4xx or 5xx response: `raise_for_status` raises an `HTTPError` whose message is `error`. */
    | Refused(status: int, error: string, body: string)
      /** No response at all (connection failure, timeout): a `RequestException` with message `error`. */
    | Unreachable(error: string)
      /** A successful response whose JSON lacks the expected keys. */
    | Malformed(error: string)

  type Service = Request -> Reply

  datatype Translator =
    | DeepL(apiKey: string, baseUrl: string)
    | Azure(apiKey: string, region: string)
    | Fallback(translators: seq<Translator>)

  /** The environment variables the factory reads, `""` when unset. */
  datatype Env = Env(deeplKey: string, azureKey: string, azureRegion: string)

  const DeepLFreeUrl := "https://api-free.deepl.com"
  const DeepLProUrl := "https://api.deepl.com"
  const AzureUrl := "https://api.cognitive.microsofttranslator.com"

  /** A fallback translator holds at least one provider, recursively. */
  predicate Valid(t: Translator) {
    match t
    case Fallback(ts) => |ts| > 0 && forall i :: 0 <= i < |ts| ==> Valid(ts[i])
    case _ => true
  }

  /** `type(t).__name__` */
  function TypeName(t: Translator): string {
    match t
    case DeepL(_, _) => "DeepLTranslator"
    case Azure(_, _) => "AzureTranslator"
    case Fallback(_) => "FallbackTranslator"
  }

  function Min(a: int, b: int): int { if a <= b then a else b }

  // ---------------------------------------------------------------------------
  // Construction
  // ---------------------------------------------------------------------------

  /** The DeepL host for an API key: keys of the free plan end in ":fx". */
  function DeepLBaseUrl(apiKey: string): (url: string)
    ensures url == DeepLFreeUrl <==> EndsWith(apiKey, ":fx")
    ensures url == DeepLProUrl <==> !EndsWith(apiKey, ":fx")
  {
    if EndsWith(apiKey, ":fx") then DeepLFreeUrl else DeepLProUrl
  }

  /** `DeepLTranslator(api_key)`, where `apiKey` is the argument or else `DEEPL_API_KEY`. */
  function NewDeepL(apiKey: string): (r: Result<Translator, Error>)
    ensures r.Failure? <==> apiKey == []
    ensures r.Failure? ==> r.error == TranslationError("DEEPL_API_KEY not found in .env")
    ensures r.Success? ==> r.value.DeepL? && r.value.apiKey == apiKey
    ensures r.Success? ==> (r.value.baseUrl == DeepLFreeUrl <==> EndsWith(apiKey, ":fx"))
  {
    if apiKey == [] then Failure(TranslationError("DEEPL_API_KEY not found in .env"))
    else Success(DeepL(apiKey, DeepLBaseUrl(apiKey)))
  }

  /** `AzureTranslator(api_key, region)`, each argument defaulting to its environment variable. */
  function NewAzure(apiKey: string, region: string): (r: Result<Translator, Error>)
    ensures r.Failure? <==> apiKey == []
    ensures r.Failure? ==> r.error == TranslationError("AZURE_TRANSLATOR_KEY not found in .env")
    ensures r.Success? ==> r.value == Azure(apiKey, region)
  {
    if apiKey == [] then Failure(TranslationError("AZURE_TRANSLATOR_KEY not found in .env"))
    else Success(Azure(apiKey, region))
  }

  /** `FallbackTranslator(translators)` */
  function NewFallback(ts: seq<Translator>): (r: Result<Translator, Error>)
    ensures r.Failure? <==> ts == []
    ensures r.Failure? ==> r.error.ValueError?
    ensures r.Success? ==> r.value.Fallback? && r.value.translators == ts
  {
    if ts == [] then Failure(ValueError("FallbackTranslator requires at least one translator."))
    else Success(Fallback(ts))
  }

  // ---------------------------------------------------------------------------
  // Language codes
  // ---------------------------------------------------------------------------

  /** `AzureTranslator._map_lang_code`: DeepL codes to the BCP 47 codes Azure expects. */
  function MapLangCode(lang: string): (r: string)
    ensures Upper(lang) == "EN-GB" ==> r == "en-GB"
    ensures Upper(lang) == "ZH" ==> r == "zh-Hans"
    ensures Upper(lang) != "EN-GB" && Upper(lang) != "ZH" ==> r == Lower(lang)
  {
    if Upper(lang) == "EN-GB" then "en-GB"
    else if Upper(lang) == "ZH" then "zh-Hans"
    else Lower(lang)
  }

  lemma UpperLowerChar(c: char)
    ensures UpperChar(LowerChar(c)) == UpperChar(c)
    ensures LowerChar(UpperChar(c)) == LowerChar(c)
    ensures UpperChar(UpperChar(c)) == UpperChar(c)
    ensures LowerChar(LowerChar(c)) == LowerChar(c)
  {
  }

  /** Ignoring case: the mapping sees only the upper-cased or lower-cased code. */
  lemma {:induction false} MapLangCodeIgnoresCase(lang: string)
    ensures MapLangCode(Lower(lang)) == MapLangCode(lang)
    ensures MapLangCode(Upper(lang)) == MapLangCode(lang)
  {
    forall i | 0 <= i < |lang|
      ensures Upper(Lower(lang))[i] == Upper(lang)[i] && Lower(Lower(lang))[i] == Lower(lang)[i]
      ensures Upper(Upper(lang))[i] == Upper(lang)[i] && Lower(Upper(lang))[i] == Lower(lang)[i]
    {
      UpperLowerChar(lang[i]);
    }
    assert Upper(Lower(lang)) == Upper(lang);
    assert Lower(Lower(lang)) == Lower(lang);
    assert Upper(Upper(lang)) == Upper(lang);
    assert Lower(Upper(lang)) == Lower(lang);
  }

  /** The Azure codes of the default languages. */
  lemma MapDefaultLangs()
    ensures MapLangCode("EN-GB") == "en-GB" && MapLangCode("FR") == "fr"
    ensures MapLangCode("AR") == "ar" && MapLangCode("ZH") == "zh-Hans"
  {
    assert Upper("EN-GB") == "EN-GB";
    assert Upper("FR") == "FR" && Lower("FR") == "fr";
    assert Upper("AR") == "AR" && Lower("AR") == "ar";
    assert Upper("ZH") == "ZH";
  }

  // ---------------------------------------------------------------------------
  // Batched requests
  // ---------------------------------------------------------------------------

  /** Texts per request: 50 for DeepL, 100 for Azure. */
  function MaxBatch(t: Translator): nat
    requires !t.Fallback?
  {
    if t.DeepL? then 50 else 100
  }

  /** The language code a provider puts in its request. */
  function Target(t: Translator, lang: string): string
    requires !t.Fallback?
  {
    if t.Azure? then MapLangCode(lang) else lang
  }

  /** The request a provider sends for one batch. */
  function RequestFor(t: Translator, batch: seq<string>, lang: string): Request
    requires !t.Fallback?
  {
    match t
    case DeepL(key, base) => Request(base + "/v2/translate", key, "", batch, lang)
    case Azure(key, region) => Request(AzureUrl + "/translate", key, region, batch, MapLangCode(lang))
  }

  /** The message of the `TranslationError` Azure raises on a 403 response. */
  function AzureForbidden(body: string): string {
    "Azure API Error (403). Check your tier quota or valid region."
    + (if Contains(Lower(body), "out of call volume quota") then " Quota exceeded." else "")
  }

  /** What one request contributes to `DeepLTranslator.translate`: its translations or the exception raised. */
  function DeepLOutcome(reply: Reply): (r: Result<seq<string>, Error>)
    ensures reply.Translated? <==> r.Success?
    ensures reply.Refused? && reply.status == 456 ==> r == Failure(TranslationError("DeepL quota exceeded."))
    ensures reply.Refused? && reply.status != 456 ==> r == Failure(TranslationError("DeepL API request failed: " + reply.error))
    ensures reply.Unreachable? ==> r == Failure(TranslationError("DeepL API request failed: " + reply.error))
    ensures reply.Malformed? ==> r == Failure(OtherError(reply.error))
  {
    match reply
    case Translated(ts) => Success(ts)
    case Refused(status, error, _) =>
      if status == 456 then Failure(TranslationError("DeepL quota exceeded."))
      else Failure(TranslationError("DeepL API request failed: " + error))
    case Unreachable(error) => Failure(TranslationError("DeepL API request failed: " + error))
    case Malformed(error) => Failure(OtherError(error))
  }

  /** What one request contributes to `AzureTranslator.translate`. */
  function AzureOutcome(reply: Reply): (r: Result<seq<string>, Error>)
    ensures reply.Translated? <==> r.Success?
    ensures reply.Refused? && reply.status == 403 ==> r == Failure(TranslationError(AzureForbidden(reply.body)))
    ensures reply.Refused? && reply.status != 403 ==>
      r == Failure(TranslationError("Azure API request failed: " + reply.error + " — " + reply.body))
    ensures reply.Unreachable? ==> r == Failure(TranslationError("Azure API request failed: " + reply.error))
    ensures reply.Malformed? ==> r == Failure(OtherError(reply.error))
  {
    match reply
    case Translated(ts) => Success(ts)
    case Refused(status, error, body) =>
      if status == 403 then Failure(TranslationError(AzureForbidden(body)))
      else Failure(TranslationError("Azure API request failed: " + error + " — " + body))
    case Unreachable(error) => Failure(TranslationError("Azure API request failed: " + error))
    case Malformed(error) => Failure(OtherError(error))
  }

  function Outcome(t: Translator, reply: Reply): Result<seq<string>, Error>
    requires !t.Fallback?
  {
    if t.DeepL? then DeepLOutcome(reply) else AzureOutcome(reply)
  }

  /** `p` followed by a result's value; a failure stays a failure. */
  function Prepend(p: seq<string>, r: Result<seq<string>, Error>): Result<seq<string>, Error> {
    match r
    case Success(v) => Success(p + v)
    case Failure(e) => Failure(e)
  }

  lemma PrependNothing(r: Result<seq<string>, Error>)
    ensures Prepend([], r) == r
    ensures r.Success? ==> Prepend(r.value, Success([])) == r
  {
    if r.Success? {
      assert [] + r.value == r.value;
      assert r.value + [] == r.value;
    }
  }

  lemma PrependPrepend(a: seq<string>, b: seq<string>, r: Result<seq<string>, Error>)
    ensures Prepend(a, Prepend(b, r)) == Prepend(a + b, r)
  {
    if r.Success? {
      assert a + (b + r.value) == (a + b) + r.value;
    }
  }

  /**
    The batches from index `from` on, sent in order: their translations
    appended, or the exception of the first batch that fails.
   */
  function SendFrom(t: Translator, texts: seq<string>, from: nat, lang: string, service: Service): Result<seq<string>, Error>
    requires !t.Fallback?
    decreases |texts| - from
  {
    if from >= |texts| then Success([])
    else
      var batch := texts[from..Min(from + MaxBatch(t), |texts|)];
      match Outcome(t, service(RequestFor(t, batch, lang)))
      case Failure(e) => Failure(e)
      case Success(ts) => Prepend(ts, SendFrom(t, texts, from + MaxBatch(t), lang, service))
  }

  /** `DeepLTranslator.translate`: the batch loop. */
  method DeepLTranslate(t: Translator, texts: seq<string>, targetLang: string, service: Service)
    returns (r: Result<seq<string>, Error>)
    requires t.DeepL?
    ensures r == SendFrom(t, texts, 0, targetLang, service)
  {
    if |texts| == 0 {
      return Success([]);
    }
    var results: seq<string> := [];
    var i := 0;
    PrependNothing(SendFrom(t, texts, 0, targetLang, service));
    while i < |texts|
      invariant Prepend(results, SendFrom(t, texts, i, targetLang, service)) == SendFrom(t, texts, 0, targetLang, service)
      decreases |texts| - i
    {
      var chunk := texts[i..Min(i + 50, |texts|)];
      var reply := service(Request(t.baseUrl + "/v2/translate", t.apiKey, "", chunk, targetLang));
      var outcome := DeepLOutcome(reply);
      if outcome.Failure? {
        return Failure(outcome.error);
      }
      PrependPrepend(results, outcome.value, SendFrom(t, texts, i + 50, targetLang, service));
      results := results + outcome.value;
      i := i + 50;
    }
    PrependNothing(Success(results));
    return Success(results);
  }

  /** `AzureTranslator.translate`: the language code is mapped once, then the batch loop. */
  method AzureTranslate(t: Translator, texts: seq<string>, targetLang: string, service: Service)
    returns (r: Result<seq<string>, Error>)
    requires t.Azure?
    ensures r == SendFrom(t, texts, 0, targetLang, service)
  {
    if |texts| == 0 {
      return Success([]);
    }
    var results: seq<string> := [];
    var azureTarget := MapLangCode(targetLang);
    var i := 0;
    PrependNothing(SendFrom(t, texts, 0, targetLang, service));
    while i < |texts|
      invariant Prepend(results, SendFrom(t, texts, i, targetLang, service)) == SendFrom(t, texts, 0, targetLang, service)
      decreases |texts| - i
    {
      var chunk := texts[i..Min(i + 100, |texts|)];
      var reply := service(Request(AzureUrl + "/translate", t.apiKey, t.region, chunk, azureTarget));
      var outcome := AzureOutcome(reply);
      if outcome.Failure? {
        return Failure(outcome.error);
      }
      PrependPrepend(results, outcome.value, SendFrom(t, texts, i + 100, targetLang, service));
      results := results + outcome.value;
      i := i + 100;
    }
    PrependNothing(Success(results));
    return Success(results);
  }

  /** The batches a provider cuts `texts[from..]` into. */
  function Batches(texts: seq<string>, from: nat, n: nat): seq<seq<string>>
    requires n > 0
    decreases |texts| - from
  {
    if from >= |texts| then [] else [texts[from..Min(from + n, |texts|)]] + Batches(texts, from + n, n)
  }

  function Concat(parts: seq<seq<string>>): seq<string> {
    if parts == [] then [] else parts[0] + Concat(parts[1..])
  }

  /** The batches are non-empty, hold at most `n` texts each, and are consecutive slices covering the input. */
  lemma {:induction false} BatchesCover(texts: seq<string>, from: nat, n: nat)
    requires n > 0 && from <= |texts|
    ensures Concat(Batches(texts, from, n)) == texts[from..]
    ensures forall k :: 0 <= k < |Batches(texts, from, n)| ==> 0 < |Batches(texts, from, n)[k]| <= n
    decreases |texts| - from
  {
    if from < |texts| {
      var m := Min(from + n, |texts|);
      var rest := Batches(texts, m, n);
      if from + n < |texts| {
        BatchesCover(texts, from + n, n);
      } else {
        assert rest == [];
      }
      assert Batches(texts, from, n) == [texts[from..m]] + rest;
      assert ([texts[from..m]] + rest)[1..] == rest;
      assert texts[from..] == texts[from..m] + texts[m..];
    }
  }

  /** Every text of `s` translated on its own with `f`, in order. */
  function Mapped(s: seq<string>, target: string, f: (string, string) -> string): (r: seq<string>)
    ensures |r| == |s| && forall j :: 0 <= j < |s| ==> r[j] == f(s[j], target)
  {
    seq(|s|, j requires 0 <= j < |s| => f(s[j], target))
  }

  lemma MappedConcat(a: seq<string>, b: seq<string>, target: string, f: (string, string) -> string)
    ensures Mapped(a + b, target, f) == Mapped(a, target, f) + Mapped(b, target, f)
  {
  }

  /** A service that translates every text of a request on its own, with `f`. */
  ghost predicate TextByText(service: Service, f: (string, string) -> string) {
    forall q: Request :: service(q) == Translated(Mapped(q.texts, q.target, f))
  }

  /**
    Batching is invisible: with a service that translates text by text, the
    provider returns the translation of every input text, in input order.
   */
  lemma {:induction false} BatchingPreservesOrder(t: Translator, texts: seq<string>, from: nat, lang: string,
                                                  service: Service, f: (string, string) -> string)
    requires !t.Fallback? && from <= |texts| && TextByText(service, f)
    ensures SendFrom(t, texts, from, lang, service) == Success(Mapped(texts[from..], Target(t, lang), f))
    decreases |texts| - from
  {
    if from < |texts| {
      var m := Min(from + MaxBatch(t), |texts|);
      var q := RequestFor(t, texts[from..m], lang);
      assert service(q) == Translated(Mapped(texts[from..m], Target(t, lang), f));
      if from + MaxBatch(t) < |texts| {
        BatchingPreservesOrder(t, texts, from + MaxBatch(t), lang, service, f);
      } else {
        assert texts[m..] == [];
      }
      assert texts[from..] == texts[from..m] + texts[m..];
      MappedConcat(texts[from..m], texts[m..], Target(t, lang), f);
    }
  }

  /** A batch that fails ends the translation with its exception, once every earlier batch succeeded. */
  lemma {:induction false} FirstFailingBatch(t: Translator, texts: seq<string>, from: nat, lang: string, service: Service, k: nat)
    requires !t.Fallback? && k < |Batches(texts, from, MaxBatch(t))|
    requires forall j :: 0 <= j < k ==> Outcome(t, service(RequestFor(t, Batches(texts, from, MaxBatch(t))[j], lang))).Success?
    requires Outcome(t, service(RequestFor(t, Batches(texts, from, MaxBatch(t))[k], lang))).Failure?
    ensures SendFrom(t, texts, from, lang, service)
      == Failure(Outcome(t, service(RequestFor(t, Batches(texts, from, MaxBatch(t))[k], lang))).error)
    decreases k
  {
    var n := MaxBatch(t);
    var b0, rest := texts[from..Min(from + n, |texts|)], Batches(texts, from + n, n);
    assert Batches(texts, from, n) == [b0] + rest;
    ConsParts(b0, rest);
    var o := Outcome(t, service(RequestFor(t, b0, lang)));
    if k > 0 {
      FirstFailingBatch(t, texts, from + n, lang, service, k - 1);
      assert o.Success?;
      assert SendFrom(t, texts, from, lang, service) == Prepend(o.value, SendFrom(t, texts, from + n, lang, service));
    }
  }

  // ---------------------------------------------------------------------------
  // Translation with fallback
  // ---------------------------------------------------------------------------

  /** What `t.translate(texts, lang)` returns or raises. */
  function TranslateSpec(t: Translator, texts: seq<string>, lang: string, service: Service): Result<seq<string>, Error>
    decreases t, 1
  {
    match t
    case Fallback(_) => FallbackFrom(t, 0, [], texts, lang, service)
    case _ => SendFrom(t, texts, 0, lang, service)
  }

  /** The fallback loop from provider `i` on, with the error messages gathered so far. */
  function FallbackFrom(t: Translator, i: nat, errors: seq<string>, texts: seq<string>, lang: string, service: Service)
    : Result<seq<string>, Error>
    requires t.Fallback? && i <= |t.translators|
    decreases t, 0, |t.translators| - i
  {
    if i == |t.translators| then Failure(TranslationError(AllFailed(errors)))
    else
      match TranslateSpec(t.translators[i], texts, lang, service)
      case Success(v) => Success(v)
      case Failure(e) =>
        if e.TranslationError? then FallbackFrom(t, i + 1, errors + [TypeName(t.translators[i]) + ": " + e.message], texts, lang, service)
        else Failure(e)
  }

  /** The message raised once every provider has failed: one indented line per provider. */
  function AllFailed(errors: seq<string>): string {
    "All translation providers failed:\n  " + Join("\n  ", errors)
  }

  /** `t.translate(texts, lang)` for any translator. */
  method Translate(t: Translator, texts: seq<string>, lang: string, service: Service)
    returns (r: Result<seq<string>, Error>)
    ensures r == TranslateSpec(t, texts, lang, service)
    decreases t, 1
  {
    match t
    case DeepL(_, _) => r := DeepLTranslate(t, texts, lang, service);
    case Azure(_, _) => r := AzureTranslate(t, texts, lang, service);
    case Fallback(_) => r := FallbackTranslate(t, texts, lang, service);
  }

  /** `FallbackTranslator.translate`: each provider in turn until one does not raise `TranslationError`. */
  method FallbackTranslate(t: Translator, texts: seq<string>, lang: string, service: Service)
    returns (r: Result<seq<string>, Error>)
    requires t.Fallback?
    ensures r == TranslateSpec(t, texts, lang, service)
    decreases t, 0
  {
    var errors: seq<string> := [];
    var i := 0;
    while i < |t.translators|
      invariant i <= |t.translators|
      invariant FallbackFrom(t, i, errors, texts, lang, service) == TranslateSpec(t, texts, lang, service)
      decreases |t.translators| - i
    {
      var p := t.translators[i];
      var res := Translate(p, texts, lang, service);
      if res.Success? {
        return res;
      }
      if !res.error.TranslationError? {
        return res;
      }
      errors := errors + [TypeName(p) + ": " + res.error.message];
      i := i + 1;
    }
    return Failure(TranslationError(AllFailed(errors)));
  }

  /** The `TranslationError` messages of providers `i` to `k`, each behind its provider's class name. */
  function FailureLog(ts: seq<Translator>, i: nat, k: nat, texts: seq<string>, lang: string, service: Service): seq<string>
    requires i <= k <= |ts|
    requires forall j :: i <= j < k ==> Skipped(ts[j], texts, lang, service)
    decreases k - i
  {
    if i == k then []
    else
      assert Skipped(ts[i], texts, lang, service);
      [TypeName(ts[i]) + ": " + TranslateSpec(ts[i], texts, lang, service).error.message]
      + FailureLog(ts, i + 1, k, texts, lang, service)
  }

  /** A provider that raises `TranslationError`, so that the fallback moves on to the next. */
  predicate Skipped(p: Translator, texts: seq<string>, lang: string, service: Service) {
    var r := TranslateSpec(p, texts, lang, service);
    r.Failure? && r.error.TranslationError?
  }

  /** Providers that raise `TranslationError` are skipped, their messages logged in order. */
  lemma {:induction false} FallbackSkips(t: Translator, i: nat, k: nat, errors: seq<string>,
                                         texts: seq<string>, lang: string, service: Service)
    requires t.Fallback? && i <= k <= |t.translators|
    requires forall j :: i <= j < k ==> Skipped(t.translators[j], texts, lang, service)
    ensures FallbackFrom(t, i, errors, texts, lang, service)
      == FallbackFrom(t, k, errors + FailureLog(t.translators, i, k, texts, lang, service), texts, lang, service)
    decreases k - i
  {
    if i < k {
      var entry := TypeName(t.translators[i]) + ": " + TranslateSpec(t.translators[i], texts, lang, service).error.message;
      FallbackSkips(t, i + 1, k, errors + [entry], texts, lang, service);
      assert errors + [entry] + FailureLog(t.translators, i + 1, k, texts, lang, service)
          == errors + FailureLog(t.translators, i, k, texts, lang, service);
    } else {
      assert errors + [] == errors;
    }
  }

  /** The first provider that succeeds, after any that raised `TranslationError`, gives the result. */
  lemma FallbackFirstSuccess(t: Translator, k: nat, texts: seq<string>, lang: string, service: Service)
    requires t.Fallback? && k < |t.translators|
    requires forall j :: 0 <= j < k ==> Skipped(t.translators[j], texts, lang, service)
    requires TranslateSpec(t.translators[k], texts, lang, service).Success?
    ensures TranslateSpec(t, texts, lang, service) == TranslateSpec(t.translators[k], texts, lang, service)
  {
    FallbackSkips(t, 0, k, [], texts, lang, service);
  }

  /** An exception other than `TranslationError` propagates at once. */
  lemma FallbackOtherErrorPropagates(t: Translator, k: nat, texts: seq<string>, lang: string, service: Service)
    requires t.Fallback? && k < |t.translators|
    requires forall j :: 0 <= j < k ==> Skipped(t.translators[j], texts, lang, service)
    requires TranslateSpec(t.translators[k], texts, lang, service).Failure?
    requires !TranslateSpec(t.translators[k], texts, lang, service).error.TranslationError?
    ensures TranslateSpec(t, texts, lang, service) == TranslateSpec(t.translators[k], texts, lang, service)
  {
    FallbackSkips(t, 0, k, [], texts, lang, service);
  }

  /** When every provider raises `TranslationError`, one is raised naming each provider's failure in order. */
  lemma FallbackAllFail(t: Translator, texts: seq<string>, lang: string, service: Service)
    requires t.Fallback?
    requires forall j :: 0 <= j < |t.translators| ==> Skipped(t.translators[j], texts, lang, service)
    ensures TranslateSpec(t, texts, lang, service)
      == Failure(TranslationError(AllFailed(FailureLog(t.translators, 0, |t.translators|, texts, lang, service))))
  {
    FallbackSkips(t, 0, |t.translators|, [], texts, lang, service);
    assert [] + FailureLog(t.translators, 0, |t.translators|, texts, lang, service)
        == FailureLog(t.translators, 0, |t.translators|, texts, lang, service);
  }

  /** Nothing to translate: every well-formed translator returns `[]`, whatever its service does. */
  lemma {:induction false} EmptyInput(t: Translator, lang: string, service: Service)
    requires Valid(t)
    ensures TranslateSpec(t, [], lang, service) == Success([])
    decreases t
  {
    if t.Fallback? {
      EmptyInput(t.translators[0], lang, service);
    }
  }

  // ---------------------------------------------------------------------------
  // Factory
  // ---------------------------------------------------------------------------

  const NoProviderMessage := "No translation provider configured. Set DEEPL_API_KEY or AZURE_TRANSLATOR_KEY in your .env file."

  /** `get_translator(provider)` */
  method GetTranslator(provider: string, env: Env) returns (r: Result<Translator, Error>)
    ensures r.Success? ==> Valid(r.value)
    ensures Lower(provider) == "auto" ==>
      (r.Failure? <==> env.deeplKey == [] && env.azureKey == [])
      && (r.Failure? ==> r.error == TranslationError(NoProviderMessage))
      && (env.deeplKey != [] && env.azureKey == [] ==> r == NewDeepL(env.deeplKey))
      && (env.deeplKey == [] && env.azureKey != [] ==> r == NewAzure(env.azureKey, env.azureRegion))
      && (env.deeplKey != [] && env.azureKey != [] ==>
            r == Success(Fallback([NewDeepL(env.deeplKey).value, NewAzure(env.azureKey, env.azureRegion).value])))
    ensures Lower(provider) == "deepl" ==> r == NewDeepL(env.deeplKey)
    ensures Lower(provider) == "azure" ==> r == NewAzure(env.azureKey, env.azureRegion)
    ensures Lower(provider) !in {"auto", "deepl", "azure"} ==>
      r == Failure(ValueError("Unknown translation provider: " + Lower(provider)))
  {
    var name := Lower(provider);
    if name == "auto" {
      var translators: seq<Translator> := [];
      if env.deeplKey != [] {
        var d := NewDeepL(env.deeplKey);
        if d.Success? {
          translators := translators + [d.value];
        }
      }
      if env.azureKey != [] {
        var a := NewAzure(env.azureKey, env.azureRegion);
        if a.Success? {
          translators := translators + [a.value];
        }
      }
      if |translators| == 0 {
        return Failure(TranslationError(NoProviderMessage));
      }
      if |translators| == 1 {
        return Success(translators[0]);
      }
      assert translators == [NewDeepL(env.deeplKey).value, NewAzure(env.azureKey, env.azureRegion).value];
      return Success(Fallback(translators));
    }
    if name == "deepl" {
      return NewDeepL(env.deeplKey);
    } else if name == "azure" {
      return NewAzure(env.azureKey, env.azureRegion);
    } else {
      return Failure(ValueError("Unknown translation provider: " + name));
    }
  }
}
