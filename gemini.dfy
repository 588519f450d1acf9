/**
 * The Gemini adapter (server/services/ai-providers/gemini.js): the SDK's
 * `generateContentStream` or `generateContent`, where reading a chunk's text
 * may itself throw, a `catch` that looks for the case-sensitive words
 * `API key` in the message, and a key check that always uses one fixed
 * model.
 */
module Gemini {
  import opened Wrappers
  import opened JsString
  import opened AIProviderBase
  import opened ErrorWrap
  import opened StreamFold
  import opened SdkAdapter

  const DefaultModel := "gemini-2.5-flash"
  /** The model `validateApiKey` always probes, whatever model is configured. */
  const ProbeModel := "gemini-2.5-flash"
  const ApiKeyMarker := "API key"
  const InvalidKeyMessage := "無效的 Gemini API 密鑰"
  const FailurePrefix := "Gemini 生成失敗: "

  /** A stream chunk, seen through `chunk.text()`: its text, or the message `text()` throws. */
  type GeminiChunk = Result<string, string>

  /** What `getProviderInfo` returns; the pricing note is not modelled. */
  const Catalog := ProviderInfo(
    "Google Gemini",
    [
      ModelInfo("gemini-3-pro-preview", "Gemini 3 Pro Preview", quality := Some("highest"), speed := Some("medium"), badge := Some("🌟 最新"), description := Some("最先進的多模態理解和程式碼能力")),
      ModelInfo("gemini-2.5-pro", "Gemini 2.5 Pro", quality := Some("high"), speed := Some("medium"), badge := Some("🧠 深度思考"), description := Some("適合複雜推理、程式碼和長文本分析")),
      ModelInfo("gemini-2.5-flash", "Gemini 2.5 Flash", quality := Some("high"), speed := Some("fast"), badge := Some("⚡ 推薦"), description := Some("最佳性價比，適合大規模處理")),
      ModelInfo("gemini-2.0-flash", "Gemini 2.0 Flash", speed := Some("fast"), description := Some("快速且可靠的選擇")),
      ModelInfo("gemini-2.0-flash-exp", "Gemini 2.0 Flash Experimental", speed := Some("fast"), badge := Some("🧪 實驗性")),
      ModelInfo("gemini-1.5-flash", "Gemini 1.5 Flash", speed := Some("fast")),
      ModelInfo("gemini-1.5-pro", "Gemini 1.5 Pro", quality := Some("high"), speed := Some("medium"))
    ],
    Pricing(Some(true)),
    apiUrl := Some("https://aistudio.google.com/app/apikey"),
    features := Some(["串流生成", "長文本支援", "免費使用", "多模態理解", "程式碼生成"]))

  /** The constructor, with its default model. */
  function New(apiKey: Option<string>, modelName: Option<string>): (r: Result<ProviderConfig, string>)
    ensures r.Err? <==> !Truthy(apiKey)
    ensures r.Ok? ==> r.value.apiKey == apiKey.value
    ensures r.Ok? && modelName.None? ==> r.value.modelName == DefaultModel
    ensures r.Ok? && modelName.Some? ==> r.value.modelName == modelName.value
  {
    Construct(apiKey, modelName, DefaultModel)
  }

  /** The loop body: a chunk's text is delivered, even when empty; a failing `text()` throws. */
  function TextStep(c: GeminiChunk): (r: Step)
    ensures c.Ok? <==> r.Emit?
    ensures c.Ok? ==> r.text == c.value
    ensures c.Err? ==> r == Throw(c.error)
  {
    match c
    case Ok(t) => Emit(t)
    case Err(m) => Throw(m)
  }

  /** The outer `catch`: the words `API key`, case-sensitive, mean an invalid key; the status is not looked at. */
  function WrapError(e: SdkError): (r: string)
    ensures Contains(e.message, ApiKeyMarker) ==> r == InvalidKeyMessage
    ensures !Contains(e.message, ApiKeyMarker) ==> r == FailurePrefix + e.message
  {
    assert MentionsAny(e.message, [ApiKeyMarker]) <==> Contains(e.message, ApiKeyMarker) by {
      assert [ApiKeyMarker][0] == ApiKeyMarker;
    }
    CatchByMessage([ApiKeyMarker], InvalidKeyMessage, FailurePrefix, e.message)
  }

  function Wrapper(): SdkError -> string {
    e => WrapError(e)
  }

  /** The content call for the configured model, in its streaming form exactly when a callback is given. */
  function ContentRequest(config: ProviderConfig, transcript: string, options: GenerateOptions): (r: SdkRequest)
    ensures r.GenerateContent? && r.model == config.modelName && r.stream == options.streaming
    ensures r.prompt == BuildPrompt(transcript, options.language, options.style)
  {
    GenerateContent(config.modelName, BuildPrompt(transcript, options.language, options.style), options.streaming)
  }

  /**
   * `generateBlogPost`: the call it makes, then, given the SDK's stream or
   * response, the result and the `onStream` trace.
   */
  method GenerateBlogPost(config: ProviderConfig, transcript: string, options: GenerateOptions,
                          stream: StreamOutcome<GeminiChunk>, completion: Result<string, SdkError>)
    returns (request: SdkRequest, r: Result<string, string>, calls: seq<string>)
    ensures request == ContentRequest(config, transcript, options)
    ensures !options.streaming ==>
      && calls == []
      && r == (match completion
               case Ok(text) => Ok(text)
               case Err(e) => Err(WrapError(e)))
    ensures options.streaming && stream.OpenFailed? ==> calls == [] && r == Err(WrapError(stream.error))
    ensures options.streaming && stream.Opened? ==>
      var run := FoldRun(stream.chunks, TextStep);
      && calls == run.calls
      && r == (if run.thrown.Some? then Err(WrapError(SdkError(None, run.thrown.value)))
               else if stream.failure.Some? then Err(WrapError(stream.failure.value))
               else Ok(Concat(calls)))
    ensures options.streaming && stream.Opened? && stream.failure.None? && (forall k | 0 <= k < |stream.chunks| :: stream.chunks[k].Ok?) ==>
      && |calls| == |stream.chunks|
      && (forall k | 0 <= k < |stream.chunks| :: calls[k] == stream.chunks[k].value)
      && r == Ok(Concat(calls))
    ensures options.streaming && r.Ok? ==> r.value == Concat(calls)
  {
    request := ContentRequest(config, transcript, options);
    r, calls := Generate(options.streaming, stream, completion, TextStep, Wrapper());
    if options.streaming && stream.Opened? && forall k | 0 <= k < |stream.chunks| :: stream.chunks[k].Ok? {
      OkChunksDeliverEach(stream.chunks);
    }
  }

  /** When every chunk yields its text, `onStream` receives each text once, in order. */
  lemma OkChunksDeliverEach(chunks: seq<GeminiChunk>)
    requires forall k | 0 <= k < |chunks| :: chunks[k].Ok?
    ensures FoldRun(chunks, TextStep).thrown.None?
    ensures |FoldRun(chunks, TextStep).calls| == |chunks|
    ensures forall k | 0 <= k < |chunks| :: FoldRun(chunks, TextStep).calls[k] == chunks[k].value
  {
    FoldRunNoThrow(chunks, TextStep);
    EmittedEach(chunks, TextStep);
  }

  /** `validateApiKey` sends `'test'` to the fixed probe model. */
  function KeyCheckRequest(config: ProviderConfig): (r: SdkRequest)
    ensures r == GenerateContent(ProbeModel, "test", false)
  {
    GenerateContent(ProbeModel, "test", false)
  }

  /** `validateApiKey` answers whether the probe succeeded, never throwing. */
  function ValidateApiKey(failure: Option<SdkError>): (r: bool)
    ensures r <==> failure.None?
  {
    ProbeSucceeded(failure)
  }

  /** The key check does not depend on the configured model. */
  lemma KeyCheckIgnoresConfiguredModel(c1: ProviderConfig, c2: ProviderConfig)
    requires c1.apiKey == c2.apiKey
    ensures KeyCheckRequest(c1) == KeyCheckRequest(c2)
    ensures KeyCheckRequest(c1).model == ProbeModel
  {
  }

  /** The invalid-key message is the answer exactly when the message mentions `API key`. */
  lemma InvalidKeyExactlyOnMarker(e: SdkError)
    ensures WrapError(e) == InvalidKeyMessage <==> Contains(e.message, ApiKeyMarker)
  {
    assert InvalidKeyMessage[0] != FailurePrefix[0];
    CatchByMessageDistinguishes([ApiKeyMarker], InvalidKeyMessage, FailurePrefix, e.message);
    assert MentionsAny(e.message, [ApiKeyMarker]) <==> Contains(e.message, ApiKeyMarker) by {
      assert [ApiKeyMarker][0] == ApiKeyMarker;
    }
  }

  /**
   * The match is case-sensitive and ignores the status: a 401 whose message
   * reads `api key not valid` is reported as a generation failure.
   */
  lemma LowerCaseKeyMessageNotRecognised()
    ensures WrapError(SdkError(Some(401), "api key not valid")) == FailurePrefix + "api key not valid"
  {
    assert !Contains("api key not valid", ApiKeyMarker) by { NotContainsChar("api key not valid", ApiKeyMarker, 0); }
  }

  /** A chunk whose `text()` throws ends the stream; what came before is kept in the trace. */
  lemma FailingChunkEndsStream(chunks: seq<GeminiChunk>, k: nat)
    requires k < |chunks| && chunks[k].Err?
    requires forall j | 0 <= j < k :: chunks[j].Ok?
    ensures FoldRun(chunks, TextStep) == FoldState(Emitted(chunks[..k], TextStep), Some(chunks[k].error))
  {
    FoldRunFirstThrow(chunks, TextStep, k);
  }

  /** The constructor's default model is listed in the catalog, which is a free tier. */
  lemma DefaultModelInCatalog()
    ensures HasModel(Catalog, DefaultModel)
    ensures Catalog.pricing.free == Some(true)
  {
    assert Catalog.models[2].id == DefaultModel;
  }
}
