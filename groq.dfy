/**
 * The Groq adapter (server/services/ai-providers/groq.js): the shared
 * SDK chat-completions program of ChatCompletionsSdk with this vendor's
 * constants, and its static catalog.
 */
module Groq {
  import opened Wrappers
  import opened JsString
  import opened AIProviderBase
  import opened ErrorWrap
  import opened ChatChunks
  import opened StreamFold
  import opened SdkAdapter
  import opened ChatCompletionsSdk

  const DefaultModel := "llama-3.3-70b-versatile"
  const InvalidKeyMessage := "無效的 Groq API 密鑰"
  const FailurePrefix := "Groq 生成失敗: "

  const Vendor := Profile(DefaultModel, InvalidKeyMessage, FailurePrefix)

  /** What `getProviderInfo` returns; the pricing note is not modelled. */
  const Catalog := ProviderInfo(
    "Groq",
    [
      ModelInfo("llama-4-maverick-17b-128e-instruct", "Llama 4 Maverick 17B", speed := Some("ultra-fast"), badge := Some("🆕 最新")),
      ModelInfo("llama-4-scout-17b-16e-instruct", "Llama 4 Scout 17B", speed := Some("ultra-fast"), badge := Some("🆕 最新")),
      ModelInfo("llama-3.3-70b-versatile", "Llama 3.3 70B Versatile", speed := Some("ultra-fast"), badge := Some("🚀 推薦")),
      ModelInfo("llama-3.1-70b-versatile", "Llama 3.1 70B Versatile", speed := Some("fast"), badge := Some("⭐ 高品質")),
      ModelInfo("llama-3.1-8b-instant", "Llama 3.1 8B Instant", speed := Some("instant"), badge := Some("⚡ 極速")),
      ModelInfo("gpt-oss-120b", "GPT-OSS 120B", speed := Some("fast"), badge := Some("🔓 開源 GPT")),
      ModelInfo("mixtral-8x7b-32768", "Mixtral 8x7B", speed := Some("fast"), badge := Some("🔀 MoE")),
      ModelInfo("gemma2-9b-it", "Gemma 2 9B", speed := Some("fast"), badge := Some("🔷 Google"))
    ],
    Pricing(Some(true)),
    apiUrl := Some("https://console.groq.com/keys"),
    features := Some(["超快速度", "免費使用", "開源模型", "Llama 4 Preview"]))

  /** The constructor, with its default model. */
  function New(apiKey: Option<string>, modelName: Option<string>): (r: Result<ProviderConfig, string>)
    ensures r.Err? <==> !Truthy(apiKey)
    ensures r.Ok? ==> r.value.apiKey == apiKey.value
    ensures r.Ok? && modelName.None? ==> r.value.modelName == DefaultModel
    ensures r.Ok? && modelName.Some? ==> r.value.modelName == modelName.value
  {
    Construct(apiKey, modelName, DefaultModel)
  }

  /**
   * `generateBlogPost`: the stream form is used exactly when a callback is
   * given; on the stream path the text returned is the concatenation of the
   * fragments passed to `onStream`, one per chunk while chunks carry
   * `choices`; every error is the invalid-key message or carries the failure
   * prefix.
   */
  method GenerateBlogPost(config: ProviderConfig, transcript: string, options: GenerateOptions,
                          stream: StreamOutcome<ChatChunk>, completion: Result<string, SdkError>)
    returns (request: SdkRequest, r: Result<string, string>, calls: seq<string>)
    ensures request == CompletionsRequest(config, transcript, options)
    ensures request.stream == options.streaming
    ensures options.streaming && stream.Opened? ==> calls == FoldRun(stream.chunks, DeltaStep).calls
    ensures options.streaming && stream.Opened? && stream.failure.None? && (forall k | 0 <= k < |stream.chunks| :: stream.chunks[k].choices.Some?) ==>
      && |calls| == |stream.chunks|
      && (forall k | 0 <= k < |stream.chunks| :: Some(calls[k]) == DeltaContent(stream.chunks[k]))
      && r == Ok(Concat(calls))
    ensures !options.streaming && completion.Ok? ==> r == Ok(completion.value)
    ensures r.Err? ==> r.error == InvalidKeyMessage || StartsWith(r.error, FailurePrefix)
    ensures options.streaming && r.Ok? ==> r.value == Concat(calls)
  {
    request, r, calls := ChatCompletionsSdk.GenerateBlogPost(Vendor, config, transcript, options, stream, completion);
    if options.streaming && stream.Opened? && forall k | 0 <= k < |stream.chunks| :: stream.chunks[k].choices.Some? {
      EveryChunkDelivers(stream.chunks);
    }
  }

  /** `validateApiKey` lists the models and answers whether that succeeded, never throwing. */
  function ValidateApiKey(failure: Option<SdkError>): (r: bool)
    ensures r <==> failure.None?
  {
    ProbeSucceeded(failure)
  }

  /** The invalid-key message is the answer exactly when the status is 401. */
  lemma InvalidKeyExactlyOn401(e: SdkError)
    ensures WrapError(Vendor, e) == InvalidKeyMessage <==> e.status == Some(401)
  {
    assert InvalidKeyMessage[0] != FailurePrefix[0];
    WrapErrorDistinguishes(Vendor, e);
  }

  /** The constructor's default model is listed in the catalog, which is a free tier. */
  lemma DefaultModelInCatalog()
    ensures HasModel(Catalog, DefaultModel)
    ensures Catalog.pricing.free == Some(true)
  {
    assert Catalog.models[2].id == DefaultModel;
  }
}
