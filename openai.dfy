/**
 * The OpenAI adapter (server/services/ai-providers/openai.js): the shared
 * SDK chat-completions program of ChatCompletionsSdk with this vendor's
 * constants, and its static catalog.
 */
module OpenAI {
  import opened Wrappers
  import opened JsString
  import opened AIProviderBase
  import opened ErrorWrap
  import opened ChatChunks
  import opened StreamFold
  import opened SdkAdapter
  import opened ChatCompletionsSdk

  const DefaultModel := "gpt-4o-mini"
  const InvalidKeyMessage := "無效的 OpenAI API 密鑰"
  const FailurePrefix := "OpenAI 生成失敗: "

  const Vendor := Profile(DefaultModel, InvalidKeyMessage, FailurePrefix)

  /** What `getProviderInfo` returns; the pricing note is not modelled. */
  const Catalog := ProviderInfo(
    "OpenAI",
    [
      ModelInfo("gpt-4o", "GPT-4o", quality := Some("highest"), speed := Some("fast"), badge := Some("🏆 推薦")),
      ModelInfo("gpt-4o-mini", "GPT-4o Mini", speed := Some("fastest"), cost := Some("low"), badge := Some("💰 經濟實惠")),
      ModelInfo("o1", "O1", quality := Some("highest"), badge := Some("🧠 推理專用")),
      ModelInfo("o1-mini", "O1 Mini", speed := Some("fast"), badge := Some("🧠 快速推理")),
      ModelInfo("gpt-4-turbo", "GPT-4 Turbo", quality := Some("high"))
    ],
    Pricing(Some(false)),
    apiUrl := Some("https://platform.openai.com/api-keys"),
    features := Some(["高品質輸出", "串流生成", "多語言支援", "函數調用"]))

  /** The constructor, with its default model. */
  function New(apiKey: Option<string>, modelName: Option<string>): (r: Result<ProviderConfig, string>)
    ensures r.Err? <==> !Truthy(apiKey)
    ensures r.Ok? ==> r.value.apiKey == apiKey.value
    ensures r.Ok? && modelName.None? ==> r.value.modelName == DefaultModel
    ensures r.Ok? && modelName.Some? ==> r.value.modelName == modelName.value
  {
    Construct(apiKey, modelName, DefaultModel)
  }

  /**
   * `generateBlogPost`: the stream form is used exactly when a callback is
   * given; on the stream path the text returned is the concatenation of the
   * fragments passed to `onStream`, one per chunk while chunks carry
   * `choices`; every error is the invalid-key message or carries the failure
   * prefix.
   */
  method GenerateBlogPost(config: ProviderConfig, transcript: string, options: GenerateOptions,
                          stream: StreamOutcome<ChatChunk>, completion: Result<string, SdkError>)
    returns (request: SdkRequest, r: Result<string, string>, calls: seq<string>)
    ensures request == CompletionsRequest(config, transcript, options)
    ensures request.stream == options.streaming
    ensures options.streaming && stream.Opened? ==> calls == FoldRun(stream.chunks, DeltaStep).calls
    ensures options.streaming && stream.Opened? && stream.failure.None? && (forall k | 0 <= k < |stream.chunks| :: stream.chunks[k].choices.Some?) ==>
      && |calls| == |stream.chunks|
      && (forall k | 0 <= k < |stream.chunks| :: Some(calls[k]) == DeltaContent(stream.chunks[k]))
      && r == Ok(Concat(calls))
    ensures !options.streaming && completion.Ok? ==> r == Ok(completion.value)
    ensures r.Err? ==> r.error == InvalidKeyMessage || StartsWith(r.error, FailurePrefix)
    ensures options.streaming && r.Ok? ==> r.value == Concat(calls)
  {
    request, r, calls := ChatCompletionsSdk.GenerateBlogPost(Vendor, config, transcript, options, stream, completion);
    if options.streaming && stream.Opened? && forall k | 0 <= k < |stream.chunks| :: stream.chunks[k].choices.Some? {
      EveryChunkDelivers(stream.chunks);
    }
  }

  /** `validateApiKey` lists the models and answers whether that succeeded, never throwing. */
  function ValidateApiKey(failure: Option<SdkError>): (r: bool)
    ensures r <==> failure.None?
  {
    ProbeSucceeded(failure)
  }

  /** The invalid-key message is the answer exactly when the status is 401. */
  lemma InvalidKeyExactlyOn401(e: SdkError)
    ensures WrapError(Vendor, e) == InvalidKeyMessage <==> e.status == Some(401)
  {
    assert InvalidKeyMessage[0] != FailurePrefix[0];
    WrapErrorDistinguishes(Vendor, e);
  }

  /** The constructor's default model is listed in the catalog, which is not a free tier. */
  lemma DefaultModelInCatalog()
    ensures HasModel(Catalog, DefaultModel)
    ensures Catalog.pricing.free == Some(false)
  {
    assert Catalog.models[1].id == DefaultModel;
  }
}
