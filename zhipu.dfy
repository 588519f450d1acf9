/**
 * The Zhipu AI (智譜) adapter (server/services/ai-providers/zhipu.js): the shared
 * chat-completions program of ChatCompletionsFetch with this vendor's
 * constants, and its static catalog.
 */
module Zhipu {
  import opened Wrappers
  import opened JsString
  import opened AIProviderBase
  import opened FetchAdapter
  import opened ErrorWrap
  import opened ChatCompletionsFetch
  import ChatChunks
  import ServerSentEvents

  const DefaultModel := "glm-4-flash"
  const BaseUrl := "https://open.bigmodel.cn/api/paas/v4"
  const ApiErrorLabel := "Zhipu API 錯誤: "
  const InvalidKeyMessage := "無效的 Zhipu AI API 密鑰"
  const FailurePrefix := "Zhipu AI 生成失敗: "

  const Vendor := Profile(DefaultModel, BaseUrl, ApiErrorLabel, InvalidKeyMessage, FailurePrefix, None, TestCompletion)

  /** What `getProviderInfo` returns; the pricing note is not modelled. */
  const Catalog := ProviderInfo(
    "Zhipu AI (智譜)",
    [
      ModelInfo("glm-4-plus", "GLM-4 Plus", quality := Some("highest"), speed := Some("medium"), badge := Some("🏆 旗艦版")),
      ModelInfo("glm-4-flash", "GLM-4 Flash", quality := Some("high"), speed := Some("fastest"), badge := Some("⚡ 推薦")),
      ModelInfo("glm-4", "GLM-4", quality := Some("high"), speed := Some("fast")),
      ModelInfo("glm-3-turbo", "GLM-3 Turbo", quality := Some("medium"), speed := Some("fastest"), badge := Some("💰 經濟"))
    ],
    Pricing(Some(false)),
    apiUrl := Some("https://open.bigmodel.cn"),
    features := Some(["清華背景", "中文優秀", "高性價比", "快速響應"]))

  /** The constructor, with its default model. */
  function New(apiKey: Option<string>, modelName: Option<string>): (r: Result<ProviderConfig, string>)
    ensures r.Err? <==> !Truthy(apiKey)
    ensures r.Ok? ==> r.value.apiKey == apiKey.value
    ensures r.Ok? && modelName.None? ==> r.value.modelName == DefaultModel
    ensures r.Ok? && modelName.Some? ==> r.value.modelName == modelName.value
  {
    Construct(apiKey, modelName, DefaultModel)
  }

  /**
   * `generateBlogPost`: `stream` is set exactly when a callback is given; on
   * the stream path the text returned is the concatenation of the fragments
   * passed to `onStream`; a non-ok response is reported through the outer
   * `catch`; every error is either the invalid-key message or carries the
   * failure prefix.
   */
  method GenerateBlogPost(config: ProviderConfig, transcript: string, options: GenerateOptions,
                          fetched: FetchOutcome, parse: string -> Option<ChatChunks.ChatChunk>)
    returns (request: HttpRequest, r: Result<string, string>, calls: seq<string>)
    ensures request == CompletionsRequest(Vendor, config, transcript, options)
    ensures request.body.stream == Some(options.streaming)
    ensures fetched.Received? && fetched.response.ok && options.streaming ==>
      && calls == ServerSentEvents.EventStreamCallbacks(fetched.response.chunks, parse)
      && (fetched.response.readFailure.None? ==> r == Ok(Concat(calls)))
    ensures fetched.Received? && !fetched.response.ok ==>
      && calls == []
      && r == Err(if Contains(fetched.response.bodyText, UnauthorizedMarker) then InvalidKeyMessage
                  else FailurePrefix + ApiErrorLabel + fetched.response.bodyText)
    ensures r.Err? ==> r.error == InvalidKeyMessage || StartsWith(r.error, FailurePrefix)
    ensures options.streaming && r.Ok? ==> r.value == Concat(calls)
  {
    request, r, calls := ChatCompletionsFetch.GenerateBlogPost(Vendor, config, transcript, options, fetched, parse);
    if fetched.Received? && !fetched.response.ok {
      if Contains(fetched.response.bodyText, UnauthorizedMarker) {
        NonOkBodyWith401(Vendor, fetched.response.bodyText);
      } else {
        LabelHasNoFour();
        NonOkBodyWithout401(Vendor, fetched.response.bodyText);
      }
    }
  }

  lemma LabelHasNoFour()
    ensures '4' !in ApiErrorLabel
  {
  }

  /** `validateApiKey` sends a one-message completion for the configured model. */
  function KeyCheckRequest(config: ProviderConfig): (r: HttpRequest)
    ensures r.verb == "POST" && r.url == BaseUrl + "/chat/completions" && r.bearer == config.apiKey
    ensures r.body.ChatBody? && r.body.model == config.modelName && r.body.messages == [ChatMessage("user", "test")]
    ensures r.body.stream.None? && r.body.temperature.None?
  {
    ValidationRequest(Vendor, config)
  }

  /** `validateApiKey` answers `response.ok` and turns a thrown error into `false`. */
  function ValidateApiKey(probe: ProbeOutcome): (r: bool)
    ensures r <==> probe.ProbeResponded? && probe.ok
  {
    ProbeSucceeded(probe)
  }

  /** The request carries no temperature. */
  lemma RequestHasNoTemperature(config: ProviderConfig, transcript: string, options: GenerateOptions)
    ensures CompletionsRequest(Vendor, config, transcript, options).body.temperature.None?
  {
  }

  /** The invalid-key message is the answer exactly when the error mentions `401`. */
  lemma InvalidKeyExactlyOn401(message: string)
    ensures WrapError(Vendor, message) == InvalidKeyMessage <==> Contains(message, UnauthorizedMarker)
  {
    assert InvalidKeyMessage[0] != FailurePrefix[0];
    WrapErrorDistinguishes(Vendor, message);
  }

  /** The constructor's default model is listed in the catalog, which is not a free tier. */
  lemma DefaultModelInCatalog()
    ensures HasModel(Catalog, DefaultModel)
    ensures Catalog.pricing.free == Some(false)
  {
    assert Catalog.models[1].id == DefaultModel;
  }
}
