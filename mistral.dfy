/**
 * The Mistral AI adapter (server/services/ai-providers/mistral.js): the shared
 * chat-completions program of ChatCompletionsFetch with this vendor's
 * constants, and its static catalog.
 */
module Mistral {
  import opened Wrappers
  import opened JsString
  import opened AIProviderBase
  import opened FetchAdapter
  import opened ErrorWrap
  import opened ChatCompletionsFetch
  import ChatChunks
  import ServerSentEvents

  const DefaultModel := "mistral-small-latest"
  const BaseUrl := "https://api.mistral.ai/v1"
  const ApiErrorLabel := "Mistral API 錯誤: "
  const InvalidKeyMessage := "無效的 Mistral AI API 密鑰"
  const FailurePrefix := "Mistral AI 生成失敗: "

  const Vendor := Profile(DefaultModel, BaseUrl, ApiErrorLabel, InvalidKeyMessage, FailurePrefix, Some(0.7), ListModels)

  /** What `getProviderInfo` returns; the pricing note is not modelled. */
  const Catalog := ProviderInfo(
    "Mistral AI",
    [
      ModelInfo("mistral-large-latest", "Mistral Large", quality := Some("highest"), speed := Some("medium"), badge := Some("🏆 旗艦版")),
      ModelInfo("mistral-medium-latest", "Mistral Medium", quality := Some("high"), speed := Some("fast"), badge := Some("⚖️ 平衡")),
      ModelInfo("mistral-small-latest", "Mistral Small", quality := Some("good"), speed := Some("fastest"), badge := Some("💰 經濟實惠")),
      ModelInfo("open-mistral-7b", "Open Mistral 7B", quality := Some("medium"), speed := Some("fastest"), badge := Some("🆓 開源")),
      ModelInfo("open-mixtral-8x7b", "Open Mixtral 8x7B", quality := Some("high"), speed := Some("fast"), badge := Some("🔥 MoE開源"))
    ],
    Pricing(Some(false)),
    apiUrl := Some("https://console.mistral.ai"),
    features := Some(["歐盟合規", "開源模型", "企業級", "多語言支持"]))

  /** The constructor, with its default model. */
  function New(apiKey: Option<string>, modelName: Option<string>): (r: Result<ProviderConfig, string>)
    ensures r.Err? <==> !Truthy(apiKey)
    ensures r.Ok? ==> r.value.apiKey == apiKey.value
    ensures r.Ok? && modelName.None? ==> r.value.modelName == DefaultModel
    ensures r.Ok? && modelName.Some? ==> r.value.modelName == modelName.value
  {
    Construct(apiKey, modelName, DefaultModel)
  }

  /**
   * `generateBlogPost`: `stream` is set exactly when a callback is given; on
   * the stream path the text returned is the concatenation of the fragments
   * passed to `onStream`; a non-ok response is reported through the outer
   * `catch`; every error is either the invalid-key message or carries the
   * failure prefix.
   */
  method GenerateBlogPost(config: ProviderConfig, transcript: string, options: GenerateOptions,
                          fetched: FetchOutcome, parse: string -> Option<ChatChunks.ChatChunk>)
    returns (request: HttpRequest, r: Result<string, string>, calls: seq<string>)
    ensures request == CompletionsRequest(Vendor, config, transcript, options)
    ensures request.body.stream == Some(options.streaming)
    ensures fetched.Received? && fetched.response.ok && options.streaming ==>
      && calls == ServerSentEvents.EventStreamCallbacks(fetched.response.chunks, parse)
      && (fetched.response.readFailure.None? ==> r == Ok(Concat(calls)))
    ensures fetched.Received? && !fetched.response.ok ==>
      && calls == []
      && r == Err(if Contains(fetched.response.bodyText, UnauthorizedMarker) then InvalidKeyMessage
                  else FailurePrefix + ApiErrorLabel + fetched.response.bodyText)
    ensures r.Err? ==> r.error == InvalidKeyMessage || StartsWith(r.error, FailurePrefix)
    ensures options.streaming && r.Ok? ==> r.value == Concat(calls)
  {
    request, r, calls := ChatCompletionsFetch.GenerateBlogPost(Vendor, config, transcript, options, fetched, parse);
    if fetched.Received? && !fetched.response.ok {
      if Contains(fetched.response.bodyText, UnauthorizedMarker) {
        NonOkBodyWith401(Vendor, fetched.response.bodyText);
      } else {
        LabelHasNoFour();
        NonOkBodyWithout401(Vendor, fetched.response.bodyText);
      }
    }
  }

  lemma LabelHasNoFour()
    ensures '4' !in ApiErrorLabel
  {
  }

  /** `validateApiKey` lists the models with the key as bearer token. */
  function KeyCheckRequest(config: ProviderConfig): (r: HttpRequest)
    ensures r.verb == "GET" && r.url == BaseUrl + "/models" && r.bearer == config.apiKey
  {
    ValidationRequest(Vendor, config)
  }

  /** `validateApiKey` answers `response.ok` and turns a thrown error into `false`. */
  function ValidateApiKey(probe: ProbeOutcome): (r: bool)
    ensures r <==> probe.ProbeResponded? && probe.ok
  {
    ProbeSucceeded(probe)
  }

  /** The request carries temperature 0.7. */
  lemma RequestTemperature(config: ProviderConfig, transcript: string, options: GenerateOptions)
    ensures CompletionsRequest(Vendor, config, transcript, options).body.temperature == Some(0.7)
  {
  }

  /** The invalid-key message is the answer exactly when the error mentions `401`. */
  lemma InvalidKeyExactlyOn401(message: string)
    ensures WrapError(Vendor, message) == InvalidKeyMessage <==> Contains(message, UnauthorizedMarker)
  {
    assert InvalidKeyMessage[0] != FailurePrefix[0];
    WrapErrorDistinguishes(Vendor, message);
  }

  /** The constructor's default model is listed in the catalog, which is not a free tier. */
  lemma DefaultModelInCatalog()
    ensures HasModel(Catalog, DefaultModel)
    ensures Catalog.pricing.free == Some(false)
  {
    assert Catalog.models[2].id == DefaultModel;
  }
}
