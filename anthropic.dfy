/**
 * The Anthropic adapter (server/services/ai-providers/anthropic.js): the
 * SDK's `messages.stream` or `messages.create` with `max_tokens` 4096, a
 * loop that delivers only `content_block_delta` chunks with a non-empty
 * text, the status-401 test in the outer `catch`, and a one-token request as
 * the key check.
 */
module Anthropic {
  import opened Wrappers
  import opened JsString
  import opened AIProviderBase
  import opened ErrorWrap
  import opened StreamFold
  import opened SdkAdapter

  const DefaultModel := "claude-sonnet-4-5-latest"
  const MaxTokens := 4096
  const InvalidKeyMessage := "無效的 Anthropic API 密鑰"
  const FailurePrefix := "Claude 生成失敗: "
  const ContentBlockDelta := "content_block_delta"
  /** The message a JavaScript engine gives when `text` is read from `undefined`. */
  const UndefinedTextError := "Cannot read properties of undefined (reading 'text')"

  /** The fields of a stream event the loop reads; `delta` is `None` when the event has none. */
  datatype AnthropicDelta = AnthropicDelta(text: Option<string>)
  datatype AnthropicChunk = AnthropicChunk(chunkType: string, delta: Option<AnthropicDelta>)

  /** What `getProviderInfo` returns; the pricing note is not modelled. */
  const Catalog := ProviderInfo(
    "Anthropic Claude",
    [
      ModelInfo("claude-opus-4-5-latest", "Claude Opus 4.5", quality := Some("highest"), badge := Some("🌟 最新最強")),
      ModelInfo("claude-sonnet-4-5-latest", "Claude Sonnet 4.5", quality := Some("high"), speed := Some("fast"), badge := Some("⚡ 推薦")),
      ModelInfo("claude-haiku-4-5-latest", "Claude Haiku 4.5", speed := Some("fastest"), badge := Some("💨 超快速")),
      ModelInfo("claude-3-5-sonnet-latest", "Claude 3.5 Sonnet", quality := Some("high"), badge := Some("🎯 穩定")),
      ModelInfo("claude-3-5-haiku-latest", "Claude 3.5 Haiku", speed := Some("fastest")),
      ModelInfo("claude-3-opus-latest", "Claude 3 Opus", quality := Some("highest"))
    ],
    Pricing(Some(false)),
    apiUrl := Some("https://console.anthropic.com"),
    features := Some(["長文本處理", "精確理解", "串流生成", "程式碼生成"]))

  /** The constructor, with its default model. */
  function New(apiKey: Option<string>, modelName: Option<string>): (r: Result<ProviderConfig, string>)
    ensures r.Err? <==> !Truthy(apiKey)
    ensures r.Ok? ==> r.value.apiKey == apiKey.value
    ensures r.Ok? && modelName.None? ==> r.value.modelName == DefaultModel
    ensures r.Ok? && modelName.Some? ==> r.value.modelName == modelName.value
  {
    Construct(apiKey, modelName, DefaultModel)
  }

  /**
   * `if (chunk.type === 'content_block_delta' && chunk.delta.text)`: only a
   * delta event with a non-empty text delivers; a delta event without a
   * `delta` object throws the engine's TypeError; everything else is skipped.
   */
  function ChunkStep(c: AnthropicChunk): (r: Step)
    ensures r.Emit? <==> c.chunkType == ContentBlockDelta && c.delta.Some? && Truthy(c.delta.value.text)
    ensures r.Emit? ==> r.text == c.delta.value.text.value && r.text != ""
    ensures r.Throw? <==> c.chunkType == ContentBlockDelta && c.delta.None?
    ensures r.Throw? ==> r.message == UndefinedTextError
  {
    if c.chunkType != ContentBlockDelta then Skip
    else match c.delta
      case None => Throw(UndefinedTextError)
      case Some(d) => if Truthy(d.text) then Emit(d.text.value) else Skip
  }

  /** The outer `catch`: status 401 means an invalid key; anything else keeps its message after the prefix. */
  function WrapError(e: SdkError): (r: string)
    ensures e.status == Some(401) ==> r == InvalidKeyMessage
    ensures e.status != Some(401) ==> r == FailurePrefix + e.message
  {
    CatchByStatus(e.status, InvalidKeyMessage, FailurePrefix, e.message)
  }

  function Wrapper(): SdkError -> string {
    e => WrapError(e)
  }

  /** The messages call: the configured model, 4096 tokens at most, the prompt as the one user message. */
  function MessagesRequest(config: ProviderConfig, transcript: string, options: GenerateOptions): (r: SdkRequest)
    ensures r.MessagesCreate? && r.model == config.modelName && r.maxTokens == MaxTokens && r.stream == options.streaming
    ensures r.messages == [ChatMessage("user", BuildPrompt(transcript, options.language, options.style))]
  {
    MessagesCreate(config.modelName, MaxTokens, [ChatMessage("user", BuildPrompt(transcript, options.language, options.style))], options.streaming)
  }

  /**
   * `generateBlogPost`: the call it makes, then, given the SDK's stream or
   * message, the result and the `onStream` trace; no call of `onStream`
   * receives an empty fragment.
   */
  method GenerateBlogPost(config: ProviderConfig, transcript: string, options: GenerateOptions,
                          stream: StreamOutcome<AnthropicChunk>, completion: Result<string, SdkError>)
    returns (request: SdkRequest, r: Result<string, string>, calls: seq<string>)
    ensures request == MessagesRequest(config, transcript, options)
    ensures !options.streaming ==>
      && calls == []
      && r == (match completion
               case Ok(text) => Ok(text)
               case Err(e) => Err(WrapError(e)))
    ensures options.streaming && stream.OpenFailed? ==> calls == [] && r == Err(WrapError(stream.error))
    ensures options.streaming && stream.Opened? ==>
      var run := FoldRun(stream.chunks, ChunkStep);
      && calls == run.calls
      && r == (if run.thrown.Some? then Err(WrapError(SdkError(None, run.thrown.value)))
               else if stream.failure.Some? then Err(WrapError(stream.failure.value))
               else Ok(Concat(calls)))
    ensures forall k | 0 <= k < |calls| :: calls[k] != ""
    ensures options.streaming && r.Ok? ==> r.value == Concat(calls)
  {
    request := MessagesRequest(config, transcript, options);
    r, calls := Generate(options.streaming, stream, completion, ChunkStep, Wrapper());
    if options.streaming && stream.Opened? {
      FoldRunNonEmptyCalls(stream.chunks, ChunkStep);
    }
  }

  /** `validateApiKey` sends `'test'` to the configured model with a one-token limit. */
  function KeyCheckRequest(config: ProviderConfig): (r: SdkRequest)
    ensures r == MessagesCreate(config.modelName, 1, [ChatMessage("user", "test")], false)
  {
    MessagesCreate(config.modelName, 1, [ChatMessage("user", "test")], false)
  }

  /** `validateApiKey` answers whether the request succeeded, never throwing. */
  function ValidateApiKey(failure: Option<SdkError>): (r: bool)
    ensures r <==> failure.None?
  {
    ProbeSucceeded(failure)
  }

  /** Events other than text deltas deliver nothing: a stream of them completes with an empty trace. */
  lemma {:induction false} NonDeltaEventsDeliverNothing(chunks: seq<AnthropicChunk>)
    requires forall k | 0 <= k < |chunks| :: chunks[k].chunkType != ContentBlockDelta
    ensures FoldRun(chunks, ChunkStep) == FoldState([], None)
    decreases |chunks|
  {
    if |chunks| > 0 {
      var init := chunks[..|chunks| - 1];
      assert forall k | 0 <= k < |init| :: init[k] == chunks[k];
      NonDeltaEventsDeliverNothing(init);
    }
  }

  /** The invalid-key message is the answer exactly when the status is 401. */
  lemma InvalidKeyExactlyOn401(e: SdkError)
    ensures WrapError(e) == InvalidKeyMessage <==> e.status == Some(401)
  {
    assert InvalidKeyMessage[0] != FailurePrefix[0];
    CatchByStatusDistinguishes(e.status, InvalidKeyMessage, FailurePrefix, e.message);
  }

  /** The constructor's default model is listed in the catalog, which is not a free tier. */
  lemma DefaultModelInCatalog()
    ensures HasModel(Catalog, DefaultModel)
    ensures Catalog.pricing.free == Some(false)
  {
    assert Catalog.models[1].id == DefaultModel;
  }
}
