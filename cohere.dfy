/**
 * The Cohere adapter (server/services/ai-providers/cohere.js): the same
 * fetch read loop as the other fetch adapters, but over JSON lines without a
 * `data: ` prefix, a single `message` field in the request, a `text` field in
 * the one-shot response, and a `catch` that also recognises
 * `invalid_api_key`.
 */
module Cohere {
  import opened Wrappers
  import opened JsString
  import opened AIProviderBase
  import opened FetchAdapter
  import opened ErrorWrap
  import LineStream

  const DefaultModel := "command-r"
  const BaseUrl := "https://api.cohere.ai/v1"
  const ApiErrorLabel := "Cohere API 錯誤: "
  const InvalidKeyMessage := "無效的 Cohere API 密鑰"
  const FailurePrefix := "Cohere 生成失敗: "
  const InvalidKeyMarkers := ["401", "invalid_api_key"]
  const TextGeneration := "text-generation"

  /** The fields of a parsed stream line that the loop reads; a missing field is `None`. */
  datatype CohereEvent = CohereEvent(eventType: Option<string>, text: Option<string>)

  /** What `getProviderInfo` returns; the pricing note is not modelled. */
  const Catalog := ProviderInfo(
    "Cohere",
    [
      ModelInfo("command-r-plus", "Command R+", quality := Some("highest"), speed := Some("medium"), badge := Some("🏆 旗艦版")),
      ModelInfo("command-r", "Command R", quality := Some("high"), speed := Some("fast"), badge := Some("⚡ 推薦")),
      ModelInfo("command", "Command", quality := Some("high"), speed := Some("fast")),
      ModelInfo("command-light", "Command Light", quality := Some("medium"), speed := Some("fastest"), badge := Some("💰 經濟"))
    ],
    Pricing(Some(false)),
    apiUrl := Some("https://dashboard.cohere.com"),
    features := Some(["企業級", "RAG專用", "多語言支持", "高準確度"]))

  /** The constructor, with its default model. */
  function New(apiKey: Option<string>, modelName: Option<string>): (r: Result<ProviderConfig, string>)
    ensures r.Err? <==> !Truthy(apiKey)
    ensures r.Ok? ==> r.value.apiKey == apiKey.value
    ensures r.Ok? && modelName.None? ==> r.value.modelName == DefaultModel
    ensures r.Ok? && modelName.Some? ==> r.value.modelName == modelName.value
  {
    Construct(apiKey, modelName, DefaultModel)
  }

  /** The `POST {baseURL}/chat` request: one `message` field holding the prompt, temperature 0.7. */
  function ChatRequest(config: ProviderConfig, transcript: string, options: GenerateOptions): (r: HttpRequest)
    ensures r.verb == "POST" && r.url == BaseUrl + "/chat" && r.bearer == config.apiKey
    ensures r.body.CohereChatBody? && r.body.model == config.modelName
    ensures r.body.message == BuildPrompt(transcript, options.language, options.style)
    ensures r.body.temperature == Some(0.7) && r.body.stream == Some(options.streaming)
  {
    HttpRequest("POST", BaseUrl + "/chat", config.apiKey,
      CohereChatBody(config.modelName, BuildPrompt(transcript, options.language, options.style), Some(0.7), Some(options.streaming)))
  }

  /** `line.trim()` is truthy. */
  predicate NonBlank(line: string) {
    Trim(line) != []
  }

  /**
   * What one kept line delivers: nothing when it does not parse (or parses to
   * `null`), nothing for an event other than `text-generation`, otherwise
   * `parsed.text || ''`.
   */
  function EventContent(parse: string -> Option<CohereEvent>, line: string): (r: Option<string>)
    ensures parse(line).None? ==> r.None?
    ensures parse(line).Some? ==> (r.Some? <==> parse(line).value.eventType == Some(TextGeneration))
    ensures r.Some? ==> r.value == OrElse(parse(line).value.text, "")
  {
    match parse(line)
    case None => None
    case Some(ev) => if ev.eventType == Some(TextGeneration) then Some(OrElse(ev.text, "")) else None
  }

  function EventStep(parse: string -> Option<CohereEvent>): string -> Option<string> {
    line => EventContent(parse, line)
  }

  /** Every argument passed to `onStream` by a stream of reads. */
  function CohereStreamCallbacks(chunks: seq<string>, parse: string -> Option<CohereEvent>): seq<string> {
    LineStream.StreamCallbacks(chunks, NonBlank, EventStep(parse))
  }

  /** The outer `catch`: `401` or `invalid_api_key` anywhere in the message means an invalid key. */
  function WrapError(message: string): (r: string)
    ensures Contains(message, "401") || Contains(message, "invalid_api_key") ==> r == InvalidKeyMessage
    ensures !Contains(message, "401") && !Contains(message, "invalid_api_key") ==> r == FailurePrefix + message
  {
    assert MentionsAny(message, InvalidKeyMarkers) <==> Contains(message, "401") || Contains(message, "invalid_api_key") by {
      assert InvalidKeyMarkers[0] == "401" && InvalidKeyMarkers[1] == "invalid_api_key";
    }
    CatchByMessage(InvalidKeyMarkers, InvalidKeyMessage, FailurePrefix, message)
  }

  function Wrapper(): string -> string {
    m => WrapError(m)
  }

  /**
   * `generateBlogPost`: the request it sends, then, given what `fetch`
   * returned and the JSON parser, the result and the `onStream` trace.
   */
  method GenerateBlogPost(config: ProviderConfig, transcript: string, options: GenerateOptions,
                          fetched: FetchOutcome, parse: string -> Option<CohereEvent>)
    returns (request: HttpRequest, r: Result<string, string>, calls: seq<string>)
    ensures request == ChatRequest(config, transcript, options)
    ensures fetched.FetchFailed? ==> calls == [] && r == Err(WrapError(fetched.message))
    ensures fetched.Received? && !fetched.response.ok ==>
      calls == [] && r == Err(WrapError(ApiErrorLabel + fetched.response.bodyText))
    ensures fetched.Received? && fetched.response.ok && options.streaming ==>
      && calls == CohereStreamCallbacks(fetched.response.chunks, parse)
      && r == (if fetched.response.readFailure.Some? then Err(WrapError(fetched.response.readFailure.value)) else Ok(Concat(calls)))
    ensures fetched.Received? && fetched.response.ok && !options.streaming ==>
      && calls == []
      && r == (match fetched.response.completion
               case Ok(text) => Ok(text)
               case Err(m) => Err(WrapError(m)))
    ensures options.streaming && r.Ok? ==> r.value == Concat(calls)
  {
    request := ChatRequest(config, transcript, options);
    r, calls := Generate(ApiErrorLabel, Wrapper(), options.streaming, fetched, NonBlank, EventStep(parse));
  }

  /** `validateApiKey` posts to `/check-api-key` with the key as bearer token and no body. */
  function KeyCheckRequest(config: ProviderConfig): (r: HttpRequest)
    ensures r.verb == "POST" && r.url == BaseUrl + "/check-api-key" && r.bearer == config.apiKey
    ensures r.body.EmptyBody?
  {
    HttpRequest("POST", BaseUrl + "/check-api-key", config.apiKey, EmptyBody)
  }

  /** `validateApiKey` answers `response.ok` and turns a thrown error into `false`. */
  function ValidateApiKey(probe: ProbeOutcome): (r: bool)
    ensures r <==> probe.ProbeResponded? && probe.ok
  {
    ProbeSucceeded(probe)
  }

  /** Within a read, a line whose event is not `text-generation` (or does not parse) delivers nothing and the run goes on. */
  lemma OtherEventSkipped(lines: seq<string>, line: string, parse: string -> Option<CohereEvent>)
    requires parse(line).None? || parse(line).value.eventType != Some(TextGeneration)
    ensures LineStream.LinesCallbacks(lines + [line], EventStep(parse)) == LineStream.LinesCallbacks(lines, EventStep(parse))
  {
    LineStream.LinesCallbacksSnoc(lines, line, EventStep(parse));
  }

  /** Within a read, a `text-generation` line delivers its text, or `''` when it has none. */
  lemma TextEventDelivered(lines: seq<string>, line: string, parse: string -> Option<CohereEvent>)
    requires parse(line) == Some(CohereEvent(Some(TextGeneration), None))
    ensures LineStream.LinesCallbacks(lines + [line], EventStep(parse)) == LineStream.LinesCallbacks(lines, EventStep(parse)) + [""]
  {
    LineStream.LinesCallbacksSnoc(lines, line, EventStep(parse));
  }

  /** A stream of one read that is a single `text-generation` line with text `x` delivers exactly `x`. */
  lemma SingleEventRead(read: string, x: string, parse: string -> Option<CohereEvent>)
    requires '\n' !in read && NonBlank(read)
    requires parse(read) == Some(CohereEvent(Some(TextGeneration), Some(x)))
    ensures CohereStreamCallbacks([read], parse) == [OrElse(Some(x), "")]
  {
    LineStream.SingleReadStream(read, NonBlank, EventStep(parse));
  }

  /** The invalid-key message is the answer exactly when the error mentions `401` or `invalid_api_key`. */
  lemma InvalidKeyExactlyOnMarkers(message: string)
    ensures WrapError(message) == InvalidKeyMessage <==> Contains(message, "401") || Contains(message, "invalid_api_key")
  {
    assert InvalidKeyMessage[0] != FailurePrefix[0];
    CatchByMessageDistinguishes(InvalidKeyMarkers, InvalidKeyMessage, FailurePrefix, message);
  }

  /** The constructor's default model is listed in the catalog, which is not a free tier. */
  lemma DefaultModelInCatalog()
    ensures HasModel(Catalog, DefaultModel)
    ensures Catalog.pricing.free == Some(false)
  {
    assert Catalog.models[1].id == DefaultModel;
  }
}
