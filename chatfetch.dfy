/**
 * The adapters deepseek, zhipu, moonshot and mistral are one program with
 * different constants: a chat-completions request sent with `fetch`, the
 * event-stream read loop, the `'401'` test in the outer `catch`, and one of
 * two key checks. A `Profile` holds what differs between them.
 */
module ChatCompletionsFetch {
  import opened Wrappers
  import opened JsString
  import opened AIProviderBase
  import opened FetchAdapter
  import opened ChatChunks
  import opened ErrorWrap
  import ServerSentEvents

  /** How `validateApiKey` probes the key: `GET /models`, or a one-message completion. */
  datatype KeyCheck = ListModels | TestCompletion

  /** The constants in which the four adapters differ. */
  datatype Profile = Profile(
    defaultModel: string, baseUrl: string,
    apiErrorLabel: string, invalidKeyMessage: string, failurePrefix: string,
    temperature: Option<real>, keyCheck: KeyCheck)

  const UnauthorizedMarker := "401"

  /** The outer `catch`: a `401` anywhere in the message means an invalid key. */
  function WrapError(p: Profile, message: string): (r: string)
    ensures Contains(message, UnauthorizedMarker) ==> r == p.invalidKeyMessage
    ensures !Contains(message, UnauthorizedMarker) ==> r == p.failurePrefix + message
  {
    assert MentionsAny(message, [UnauthorizedMarker]) <==> Contains(message, UnauthorizedMarker) by {
      assert [UnauthorizedMarker][0] == UnauthorizedMarker;
    }
    CatchByMessage([UnauthorizedMarker], p.invalidKeyMessage, p.failurePrefix, message)
  }

  function Wrapper(p: Profile): string -> string {
    m => WrapError(p, m)
  }

  /** The `POST {baseURL}/chat/completions` request of `generateBlogPost`. */
  function CompletionsRequest(p: Profile, config: ProviderConfig, transcript: string, options: GenerateOptions): (r: HttpRequest)
    ensures r.verb == "POST" && r.url == p.baseUrl + "/chat/completions" && r.bearer == config.apiKey
    ensures r.body.ChatBody? && r.body.model == config.modelName && r.body.temperature == p.temperature
    ensures r.body.stream == Some(options.streaming)
    ensures r.body.messages == [ChatMessage("user", BuildPrompt(transcript, options.language, options.style))]
  {
    var prompt := BuildPrompt(transcript, options.language, options.style);
    HttpRequest("POST", p.baseUrl + "/chat/completions", config.apiKey,
      ChatBody(config.modelName, [ChatMessage("user", prompt)], p.temperature, Some(options.streaming)))
  }

  /**
   * `generateBlogPost`: the request it sends, then, given what `fetch`
   * returned and the JSON parser, the result and the `onStream` trace.
   */
  method GenerateBlogPost(p: Profile, config: ProviderConfig, transcript: string, options: GenerateOptions,
                          fetched: FetchOutcome, parse: string -> Option<ChatChunk>)
    returns (request: HttpRequest, r: Result<string, string>, calls: seq<string>)
    ensures request == CompletionsRequest(p, config, transcript, options)
    ensures fetched.FetchFailed? ==> calls == [] && r == Err(WrapError(p, fetched.message))
    ensures fetched.Received? && !fetched.response.ok ==>
      calls == [] && r == Err(WrapError(p, p.apiErrorLabel + fetched.response.bodyText))
    ensures fetched.Received? && fetched.response.ok && options.streaming ==>
      && calls == ServerSentEvents.EventStreamCallbacks(fetched.response.chunks, parse)
      && r == (if fetched.response.readFailure.Some? then Err(WrapError(p, fetched.response.readFailure.value)) else Ok(Concat(calls)))
    ensures fetched.Received? && fetched.response.ok && !options.streaming ==>
      && calls == []
      && r == (match fetched.response.completion
               case Ok(text) => Ok(text)
               case Err(m) => Err(WrapError(p, m)))
    ensures options.streaming && r.Ok? ==> r.value == Concat(calls)
  {
    request := CompletionsRequest(p, config, transcript, options);
    r, calls := Generate(p.apiErrorLabel, Wrapper(p), options.streaming, fetched,
                         ServerSentEvents.IsDataLine, ServerSentEvents.DataStep(parse));
  }

  /** The request `validateApiKey` sends. */
  function ValidationRequest(p: Profile, config: ProviderConfig): (r: HttpRequest)
    ensures r.bearer == config.apiKey
    ensures p.keyCheck.ListModels? ==> r.verb == "GET" && r.url == p.baseUrl + "/models" && r.body.EmptyBody?
    ensures p.keyCheck.TestCompletion? ==>
      && r.verb == "POST" && r.url == p.baseUrl + "/chat/completions"
      && r.body == ChatBody(config.modelName, [ChatMessage("user", "test")], None, None)
  {
    match p.keyCheck
    case ListModels => HttpRequest("GET", p.baseUrl + "/models", config.apiKey, EmptyBody)
    case TestCompletion =>
      HttpRequest("POST", p.baseUrl + "/chat/completions", config.apiKey,
        ChatBody(config.modelName, [ChatMessage("user", "test")], None, None))
  }

  /** A non-ok body that mentions `401` is reported as an invalid key, whatever else it says. */
  lemma NonOkBodyWith401(p: Profile, body: string)
    requires Contains(body, UnauthorizedMarker)
    ensures WrapError(p, p.apiErrorLabel + body) == p.invalidKeyMessage
  {
    var i :| 0 <= i <= |body| - |UnauthorizedMarker| && ContainsAt(body, UnauthorizedMarker, i);
    ContainsAtSuffix(p.apiErrorLabel, body, UnauthorizedMarker, i);
  }

  /**
   * The status code of a non-ok response is never inspected: a body without
   * `401` is reported as a generation failure carrying the API label and the
   * body, even when the response was in fact a 401.
   */
  lemma NonOkBodyWithout401(p: Profile, body: string)
    requires '4' !in p.apiErrorLabel && !Contains(body, UnauthorizedMarker)
    ensures WrapError(p, p.apiErrorLabel + body) == p.failurePrefix + p.apiErrorLabel + body
  {
    NotContainsAfterPrefix(p.apiErrorLabel, body, UnauthorizedMarker);
  }

  /** The invalid-key message is returned exactly when the error mentions `401`. */
  lemma WrapErrorDistinguishes(p: Profile, message: string)
    requires DistinctOpenings(p.invalidKeyMessage, p.failurePrefix)
    ensures WrapError(p, message) == p.invalidKeyMessage <==> Contains(message, UnauthorizedMarker)
  {
    if !Contains(message, UnauthorizedMarker) {
      assert WrapError(p, message)[0] == p.failurePrefix[0];
    }
  }
}
