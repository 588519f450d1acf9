/**
 * The adapters openai and groq are one program with different constants:
 * `chat.completions.create` through the vendor's SDK, the `for await` loop
 * delivering `chunk.choices[0]?.delta?.content || ''` for every chunk, the
 * status-401 test in the outer `catch`, and `models.list` as the key check.
 */
module ChatCompletionsSdk {
  import opened Wrappers
  import opened JsString
  import opened AIProviderBase
  import opened ErrorWrap
  import opened ChatChunks
  import opened StreamFold
  import opened SdkAdapter

  /** The constants in which the two adapters differ. */
  datatype Profile = Profile(defaultModel: string, invalidKeyMessage: string, failurePrefix: string)

  /**
   * The loop body: every chunk delivers its content, or `''`, even when it is
   * empty; a chunk without `choices` throws the engine's TypeError.
   */
  function DeltaStep(c: ChatChunk): (r: Step)
    ensures !r.Skip?
    ensures r.Throw? <==> c.choices.None?
    ensures r.Throw? ==> r.message == UndefinedIndexError
    ensures r.Emit? ==> DeltaContent(c) == Some(r.text)
  {
    match DeltaContent(c)
    case None => Throw(UndefinedIndexError)
    case Some(t) => Emit(t)
  }

  /** The outer `catch`: status 401 means an invalid key; anything else keeps its message after the prefix. */
  function WrapError(p: Profile, e: SdkError): (r: string)
    ensures e.status == Some(401) ==> r == p.invalidKeyMessage
    ensures e.status != Some(401) ==> r == p.failurePrefix + e.message
  {
    CatchByStatus(e.status, p.invalidKeyMessage, p.failurePrefix, e.message)
  }

  function Wrapper(p: Profile): SdkError -> string {
    e => WrapError(p, e)
  }

  /** The `chat.completions.create` call, in its streaming form exactly when a callback is given. */
  function CompletionsRequest(config: ProviderConfig, transcript: string, options: GenerateOptions): (r: SdkRequest)
    ensures r.ChatCompletionsCreate? && r.model == config.modelName && r.stream == options.streaming
    ensures r.messages == [ChatMessage("user", BuildPrompt(transcript, options.language, options.style))]
  {
    ChatCompletionsCreate(config.modelName, [ChatMessage("user", BuildPrompt(transcript, options.language, options.style))], options.streaming)
  }

  /**
   * `generateBlogPost`: the call it makes, then, given the SDK's stream or
   * completion, the result and the `onStream` trace.
   */
  method GenerateBlogPost(p: Profile, config: ProviderConfig, transcript: string, options: GenerateOptions,
                          stream: StreamOutcome<ChatChunk>, completion: Result<string, SdkError>)
    returns (request: SdkRequest, r: Result<string, string>, calls: seq<string>)
    ensures request == CompletionsRequest(config, transcript, options)
    ensures !options.streaming ==>
      && calls == []
      && r == (match completion
               case Ok(text) => Ok(text)
               case Err(e) => Err(WrapError(p, e)))
    ensures options.streaming && stream.OpenFailed? ==> calls == [] && r == Err(WrapError(p, stream.error))
    ensures options.streaming && stream.Opened? ==>
      var run := FoldRun(stream.chunks, DeltaStep);
      && calls == run.calls
      && r == (if run.thrown.Some? then Err(WrapError(p, SdkError(None, run.thrown.value)))
               else if stream.failure.Some? then Err(WrapError(p, stream.failure.value))
               else Ok(Concat(calls)))
    ensures options.streaming && r.Ok? ==> r.value == Concat(calls)
  {
    request := CompletionsRequest(config, transcript, options);
    r, calls := Generate(options.streaming, stream, completion, DeltaStep, Wrapper(p));
  }

  /**
   * When every chunk has `choices`, `onStream` is called once per chunk, in
   * order, with that chunk's content or `''`.
   */
  lemma EveryChunkDelivers(chunks: seq<ChatChunk>)
    requires forall k | 0 <= k < |chunks| :: chunks[k].choices.Some?
    ensures FoldRun(chunks, DeltaStep).thrown.None?
    ensures |FoldRun(chunks, DeltaStep).calls| == |chunks|
    ensures forall k | 0 <= k < |chunks| :: Some(FoldRun(chunks, DeltaStep).calls[k]) == DeltaContent(chunks[k])
  {
    FoldRunNoThrow(chunks, DeltaStep);
    EmittedEach(chunks, DeltaStep);
  }

  /**
   * The first chunk without `choices` ends the stream with the engine's
   * TypeError, which the `catch` reports with the failure prefix: the
   * status of such an error is never 401.
   */
  lemma MissingChoicesFails(p: Profile, chunks: seq<ChatChunk>, k: nat)
    requires k < |chunks| && chunks[k].choices.None?
    requires forall j | 0 <= j < k :: chunks[j].choices.Some?
    ensures FoldRun(chunks, DeltaStep) == FoldState(Emitted(chunks[..k], DeltaStep), Some(UndefinedIndexError))
    ensures WrapError(p, SdkError(None, UndefinedIndexError)) == p.failurePrefix + UndefinedIndexError
  {
    FoldRunFirstThrow(chunks, DeltaStep, k);
  }

  /** The invalid-key message is the answer exactly when the status is 401. */
  lemma WrapErrorDistinguishes(p: Profile, e: SdkError)
    requires DistinctOpenings(p.invalidKeyMessage, p.failurePrefix)
    ensures WrapError(p, e) == p.invalidKeyMessage <==> e.status == Some(401)
  {
    CatchByStatusDistinguishes(e.status, p.invalidKeyMessage, p.failurePrefix, e.message);
  }
}
