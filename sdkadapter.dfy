/**
 * The `generateBlogPost` skeleton shared by the adapters that call their
 * vendor through an SDK (gemini, openai, anthropic, groq): either iterate
 * the SDK's stream with the loop of StreamFold, or await one completion;
 * every error goes through the adapter's `catch`. The SDK's results are
 * inputs.
 */
module SdkAdapter {
  import opened Wrappers
  import opened JsString
  import opened StreamFold
  import opened AIProviderBase

  /** An error an SDK raised: its HTTP `status`, when it has one, and its `message`. */
  datatype SdkError = SdkError(status: Option<int>, message: string)

  /** The SDK call an adapter makes; `stream` says whether the streaming form is used. */
  datatype SdkRequest =
    | ChatCompletionsCreate(model: string, messages: seq<ChatMessage>, stream: bool)
    | MessagesCreate(model: string, maxTokens: nat, messages: seq<ChatMessage>, stream: bool)
    | GenerateContent(model: string, prompt: string, stream: bool)
    | ModelsList

  /** A key check's `try { await call; return true } catch { return false }`; `failure` is what the call raised. */
  function ProbeSucceeded(failure: Option<SdkError>): (r: bool)
    ensures r <==> failure.None?
  {
    failure.None?
  }

  /** What opening and iterating the SDK's stream gave: the chunks, then the error iteration raised, if any. */
  datatype StreamOutcome<C> = OpenFailed(error: SdkError) | Opened(chunks: seq<C>, failure: Option<SdkError>)

  /** One call of `generateBlogPost`; `wrap` is the adapter's `catch`, `step` its loop body. */
  method Generate<C>(streaming: bool, stream: StreamOutcome<C>, completion: Result<string, SdkError>,
                     step: C -> Step, wrap: SdkError -> string)
    returns (r: Result<string, string>, calls: seq<string>)
    ensures !streaming ==>
      && calls == []
      && r == (match completion
               case Ok(text) => Ok(text)
               case Err(e) => Err(wrap(e)))
    ensures streaming && stream.OpenFailed? ==> calls == [] && r == Err(wrap(stream.error))
    ensures streaming && stream.Opened? ==>
      var run := FoldRun(stream.chunks, step);
      && calls == run.calls
      && r == (if run.thrown.Some? then Err(wrap(SdkError(None, run.thrown.value)))
               else if stream.failure.Some? then Err(wrap(stream.failure.value))
               else Ok(Concat(calls)))
    ensures streaming && r.Ok? ==> r.value == Concat(calls)
  {
    if !streaming {
      calls := [];
      match completion {
        case Ok(text) => r := Ok(text);
        case Err(e) => r := Err(wrap(e));
      }
    } else {
      match stream {
        case OpenFailed(e) =>
          r, calls := Err(wrap(e)), [];
        case Opened(chunks, failure) =>
          var fullText, thrown;
          fullText, calls, thrown := Fold(chunks, step);
          if thrown.Some? {
            r := Err(wrap(SdkError(None, thrown.value)));
          } else if failure.Some? {
            r := Err(wrap(failure.value));
          } else {
            r := Ok(fullText);
          }
      }
    }
  }
}
