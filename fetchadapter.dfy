/**
 * The `generateBlogPost` skeleton shared by the adapters that call their
 * vendor with `fetch` (deepseek, zhipu, moonshot, mistral, cohere): send the
 * request, turn a non-ok response into an error carrying the body text, read
 * the stream or the one-shot JSON, and pass every error through the
 * adapter's `catch`. The network is an input: the response, its reads and any
 * failure are given.
 */
module FetchAdapter {
  import opened Wrappers
  import opened JsString
  import opened AIProviderBase
  import LineStream

  /** A JSON request body as the adapters build it; `stream` is `None` when the body has no such field. */
  datatype RequestBody =
    | ChatBody(model: string, messages: seq<ChatMessage>, temperature: Option<real>, stream: Option<bool>)
    | CohereChatBody(model: string, message: string, temperature: Option<real>, stream: Option<bool>)
    | EmptyBody

  /** An HTTP request: its method, URL, the bearer token and the JSON body. */
  datatype HttpRequest = HttpRequest(verb: string, url: string, bearer: string, body: RequestBody)

  /**
   * What `fetch` gave for the generation request: the status flag, the body
   * as text (read when not ok), the decoded stream reads followed by the
   * error a read raised, if any, and the one-shot content or the error
   * raised while reading it.
   */
  datatype HttpResponse = HttpResponse(
    ok: bool, bodyText: string,
    chunks: seq<string>, readFailure: Option<string>,
    completion: Result<string, string>)

  datatype FetchOutcome = Received(response: HttpResponse) | FetchFailed(message: string)

  /** What `fetch` gave for a key-validation request. */
  datatype ProbeOutcome = ProbeResponded(ok: bool) | ProbeFailed(message: string)

  /** `try { return response.ok } catch { return false }`. */
  function ProbeSucceeded(probe: ProbeOutcome): (r: bool)
    ensures r <==> probe.ProbeResponded? && probe.ok
    ensures probe.ProbeFailed? ==> !r
  {
    match probe
    case ProbeResponded(ok) => ok
    case ProbeFailed(_) => false
  }

  /**
   * One call of `generateBlogPost` once the prompt has been sent.
   * `apiErrorLabel` prefixes the body of a non-ok response, `wrap` is the
   * adapter's `catch`, `keep` and `step` its line filter and line body.
   */
  method Generate(apiErrorLabel: string, wrap: string -> string, streaming: bool, fetched: FetchOutcome,
                  keep: string -> bool, step: string -> Option<string>)
    returns (r: Result<string, string>, calls: seq<string>)
    ensures fetched.FetchFailed? ==> calls == [] && r == Err(wrap(fetched.message))
    ensures fetched.Received? && !fetched.response.ok ==>
      calls == [] && r == Err(wrap(apiErrorLabel + fetched.response.bodyText))
    ensures fetched.Received? && fetched.response.ok && streaming ==>
      && calls == LineStream.StreamCallbacks(fetched.response.chunks, keep, step)
      && r == (if fetched.response.readFailure.Some? then Err(wrap(fetched.response.readFailure.value)) else Ok(Concat(calls)))
    ensures fetched.Received? && fetched.response.ok && !streaming ==>
      && calls == []
      && r == (match fetched.response.completion
               case Ok(text) => Ok(text)
               case Err(m) => Err(wrap(m)))
    ensures streaming && r.Ok? ==> r.value == Concat(calls)
  {
    match fetched {
      case FetchFailed(m) =>
        r, calls := Err(wrap(m)), [];
      case Received(response) =>
        if !response.ok {
          r, calls := Err(wrap(apiErrorLabel + response.bodyText)), [];
        } else if streaming {
          var fullText;
          fullText, calls := LineStream.ConsumeReads(response.chunks, keep, step);
          if response.readFailure.Some? {
            r := Err(wrap(response.readFailure.value));
          } else {
            r := Ok(fullText);
          }
        } else {
          calls := [];
          match response.completion {
            case Ok(text) => r := Ok(text);
            case Err(m) => r := Err(wrap(m));
          }
        }
    }
  }
}
