/**
 * The parsed shape of an OpenAI-style streaming chunk, as read by the
 * adapters that speak the chat-completions protocol (deepseek, zhipu,
 * moonshot, mistral over fetch; openai and groq through their SDKs).
 * Only the fields the adapters read are modelled.
 */
module ChatChunks {
  import opened Wrappers
  import opened JsString

  datatype Delta = Delta(content: Option<string>)
  datatype Choice = Choice(delta: Option<Delta>)
  /** `choices` is `None` when the parsed value has no `choices` array. */
  datatype ChatChunk = ChatChunk(choices: Option<seq<Choice>>)

  /**
   * The message a JavaScript engine gives when `choices[0]` is read from
   * `undefined`, written in pieces so that proofs can look up its characters
   * one short piece at a time.
   */
  const UndefinedIndexError := "Cannot read " + "properties " + "of undefined " + "(reading '0')"

  /**
   * `chunk.choices[0]?.delta?.content || ''`: `None` when reading
   * `choices[0]` throws; otherwise the content, or `''` when the first
   * choice, its delta or its content is missing or empty.
   */
  function DeltaContent(c: ChatChunk): (r: Option<string>)
    ensures r.None? <==> c.choices.None?
    ensures r.Some? && r.value != "" ==>
      |c.choices.value| > 0 && c.choices.value[0].delta.Some? && c.choices.value[0].delta.value.content == Some(r.value)
    ensures c.choices.Some? && (|c.choices.value| == 0 || c.choices.value[0].delta.None?) ==> r == Some("")
  {
    match c.choices
    case None => None
    case Some(cs) =>
      if |cs| == 0 || cs[0].delta.None? then Some("")
      else Some(OrElse(cs[0].delta.value.content, ""))
  }
}
