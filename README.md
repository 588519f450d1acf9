# youtube-to-blog, modelled in Dafny

youtube-to-blog turns the captions of a YouTube video into a blog article
written by a large language model. The model covers its decision-level
code, in four groups:

- **The Express API server** (`server.js`):
  - the loose video-id extractor;
  - the `/api/transcript` decision chain;
  - the `/api/generate` handler, with its validation order and its event-stream framing;
  - the CORS allow-list (`server/config/security.js`);
  - the last-resort error responses (`server/middleware/errorHandler.js`).
- **The nine provider adapters** (`server/services/ai-providers/`):
  - the base class's key check and prompt builder;
  - the registry;
  - each adapter's request, stream loop, error wrapping, key check and catalog.
- **The browser extension**:
  - the strict video-id extractor and the small validators (`utils.js`);
  - the content script's video tracking, caption cache and transcript normalisation (`content.js`);
  - the page script's de-duplication of caption reports (`injected.js`);
  - the extension's own provider module and error translator (`ai-providers.js`);
  - its interface language (`i18n.js`).
- **The web client**:
  - its API service's error translator, `fetchJSON` and stream listener (`api-service.js`);
  - its interface language (`webapp-i18n.js`).

## How the model is laid out

- **Modules.** There is one module per source file, plus shared modules:
  - `Wrappers` holds `Option` and `Result`.
  - `JsString` holds the JavaScript string operations the code uses: the `\s` white-space set, `trim`, `includes`, first-occurrence `replace`, `split`, `join` and ASCII `toLowerCase`.
  - Code the source repeats is modelled once:
    - `LineStream` and `ServerSentEvents` hold the event-stream loop of the four fetch-based chat-completions adapters.
    - `StreamFold` holds the `for await` loop of the four SDK adapters.
    - `ErrorWrap` holds the two `catch` shapes.
    - `CaptionTracks` holds the caption-track preference that `content.js` and `injected.js` both write.
    - `Localization` holds the lookup the two language modules share.
- **What is a parameter.** The network, the vendor SDKs, `JSON.parse` and `JSON.stringify` are given to the model, not modelled:
  - a network read sequence is a `seq<string>`;
  - a parse is a function `string -> Option<...>`;
  - an SDK stream is a sequence of chunks, each of which may throw.
- **Loops that update state become methods.** Each such loop is a method with a `while` loop, proved against a recursive specification function. A loop that only computes a value is a recursive function instead: the pattern loops of `extractVideoId` in `browser-extension/utils.js` and `server.js`, and the JSON3 `filter`/`map` chain of `content.js`. The methods cover:
  - the adapters' read loops (`ConsumeReads`, `ConsumeLines`, `StreamFold.Fold`);
  - the listener of `api-service.js`;
  - the `onStream` writes of `/api/generate`;
  - the substitution loops of the two language modules.
  The `onStream` calls are an output trace, and every stream's headline property is that the returned text is the concatenation of that trace.
- **Mutable state becomes classes.** Each class method states its new state through a transition function, and the lemmas are about those functions. The classes are:
  - `ContentScript.ContentState`;
  - `PageInterceptor.Interceptor`;
  - `ExtensionI18n.UiLanguage`;
  - `WebAppI18n.WebAppLanguage`;
  - the Express response `Server.Response`.
- **The code decides.** Where the repository's documentation and the code disagree, the model follows the code:
  - The prompt's instruction text is Chinese for every output language (`base.js:63-81`).
  - The adapters keep no buffer between reads, so a `data:` line split across two reads is lost (`ServerSentEvents.SplitLineNotReassembled`).
  - The extension's friendly error messages are hard-coded Chinese strings, not the `errApiQuota` / `errApiOverloaded` templates of its language tables (browser-extension/ai-providers.js:305-355).
    Those templates are modelled on their own, in `ExtensionI18n`.
  - `content.js` defines its own `extractVideoId` (browser-extension/content.js:18-50), character for character the same as `utils.js`'s. It is modelled once, as `ExtensionUtils.ExtractVideoId`.

## Model

| member | source | states |
|---|---|---|
| AIProviderBase.CheckApiKey | server/services/ai-providers/base.js:6-11 | the key is accepted exactly when it is truthy and is stored unchanged; otherwise the fixed "API Key 是必要的" error |
| AIProviderBase.Construct | server/services/ai-providers/base.js:6-11 | construction fails exactly for a falsy key; the model default applies only when no model name is passed, so an empty name is kept |
| AIProviderBase.BaseGenerateBlogPost | server/services/ai-providers/base.js:22-24 | the abstract method always rejects with its fixed message |
| AIProviderBase.BaseValidateApiKey | server/services/ai-providers/base.js:30-32 | the abstract key check always rejects with its fixed message |
| AIProviderBase.BaseProviderInfo | server/services/ai-providers/base.js:38-44 | the base catalog is the class name, no models and an empty pricing object |
| AIProviderBase.StyleDescription | server/services/ai-providers/base.js:54-61 | a known style gets its own phrase and any other style the professional one; the phrase is never empty |
| AIProviderBase.FillPrompt | server/services/ai-providers/base.js:63-82 | the prompt is the fixed head holding the style phrase, then the language verbatim, then the fixed tail holding the transcript verbatim, at computed offsets |
| AIProviderBase.BuildPromptDefaults | server/services/ai-providers/base.js:53 | omitted arguments behave as '繁體中文' and 'professional' |
| AIProviderBase.BuildPromptUnknownStyle | server/services/ai-providers/base.js:61 | an unknown style yields exactly the professional prompt |
| AIProviderBase.WrapperIndependentOfLanguage | server/services/ai-providers/base.js:63-81 | two prompts filled from the same template and style phrase, differing only in language, agree before and after the language slot, so the server's wrapper text is always Chinese |
| ErrorWrap.CatchByMessage | server/services/ai-providers/deepseek.js:70-75 | a message with a marker becomes the invalid-key text, and any other message is prefixed with the failure label |
| ErrorWrap.CatchByStatus | server/services/ai-providers/openai.js:42-47 | status 401 becomes the invalid-key text, and any other error's message is prefixed with the failure label |
| ErrorWrap.CatchByMessageDistinguishes | server/services/ai-providers/deepseek.js:70-75 | when the two texts open differently, the answer is the invalid-key text exactly when a marker occurs |
| ErrorWrap.CatchByStatusDistinguishes | server/services/ai-providers/openai.js:42-47 | when the two texts open differently, the answer is the invalid-key text exactly for status 401 |
| StreamFold.Fold | server/services/ai-providers/openai.js:25-32 | the `for await` loop returns the concatenation of the delivered fragments, records each `onStream` argument in order, and stops at the first throw, as `FoldRun` specifies |
| StreamFold.FoldRunStuck | server/services/ai-providers/openai.js:26-30 | after a chunk throws, later chunks change nothing |
| StreamFold.FoldRunNoThrow | server/services/ai-providers/openai.js:26-30 | when no chunk throws, the loop completes and delivers every emitted fragment in order |
| StreamFold.FoldRunFirstThrow | server/services/ai-providers/openai.js:26-30 | the first throwing chunk ends the stream: the fragments before it are kept and its error is the one raised |
| StreamFold.EmittedEach | server/services/ai-providers/openai.js:26-30 | when every chunk emits, there is one fragment per chunk, in order |
| StreamFold.FoldRunNonEmptyCalls | server/services/ai-providers/anthropic.js:26-32 | when no step emits an empty fragment, no `onStream` call receives one |
| SdkAdapter.ProbeSucceeded | server/services/ai-providers/openai.js:50-57 | the key check answers true exactly when the probe call raised nothing |
| SdkAdapter.Generate | server/services/ai-providers/openai.js:17-47 | without a callback the one completion or its wrapped error is returned; with one, the stream's fold gives the calls, and the result is the wrapped error or the concatenation of the calls |
| ChatChunks.DeltaContent | server/services/ai-providers/openai.js:27 | `choices[0]?.delta?.content \|\| ''` throws exactly when `choices` is missing, a non-empty result is the first choice's content, and a missing choice or delta gives '' |
| ChatCompletionsSdk.DeltaStep | server/services/ai-providers/openai.js:26-30 | every chunk delivers (possibly '') and none is skipped; a chunk without `choices` throws the engine's TypeError |
| ChatCompletionsSdk.WrapError | server/services/ai-providers/openai.js:42-47 | status 401 gives the invalid-key message, and anything else the prefix plus the error message |
| ChatCompletionsSdk.CompletionsRequest | server/services/ai-providers/openai.js:15-38 | one user message holding the built prompt for the configured model, streaming exactly when a callback is given |
| ChatCompletionsSdk.GenerateBlogPost | server/services/ai-providers/openai.js:11-48 | the request and, per outcome, the result and `onStream` trace; a streamed success equals the concatenation of the calls |
| ChatCompletionsSdk.EveryChunkDelivers | server/services/ai-providers/openai.js:26-30 | when every chunk has `choices`, `onStream` is called once per chunk with that chunk's content or '' |
| ChatCompletionsSdk.MissingChoicesFails | server/services/ai-providers/openai.js:26-47 | the first chunk without `choices` ends the stream with the TypeError, reported with the failure prefix |
| ChatCompletionsSdk.WrapErrorDistinguishes | server/services/ai-providers/openai.js:43-46 | the invalid-key message comes back exactly for status 401 |
| OpenAI.New | server/services/ai-providers/openai.js:5-9 | a falsy key fails; the model defaults to gpt-4o-mini only when none is given |
| OpenAI.GenerateBlogPost | server/services/ai-providers/openai.js:11-48 | streams exactly when a callback is given; the streamed result is the concatenation of one call per chunk; every error is the invalid-key message or carries "OpenAI 生成失敗: " |
| OpenAI.ValidateApiKey | server/services/ai-providers/openai.js:50-57 | true exactly when listing the models raised nothing |
| OpenAI.InvalidKeyExactlyOn401 | server/services/ai-providers/openai.js:43-46 | the invalid-key message comes back exactly for status 401 |
| OpenAI.DefaultModelInCatalog | server/services/ai-providers/openai.js:59-101 | the default model is listed in the catalog, which is not a free tier |
| Groq.New | server/services/ai-providers/groq.js:5-9 | a falsy key fails; the model defaults to llama-3.3-70b-versatile only when none is given |
| Groq.GenerateBlogPost | server/services/ai-providers/groq.js:11-48 | as for OpenAI, with Groq's messages |
| Groq.ValidateApiKey | server/services/ai-providers/groq.js:50-57 | true exactly when listing the models raised nothing |
| Groq.InvalidKeyExactlyOn401 | server/services/ai-providers/groq.js:43-46 | the invalid-key message comes back exactly for status 401 |
| Groq.DefaultModelInCatalog | server/services/ai-providers/groq.js:59-124 | the default model is listed in the catalog, which is a free tier |
| Gemini.New | server/services/ai-providers/gemini.js:5-9 | a falsy key fails; the model defaults to gemini-2.5-flash only when none is given |
| Gemini.TextStep | server/services/ai-providers/gemini.js:26-30 | every chunk's text is delivered, even when empty; a failing `text()` throws |
| Gemini.WrapError | server/services/ai-providers/gemini.js:38-43 | a message containing the case-sensitive words "API key" gives the invalid-key message, and anything else the prefix plus the message |
| Gemini.ContentRequest | server/services/ai-providers/gemini.js:15-37 | the configured model and the built prompt, streaming exactly when a callback is given |
| Gemini.GenerateBlogPost | server/services/ai-providers/gemini.js:11-44 | the request and, per outcome, the result and `onStream` trace; a streamed success equals the concatenation of the calls |
| Gemini.KeyCheckRequest | server/services/ai-providers/gemini.js:46-54 | the key check sends 'test' to the fixed model gemini-2.5-flash |
| Gemini.ValidateApiKey | server/services/ai-providers/gemini.js:46-54 | true exactly when the probe raised nothing |
| Gemini.KeyCheckIgnoresConfiguredModel | server/services/ai-providers/gemini.js:48 | the key check does not depend on the configured model |
| Gemini.InvalidKeyExactlyOnMarker | server/services/ai-providers/gemini.js:39-42 | the invalid-key message comes back exactly when the message mentions "API key" |
| Gemini.LowerCaseKeyMessageNotRecognised | server/services/ai-providers/gemini.js:39-42 | the test is case-sensitive and ignores the status: "api key not valid" is reported as a generation failure |
| Gemini.FailingChunkEndsStream | server/services/ai-providers/gemini.js:26-30 | a chunk whose `text()` throws ends the stream, and the calls before it are kept |
| Gemini.DefaultModelInCatalog | server/services/ai-providers/gemini.js:56-119 | the default model is listed in the catalog, which is a free tier |
| Anthropic.New | server/services/ai-providers/anthropic.js:5-9 | a falsy key fails; the model defaults to claude-sonnet-4-5-latest only when none is given |
| Anthropic.ChunkStep | server/services/ai-providers/anthropic.js:27-31 | only a `content_block_delta` event with a non-empty text delivers; a delta event without `delta` throws; everything else is skipped |
| Anthropic.WrapError | server/services/ai-providers/anthropic.js:45-50 | status 401 gives the invalid-key message, and anything else "Claude 生成失敗: " plus the message |
| Anthropic.MessagesRequest | server/services/ai-providers/anthropic.js:19-41 | the configured model, `max_tokens` 4096 and the prompt as the one user message |
| Anthropic.GenerateBlogPost | server/services/ai-providers/anthropic.js:11-51 | the request and, per outcome, the result and trace; no `onStream` call receives an empty fragment |
| Anthropic.KeyCheckRequest | server/services/ai-providers/anthropic.js:55-59 | the key check sends 'test' to the configured model with a one-token limit |
| Anthropic.ValidateApiKey | server/services/ai-providers/anthropic.js:53-64 | true exactly when the request raised nothing |
| Anthropic.NonDeltaEventsDeliverNothing | server/services/ai-providers/anthropic.js:26-32 | a stream of events that are not text deltas completes with an empty trace |
| Anthropic.InvalidKeyExactlyOn401 | server/services/ai-providers/anthropic.js:46-49 | the invalid-key message comes back exactly for status 401 |
| Anthropic.DefaultModelInCatalog | server/services/ai-providers/anthropic.js:66-115 | the default model is listed in the catalog, which is not a free tier |
| LineStream.KeptLines | server/services/ai-providers/deepseek.js:47 | the filter keeps exactly the lines `keep` accepts, in order |
| LineStream.Delivered | server/services/ai-providers/deepseek.js:53-60 | a missing fragment delivers nothing, and a present one is delivered once |
| LineStream.ConsumeReads | server/services/ai-providers/deepseek.js:42-64 | the read loop returns the concatenation of the calls, and the calls are `StreamCallbacks` of the reads |
| LineStream.ConsumeLines | server/services/ai-providers/deepseek.js:49-61 | the inner loop extends the text and trace by exactly what `LinesCallbacks` gives for the lines |
| LineStream.StreamCallbacksAppend | server/services/ai-providers/deepseek.js:42-62 | two runs of reads deliver the first run's fragments followed by the second's, so nothing carries over between reads |
| LineStream.StreamCallbacksSingle | server/services/ai-providers/deepseek.js:42-62 | a one-read stream delivers what that read delivers on its own |
| LineStream.LinesCallbacksSnoc | server/services/ai-providers/deepseek.js:49-61 | one more line appends exactly what that line delivers |
| LineStream.LinesCallbacksBound | server/services/ai-providers/deepseek.js:49-61 | at most one fragment per line, and only from lines whose step yields one |
| LineStream.SplitWithoutNewline | server/services/ai-providers/deepseek.js:47 | a read without a newline splits into itself alone |
| LineStream.SingleLineRead | server/services/ai-providers/deepseek.js:47 | a read without a newline visits its one line if that line is kept, and nothing otherwise |
| LineStream.SingleReadStream | server/services/ai-providers/deepseek.js:42-62 | a stream of one newline-free read delivers what that line delivers, if it is kept |
| LineStream.UnkeptReadsDeliverNothing | server/services/ai-providers/deepseek.js:42-62 | single-line reads, none of them kept, deliver nothing |
| LineStream.TwoUnkeptReads | server/services/ai-providers/deepseek.js:42-62 | two single-line reads that are not kept deliver nothing |
| ServerSentEvents.DataLineContent | server/services/ai-providers/deepseek.js:50-60 | `[DONE]`, an unparseable payload and a payload without `choices` deliver nothing; otherwise the chunk's delta content or '' |
| ServerSentEvents.PrefixedLine | server/services/ai-providers/deepseek.js:47-50 | a line that begins with `data: ` is kept, and its payload is the rest of the line |
| ServerSentEvents.PrefixedLineTrims | server/services/ai-providers/deepseek.js:47 | trimming a `data: ` line that ends in a visible character changes nothing |
| ServerSentEvents.PayloadAfterPrefix | server/services/ai-providers/deepseek.js:50 | removing the first `data: ` leaves the rest of the line |
| ServerSentEvents.DoneReadDeliversNothing | server/services/ai-providers/deepseek.js:51 | a read of `data: [DONE]` delivers nothing |
| ServerSentEvents.DataLineWithoutNewline | server/services/ai-providers/deepseek.js:47 | a line built from a payload without a newline holds no newline |
| ServerSentEvents.UnparseableLineSkipped | server/services/ai-providers/deepseek.js:53-60 | a kept line that does not parse is skipped, and the loop goes on |
| ServerSentEvents.SplitLineNotReassembled | server/services/ai-providers/deepseek.js:46-47 | `data: X` in one read delivers its fragment, while the same text split over two reads delivers nothing |
| ServerSentEvents.WholeLineDelivers | server/services/ai-providers/deepseek.js:46-57 | a one-line read `data: X` whose payload parses delivers exactly its content |
| ServerSentEvents.HalvesDeliverNothing | server/services/ai-providers/deepseek.js:46-47 | neither `dat` nor `a: X` is a data line |
| ServerSentEvents.ShortLineNotData | server/services/ai-providers/deepseek.js:47 | a line shorter than `data: ` is not kept |
| ServerSentEvents.OtherInitialNotData | server/services/ai-providers/deepseek.js:47 | a line that starts with a visible character other than `d` is not kept |
| FetchAdapter.ProbeSucceeded | server/services/ai-providers/deepseek.js:78-89 | true exactly when a response came back with `ok`; a thrown fetch gives false |
| FetchAdapter.Generate | server/services/ai-providers/deepseek.js:22-75 | a fetch failure or a non-ok body goes through the `catch`; a stream gives the line-loop trace and its concatenation; the one-shot path gives the completion or its wrapped error |
| ChatCompletionsFetch.WrapError | server/services/ai-providers/deepseek.js:70-75 | a message containing `401` gives the invalid-key message, and anything else the prefix plus the message |
| ChatCompletionsFetch.CompletionsRequest | server/services/ai-providers/deepseek.js:14-30 | POST to `/chat/completions` with the key as bearer, the configured model, the one user message, the vendor's temperature and `stream: !!onStream` |
| ChatCompletionsFetch.GenerateBlogPost | server/services/ai-providers/deepseek.js:10-76 | the request and, per fetch outcome, the result and event-stream trace; a streamed success equals the concatenation of the calls |
| ChatCompletionsFetch.ValidationRequest | server/services/ai-providers/zhipu.js:78-95 | the key check either lists `/models` or posts a one-message 'test' completion, with the key as bearer |
| ChatCompletionsFetch.NonOkBodyWith401 | server/services/ai-providers/deepseek.js:31-34 | a non-ok body mentioning `401` is reported as an invalid key |
| ChatCompletionsFetch.NonOkBodyWithout401 | server/services/ai-providers/deepseek.js:31-34 | a non-ok body without `401` is reported as a generation failure with the API label and the body, whatever the status was |
| ChatCompletionsFetch.WrapErrorDistinguishes | server/services/ai-providers/deepseek.js:71-74 | the invalid-key message comes back exactly when the message mentions `401` |
| DeepSeek.New | server/services/ai-providers/deepseek.js:4-8 | a falsy key fails; the model defaults to deepseek-chat only when none is given |
| DeepSeek.GenerateBlogPost | server/services/ai-providers/deepseek.js:10-76 | `stream` is set exactly when a callback is given; a non-ok response is the invalid-key message when its body mentions `401`, else the prefixed label and body; a streamed success concatenates the calls |
| DeepSeek.KeyCheckRequest | server/services/ai-providers/deepseek.js:80-84 | the key check is GET `/models` with the key as bearer |
| DeepSeek.ValidateApiKey | server/services/ai-providers/deepseek.js:78-89 | true exactly when the response is ok |
| DeepSeek.RequestHasNoTemperature | server/services/ai-providers/deepseek.js:16-20 | the request carries no temperature |
| DeepSeek.InvalidKeyExactlyOn401 | server/services/ai-providers/deepseek.js:71-74 | the invalid-key message comes back exactly when the error mentions `401` |
| DeepSeek.DefaultModelInCatalog | server/services/ai-providers/deepseek.js:91-116 | the default model is the catalog's first entry, and it is not a free tier |
| Zhipu.New | server/services/ai-providers/zhipu.js:4-8 | a falsy key fails; the model defaults to glm-4-flash only when none is given |
| Zhipu.GenerateBlogPost | server/services/ai-providers/zhipu.js:10-76 | as for DeepSeek, with Zhipu's base URL and messages |
| Zhipu.KeyCheckRequest | server/services/ai-providers/zhipu.js:78-91 | the key check posts a one-message 'test' completion for the configured model |
| Zhipu.ValidateApiKey | server/services/ai-providers/zhipu.js:78-95 | true exactly when the response is ok |
| Zhipu.RequestHasNoTemperature | server/services/ai-providers/zhipu.js:16-20 | the request carries no temperature |
| Zhipu.InvalidKeyExactlyOn401 | server/services/ai-providers/zhipu.js:71-74 | the invalid-key message comes back exactly when the error mentions `401` |
| Zhipu.DefaultModelInCatalog | server/services/ai-providers/zhipu.js:97-136 | the default model is listed in the catalog |
| Moonshot.New | server/services/ai-providers/moonshot.js:4-8 | a falsy key fails; the model defaults to moonshot-v1-8k only when none is given |
| Moonshot.GenerateBlogPost | server/services/ai-providers/moonshot.js:10-77 | as for DeepSeek, with Moonshot's base URL and messages |
| Moonshot.KeyCheckRequest | server/services/ai-providers/moonshot.js:81-85 | the key check is GET `/models` with the key as bearer |
| Moonshot.ValidateApiKey | server/services/ai-providers/moonshot.js:79-90 | true exactly when the response is ok |
| Moonshot.RequestTemperature | server/services/ai-providers/moonshot.js:16-21 | the request carries temperature 0.7 |
| Moonshot.InvalidKeyExactlyOn401 | server/services/ai-providers/moonshot.js:72-75 | the invalid-key message comes back exactly when the error mentions `401` |
| Moonshot.DefaultModelInCatalog | server/services/ai-providers/moonshot.js:92-125 | the default model is listed in the catalog |
| Mistral.New | server/services/ai-providers/mistral.js:4-8 | a falsy key fails; the model defaults to mistral-small-latest only when none is given |
| Mistral.GenerateBlogPost | server/services/ai-providers/mistral.js:10-77 | as for DeepSeek, with Mistral's base URL and messages |
| Mistral.KeyCheckRequest | server/services/ai-providers/mistral.js:81-85 | the key check is GET `/models` with the key as bearer |
| Mistral.ValidateApiKey | server/services/ai-providers/mistral.js:79-90 | true exactly when the response is ok |
| Mistral.RequestTemperature | server/services/ai-providers/mistral.js:16-21 | the request carries temperature 0.7 |
| Mistral.InvalidKeyExactlyOn401 | server/services/ai-providers/mistral.js:72-75 | the invalid-key message comes back exactly when the error mentions `401` |
| Mistral.DefaultModelInCatalog | server/services/ai-providers/mistral.js:92-139 | the default model is listed in the catalog |
| Cohere.New | server/services/ai-providers/cohere.js:4-8 | a falsy key fails; the model defaults to command-r only when none is given |
| Cohere.ChatRequest | server/services/ai-providers/cohere.js:16-30 | POST to `/chat` with one `message` field holding the prompt, temperature 0.7 and `stream: !!onStream` |
| Cohere.EventContent | server/services/ai-providers/cohere.js:51-60 | a line that does not parse, or an event other than `text-generation`, delivers nothing; otherwise `text \|\| ''` |
| Cohere.WrapError | server/services/ai-providers/cohere.js:70-75 | `401` or `invalid_api_key` in the message gives the invalid-key message, and anything else the prefix plus the message |
| Cohere.GenerateBlogPost | server/services/ai-providers/cohere.js:10-76 | the request and, per fetch outcome, the result and JSON-lines trace; the one-shot path returns `data.text` |
| Cohere.KeyCheckRequest | server/services/ai-providers/cohere.js:80-85 | the key check posts to `/check-api-key` with the key as bearer and no body |
| Cohere.ValidateApiKey | server/services/ai-providers/cohere.js:78-90 | true exactly when the response is ok |
| Cohere.OtherEventSkipped | server/services/ai-providers/cohere.js:50-61 | a line that is not a `text-generation` event delivers nothing, and the loop goes on |
| Cohere.TextEventDelivered | server/services/ai-providers/cohere.js:53-57 | a `text-generation` line delivers its text, or '' |
| Cohere.SingleEventRead | server/services/ai-providers/cohere.js:43-62 | one read holding one `text-generation` line with text x delivers exactly x |
| Cohere.InvalidKeyExactlyOnMarkers | server/services/ai-providers/cohere.js:71-74 | the invalid-key message comes back exactly when the message mentions `401` or `invalid_api_key` |
| Cohere.DefaultModelInCatalog | server/services/ai-providers/cohere.js:92-131 | the default model is listed in the catalog |
| ProviderRegistry.CreateProvider | server/services/ai-providers/index.js:30-38 | an unknown lower-cased id gives the unsupported error naming the id as given; a known one gives its class with the key check, and `modelName` is passed through unchanged, an absent one giving the class's default model |
| ProviderRegistry.EntriesFrom | server/services/ai-providers/index.js:45-51 | the entries from position k on, each with its table key as id and its class's catalog |
| ProviderRegistry.GetAllProviders | server/services/ai-providers/index.js:44-52 | nine entries in table order, each with its key as id and its class's catalog |
| ProviderRegistry.ProviderIdsAreTheTable | server/services/ai-providers/index.js:11-21 | the ordered ids are exactly the table's keys, each once |
| ProviderRegistry.KeysAreLowerCase | server/services/ai-providers/index.js:11-21 | every table key is already lower case |
| ProviderRegistry.ValidIffNotUnsupported | server/services/ai-providers/index.js:30-61 | `isValidProvider` holds exactly when `createProvider` does not report the id as unsupported |
| ProviderRegistry.CaseInsensitiveLookup | server/services/ai-providers/index.js:31 | two ids with the same lower case construct the same adapter |
| ProviderRegistry.ListingConstructsEveryProvider | server/services/ai-providers/index.js:45-46 | the listing's construction with 'dummy_key' succeeds for every id, with the default model |
| ProviderRegistry.DefaultModelsCatalogued | server/services/ai-providers/index.js:45-50 | each adapter's default model appears in its own catalog |
| AIProviderBase.StylePhrasesDistinct | server/services/ai-providers/base.js:54-59 | the four styles map to four pairwise different phrases |
| ExtensionProviders.KeysMatchIds | browser-extension/ai-providers.js:12-78 | every catalog key equals its entry's `id` |
| ExtensionProviders.GetProviderInfo | browser-extension/ai-providers.js:253-255 | the entry exactly when the id is a catalog key, with that id; the inherited member, which is not null, for a name every object inherits; otherwise null |
| ExtensionProviders.BuildPromptAgreesWithServer | browser-extension/ai-providers.js:87-116 | the extension's prompt equals the server's for every transcript, language and style, unknown styles included |
| ExtensionProviders.Dispatch | browser-extension/ai-providers.js:269-285 | the switch names a vendor exactly for the five catalog ids |
| ExtensionProviders.RequestFor | browser-extension/ai-providers.js:135-244 | each REST vendor gets the model and prompt; only Anthropic sends the key as `x-api-key`, the others as a bearer token with temperature 0.7; only Groq and Anthropic send `max_tokens` 4096; Gemini sends no REST request |
| ExtensionProviders.ReplyOutcome | browser-extension/ai-providers.js:150-156 | an ok reply gives its content, or no content when the last field is missing, or throws the error of a body that is not JSON or lacks the list; a failed one gives `error.error?.message`, or the vendor label and the status |
| ExtensionProviders.FallbackCarriesStatus | browser-extension/ai-providers.js:151-152 | the fallback text starts with the vendor label and ends in the status written in decimal, which reads back as that status |
| ExtensionProviders.RawMessage | browser-extension/ai-providers.js:306 | a non-empty message is the raw text; an empty one shows as `Error`, so the raw text is never empty |
| ExtensionProviders.GenerateContent | browser-extension/ai-providers.js:260-300 | an unknown id, a failed call and an empty or blank result are errors that go through the translator; a result is returned unchanged exactly when it is not blank |
| ExtensionProviders.ContentPrompt | browser-extension/ai-providers.js:261-262 | the prompt is the server's `buildPrompt` of the transcript with the options' defaults |
| ExtensionProviders.ProviderName | browser-extension/ai-providers.js:307 | the `name` of what `GetProviderInfo` finds: the catalog name for a known id, `Object` for `constructor`, and the id itself for the other inherited names and for every unknown id |
| ExtensionProviders.Classify | browser-extension/ai-providers.js:311-354 | the category's rule fires and no rule earlier in the chain does |
| ExtensionProvidersOrdering.ClassifiedAs | browser-extension/ai-providers.js:311-354 | conversely, the first rule that fires is the category |
| ExtensionProviders.FriendlyErrorMessage | browser-extension/ai-providers.js:305-355 | the quota, auth, overload, network and safety messages name the provider; a missing model gives the fixed model message; the technical message embeds the first 50 characters; an unmatched message is shown after "❌ 發生錯誤: " |
| ExtensionProvidersOrdering.InheritedIdUnsupported | browser-extension/ai-providers.js:253-286 | for an inherited name `getProviderInfo` is not null, yet `generateContent` rejects the id as unsupported |
| ExtensionProvidersOrdering.ConstructorNamedObject | browser-extension/ai-providers.js:307 | for the id `constructor` the network message names the provider `Object` |
| ExtensionProvidersOrdering.MarkerFreeVerbatim | browser-extension/ai-providers.js:311-354 | a short message that avoids one character of every rule's patterns, and is not framed like JSON, matches no rule |
| ExtensionProvidersOrdering.UndefinedIndexVerbatim | browser-extension/ai-providers.js:311-354 | the TypeError of reading `[0]` of `undefined` matches no rule |
| ExtensionProvidersOrdering.UndefinedIndexShownVerbatim | browser-extension/ai-providers.js:349-354 | that TypeError is shown after "❌ 發生錯誤: " |
| ExtensionProvidersOrdering.ListlessReplyReported | browser-extension/ai-providers.js:155-156 | an ok reply without the `choices` list reaches the user as that TypeError after "❌ 發生錯誤: ", not as the empty-result error |
| ExtensionProvidersOrdering.NetworkBlockedIsNetwork | browser-extension/ai-providers.js:339-346 | "network blocked" fires both the network and the safety rule, and is classified as network |
| ExtensionProvidersOrdering.AuthBeforeModel | browser-extension/ai-providers.js:321-331 | "401 model not found" fires the model rule and is still classified as auth |
| ExtensionProvidersOrdering.QuotaBeforeAuth | browser-extension/ai-providers.js:312-326 | "429 401" fires the auth rule and is still classified as quota |
| ExtensionProvidersOrdering.EmptyResultShownVerbatim | browser-extension/ai-providers.js:290-291 | the empty-result error matches no rule and is shown after the generic prefix |
| FriendlyErrors.Excerpt | browser-extension/ai-providers.js:351 | `substring(0, 50)`: a prefix of the message, of length 50 or the whole message when shorter |
| WebApiService.Classify | api-service.js:47-93 | the category's rule fires and no rule earlier in the chain (quota, auth, model, overloaded, safety, network, technical) does |
| WebApiService.ClassifiedAs | api-service.js:47-93 | conversely, the first rule that fires is the category |
| WebApiService.FixedMessagesDistinct | api-service.js:53-86 | the six fixed messages are pairwise different |
| WebApiService.FriendlyErrorMessage | api-service.js:47-94 | a falsy message is '發生未知錯誤'; a matched rule gives its fixed message; a technical one gives its first 50 characters; anything else comes back with no prefix |
| WebApiService.ResponseRawMessage | api-service.js:27 | `data.message \|\| data.error \|\| 'Request failed'` |
| WebApiService.FetchJson | api-service.js:14-42 | an ok response gives its body; a failed one an `APIError` with the translated message and the status; a throw before any response an `APIError` with status 0 |
| WebApiService.FailedResponseWithoutReason | api-service.js:26-32 | a failed response whose body names no error shows `Request failed` unchanged, with its status |
| WebApiService.EventEffect | api-service.js:137-155 | a connection error rejects with status 0; an unparseable event is ignored; an `error` event rejects with the translated message and status 500; only non-empty chunks are delivered |
| WebApiService.Listen | api-service.js:133-155 | the listener's loop settles as the first settling event decides, and calls `onStream` once per delivered chunk, with the concatenation of the chunks so far |
| WebApiService.ListenStep | api-service.js:137-155 | one event settles, delivers one chunk or is ignored, and the rest is decided by the remaining events |
| WebApiService.AccumulatesSnoc | api-service.js:147-148 | appending a chunk extends the calls by that chunk and the new accumulated text |
| WebApiService.FirstSettlementDecides | api-service.js:140-145 | the first settling event decides, with a `done` event's own `result`; nothing after it is delivered |
| TranslatorsCompared.NetworkBlockedClassifiedDifferently | api-service.js:79-86 | "network blocked" is a network error in the extension and a safety block in the web client, which shows the safety message |
| TranslatorsCompared.SecurityIsNetworkOnlyInExtension | api-service.js:84 | `security` is a network marker only in the extension; the web client matches no rule on "security error" and shows it unchanged |
| Server.MarkerLength | server.js:21 | the length of the marker alternative that matches at a position, or 0 when none does |
| Server.Capture | server.js:21 | the longest run of characters other than `&`, `\n`, `?` and `#` from a position |
| Server.SearchFrom | server.js:21-28 | the capture of the leftmost match at or after a position, or none exactly when no match starts there |
| Server.ExtractVideoId | server.js:20-32 | a result is a non-empty capture free of `&`, `?`, `#` and newline, with no length check; none exactly when no marker matches and the text is not a bare 11-character id |
| Server.ShortLinkCapture | server.js:21 | a short link captures everything after `youtu.be/`, however long, up to the first `&`, `?`, `#` or newline |
| Server.CaptureIs | server.js:21 | the capture is the run that sits at the position when the next character ends it |
| Server.Texts | server.js:84-88 | one text per segment, in order |
| Server.TranscriptRoute | server.js:48-106 | 400 for a missing or unextractable id; the fetch query carries the id and a language only when one was asked for; 404 for an empty transcript; 403 when the error mentions "disabled", else 500; success joins the texts with a space and reports the last segment's offset as the duration |
| Server.TranscriptSplitsBack | server.js:84-88 | a joined transcript splits back into the segment texts when none holds a space |
| Server.SplitJoin | server.js:84-88 | splitting a join on its separator gives back the parts when no part holds the separator |
| Server.Frames | server.js:149-175 | one `data: …` frame per event, in order |
| Server.ChunkEvents | server.js:148-150 | one chunk event per `onStream` call, in order |
| Server.Response.constructor | server.js:109 | a response starts at 200, with nothing written, no body and not ended |
| Server.Response.Write | server.js:149 | `res.write` appends its piece and sends the headers, and leaves the rest alone |
| Server.Response.End | server.js:154 | `res.end` ends the response, and leaves the rest alone |
| Server.Response.Send | server.js:123-181 | `res.status(s).json(b)` sets the status and body and ends, without writing pieces |
| Server.Default | server.js:111-119 | a destructuring default applies only to an absent field |
| Server.StreamEvents | server.js:145-175 | a stream that got going carries one chunk event per call, then exactly one done or error event |
| Server.StreamClosesOnce | server.js:145-175 | exactly one closing event, and it comes last |
| Server.HandleGenerate | server.js:109-183 | the transcript, the key and the provider are checked in that order, each with its 400; the adapter is created only after all three pass, with the body defaults; the stream frames, the 500 reply with the raw message and the article reply are as stated for each outcome |
| Server.FramesAppend | server.js:149-153 | one more event appends its frame |
| Server.WriteChunks | server.js:148-150 | the callback loop writes exactly the chunk frames, and sends the headers exactly when there was a call |
| Server.FrameIsOneDataLine | server.js:149-174 | a frame is one data line, which the adapters' event-stream reader takes as the encoded event, and a blank line |
| ExtensionUtils.Marker | browser-extension/utils.js:30-41 | each unanchored pattern starts with a literal beginning with `y` |
| ExtensionUtils.LastParam | browser-extension/utils.js:32 | the greedy `(?:[^&]*&)*v=` settles on the last qualifying `v=` position |
| ExtensionUtils.IdFrom | browser-extension/utils.js:30-41 | the eleven id characters at a position form a video id found there |
| ExtensionUtils.MatchAt | browser-extension/utils.js:30-41 | a match of a pattern at a position captures a video id that occurs in the text, after that pattern's marker; the bare-id pattern matches only the whole text |
| ExtensionUtils.NoMatchPastEnd | browser-extension/utils.js:44 | no match starts past the end |
| ExtensionUtils.LeftmostFrom | browser-extension/utils.js:44 | the leftmost start at or after a position where the pattern matches |
| ExtensionUtils.Match | browser-extension/utils.js:44 | `String.prototype.match`'s capture is a video id found in the text |
| ExtensionUtils.MatchNoneIff | browser-extension/utils.js:44 | a pattern fails exactly when no match starts at any index |
| ExtensionUtils.FirstMatchFrom | browser-extension/utils.js:43-50 | the first pattern that matches decides; none exactly when no pattern matches |
| ExtensionUtils.ExtractVideoId | browser-extension/utils.js:19-51 | null for a missing or blank input; a result is 11 characters from `[A-Za-z0-9_-]` found in the trimmed text; the first matching pattern on the trimmed text decides |
| ExtensionUtils.NoneInLead | browser-extension/utils.js:30-41 | no pattern starts inside a lead without `y` |
| ExtensionUtils.NoneWithoutMarker | browser-extension/utils.js:30-41 | a pattern whose marker does not occur never matches |
| ExtensionUtils.LeftmostAt | browser-extension/utils.js:44 | a match with none before it is the leftmost |
| ExtensionUtils.NoSlashNoMarker | browser-extension/utils.js:30-39 | text without `/` matches none of the four URL patterns |
| ExtensionUtils.NoQueryNoWatch | browser-extension/utils.js:30-33 | text without `?` matches neither watch pattern |
| ExtensionUtils.IdHasNoPunctuation | browser-extension/utils.js:30-41 | a video id holds no `/`, `?`, `&` or `.`, and does not start or end in white space |
| ExtensionUtils.LeadAndIdUnpadded | browser-extension/utils.js:23 | a URL with a visible first character that ends in an id has nothing to trim |
| ExtensionUtils.WatchCapture | browser-extension/utils.js:31 | the first pattern captures the id of a watch URL, with or without `&t=120` |
| ExtensionUtils.ShortCapture | browser-extension/utils.js:35 | the short-link pattern captures the id after `youtu.be/` |
| ExtensionUtils.EmbedCapture | browser-extension/utils.js:37 | the embed pattern captures the id after `youtube.com/embed/` |
| ExtensionUtils.EmbedHasNoShortLink | browser-extension/utils.js:35-37 | an embed URL never contains `youtu.be/` |
| ExtensionUtils.Skip | browser-extension/utils.js:43-48 | a pattern that does not match passes the decision on |
| ExtensionUtils.Hit | browser-extension/utils.js:43-48 | a pattern that matches decides |
| ExtensionUtils.ExtractUnpadded | browser-extension/utils.js:23-25 | text that is already trimmed is matched as it stands |
| ExtensionUtils.ExtractedByWatch | browser-extension/utils.js:31 | trimmed text the first pattern matches yields its capture |
| ExtensionUtils.ExtractedByShortLink | browser-extension/utils.js:35 | trimmed text first matched by the short-link pattern yields its capture |
| ExtensionUtils.ExtractedByEmbed | browser-extension/utils.js:37 | trimmed text first matched by the embed pattern yields its capture |
| ExtensionUtils.ExtractedByBareId | browser-extension/utils.js:39 | trimmed text matched only by the bare-id pattern yields itself |
| ExtensionUtils.WatchUrl | browser-extension/utils.test.js:39-91 | `https://www.youtube.com/watch?v=ID` yields ID for every id |
| ExtensionUtils.WatchUrlWithTime | browser-extension/utils.test.js:92-103 | `…watch?v=ID&t=120` yields ID |
| ExtensionUtils.ShortUrl | browser-extension/utils.test.js:39-91 | `https://youtu.be/ID` yields ID |
| ExtensionUtils.EmbedUrl | browser-extension/utils.test.js:39-91 | `https://www.youtube.com/embed/ID` yields ID |
| ExtensionUtils.BareIdUrl | browser-extension/utils.test.js:39-91 | a bare id yields itself |
| ExtensionUtils.WatchVHasWatchQuery | browser-extension/utils.js:31-33 | a `watch?v=` URL contains the watch query marker |
| ExtensionUtils.NoYouTubeShape | browser-extension/utils.test.js:115-154 | trimmed text with none of the three YouTube prefixes that is not an id yields null |
| ExtensionUtils.TrimIdempotent | browser-extension/utils.js:23 | trimming twice changes nothing |
| ExtensionUtils.ExtractIgnoresPadding | browser-extension/utils.js:23 | surrounding white space never changes the result |
| ExtensionUtils.ValidateApiKey | browser-extension/utils.js:62-69 | true exactly for a string with a non-white-space character |
| ExtensionUtils.GenerateFilename | browser-extension/utils.js:79-86 | the trimmed id between `youtube-blog-` and `.md`, or `youtube-blog-unknown.md` for a missing or blank id |
| ExtensionUtils.FilenameHoldsId | browser-extension/utils.test.js:216-252 | the trimmed id reads back out of the file name, which ends in `.md` |
| CaptionTracks.Find | browser-extension/content.js:446-452 | `find`'s index: the first track meeting the preference, or none when no track does |
| CaptionTracks.Preferred | browser-extension/content.js:446-452 | the first track of the best tier present; none only for an empty list |
| CaptionTracks.PreferredTrack | browser-extension/injected.js:61-67 | the same choice in the page script: a track of the list with no better-tier track beside it |
| CaptionTracks.TraditionalWins | browser-extension/content.js:446-448 | a Traditional Chinese track wins, at or before any other such track |
| CaptionTracks.AutoGeneratedBeatsOthers | browser-extension/content.js:449-451 | without a Chinese track, an automatic track wins when there is one |
| CaptionTracks.FirstAsLastResort | browser-extension/content.js:452 | with no preferred track, the first one is chosen |
| ContentScript.StripAppend | browser-extension/content.js:389-392 | the visible characters of a concatenation are those of the parts |
| ContentScript.StripBlank | browser-extension/content.js:392 | a text is blank exactly when it has no visible character |
| ContentScript.StripTrimStart | browser-extension/content.js:392 | dropping leading white space keeps every visible character |
| ContentScript.NewlinesToSpaces | browser-extension/content.js:390 | every newline becomes a space and nothing else changes |
| ContentScript.ConsCollapsed | browser-extension/content.js:391 | a character put in front keeps a collapsed text collapsed, unless both are white space |
| ContentScript.CollapseWhitespace | browser-extension/content.js:391 | each run of white space becomes one space: only spaces remain, never two in a row, and every visible character is kept |
| ContentScript.TrimKeepsShape | browser-extension/content.js:392 | trimming keeps the absence of newlines and of doubled white space |
| ContentScript.StripAround | browser-extension/content.js:389-392 | blank text around a part adds no visible character |
| ContentScript.TrimKeepsText | browser-extension/content.js:392 | trimming removes white space only |
| ContentScript.OnlySpacesNoNewline | browser-extension/content.js:390-391 | a text whose white space is all spaces has no newline |
| ContentScript.NormalizedShape | browser-extension/content.js:389-392 | a normalised transcript has no newline, no doubled white space, no white space at either end, keeps every visible character in order, and is empty exactly for blank input |
| ContentScript.EventTexts | browser-extension/content.js:381-388 | at most one text per event |
| ContentScript.EventTextsSkipsBare | browser-extension/content.js:383 | an event without segments contributes nothing, wherever it sits |
| ContentScript.Json3Transcript | browser-extension/content.js:376-401 | the events' texts joined with a space and normalised; missing events or a blank transcript is 'No transcript data in JSON format' |
| ContentScript.XmlTranscript | browser-extension/content.js:404-435 | the `<text>` contents joined and normalised, or the `<p>` contents when that fallback applies, else 'No text found in captions' |
| ContentScript.FromInterceptedUrl | browser-extension/content.js:362-435 | a failed fetch is 'Failed to fetch caption data'; a JSON content type is read as JSON3, and a `response.json()` that throws gives that error's message; anything else is read as XML with the `<p>` fallback |
| ContentScript.FromTrack | browser-extension/content.js:455-475 | a cached track's URL is read as XML without the `<p>` fallback |
| ContentScript.MergeUrl | browser-extension/content.js:241-246 | the merge sets the id, URL and time, and keeps the cached tracks |
| ContentScript.MergeTracks | browser-extension/content.js:264-269 | the merge sets the id, tracks and time, and keeps the cached URL |
| ContentScript.ExtractCaptionsFromPage | browser-extension/content.js:359-490 | the cached URL first, then the preferred cached track, both only when the cache is for the requested video; otherwise the 'please wait' error |
| ContentScript.EmptyTracksThrow | browser-extension/content.js:441-454 | a cached but empty track list leaves `captionTrack` undefined, and the reply is V8's TypeError message for reading `languageCode` |
| ContentScript.UnreadableJsonReported | browser-extension/content.js:364-382 | an ok JSON reply whose body `response.json()` cannot parse is reported with that error's message, not as an empty transcript |
| ContentScript.NoCaptionDataSaysWait | browser-extension/content.js:481 | the missing-cache error contains "please wait" |
| ContentScript.CachedUrlServes | browser-extension/content.js:362 | a URL cached for a video serves that video's request |
| ContentScript.TracksKeepCachedUrl | browser-extension/content.js:264-269 | caching tracks later does not displace a cached URL |
| ContentScript.OtherVideoWaits | browser-extension/content.js:362-481 | a cache recorded for another video is never used: both cache tests compare the video id, so the lookup falls through to the final error |
| ContentScript.CurrentVideoReply | browser-extension/content.js:326-337 | the reply's id is the page's, and its URL is the page's exactly when an id was detected |
| ContentScript.CacheFollowsPage | browser-extension/content.js:225-272 | only a caption message from the page script, on a video page, changes the cache, and then for the current video |
| ContentScript.ContentState.constructor | browser-extension/content.js:55-56 | no video and no cache, nothing sent |
| ContentScript.ContentState.DetectAndSendVideoInfo | browser-extension/content.js:62-100 | a new id is recorded and announced once; losing the id clears it and the cache and announces null; otherwise nothing changes |
| ContentScript.ContentState.OnPageMessage | browser-extension/content.js:225-272 | the cache becomes what the message gives it, and the id and sent messages stay |
| ContentScript.ContentState.ExtractCaptions | browser-extension/content.js:339-350 | a request for a video the cache was not recorded for gets the 'please wait' error |
| PageInterceptor.PreferredUrl | browser-extension/injected.js:69-71 | a URL exactly when the preferred track has a non-empty `baseUrl`, and then that one |
| PageInterceptor.SendCaptionUrlPosts | browser-extension/injected.js:23-33 | a URL is posted unless it is the last one posted since the reset, and the state stays consistent |
| PageInterceptor.SendCaptionTracksPosts | browser-extension/injected.js:38-49 | a missing or empty list is ignored; a list is posted unless it serialises like the last one; the state stays consistent |
| PageInterceptor.RepeatedUrlSuppressed | browser-extension/injected.js:24 | the same URL twice in a row is posted once |
| PageInterceptor.RepeatedTracksSuppressed | browser-extension/injected.js:40 | the same list twice in a row is posted once |
| PageInterceptor.ExtractTracksPosts | browser-extension/injected.js:54-76 | a player response posts its list (unless a repeat), then a URL only when the preferred track has a `baseUrl`, and that one |
| PageInterceptor.RequestReportsTimedtext | browser-extension/injected.js:86-91 | only a string URL containing `/api/timedtext` is reported |
| PageInterceptor.NavigateConsistent | browser-extension/injected.js:174-185 | navigation keeps the de-duplication state consistent |
| PageInterceptor.NavigationAllowsRepost | browser-extension/injected.js:175-179 | after a move to a new URL, the suppressed URL can be posted again |
| PageInterceptor.Interceptor.constructor | browser-extension/injected.js:17-18 | nothing remembered, at the page's URL |
| PageInterceptor.Interceptor.SendUrl | browser-extension/injected.js:23-33 | the state after `sendCaptionUrl` |
| PageInterceptor.Interceptor.SendTracks | browser-extension/injected.js:38-49 | the state after `sendCaptionTracks` |
| PageInterceptor.Interceptor.ExtractCaptionTracks | browser-extension/injected.js:54-76 | the state after `extractCaptionTracks` |
| PageInterceptor.Interceptor.OnRequest | browser-extension/injected.js:82-105 | the request is forwarded unchanged, after the timed-text report |
| PageInterceptor.Interceptor.CheckNavigation | browser-extension/injected.js:173-185 | the state after one tick of the navigation timer |
| Localization.Parse | browser-extension/i18n.js:9-106 | a code names a table exactly when it is 'en' or 'zh_TW' |
| Localization.Lookup | browser-extension/i18n.js:118-119 | the current table's entry, else the English one, else the key itself |
| Localization.LookupNonEmpty | webapp-i18n.js:144-145 | a lookup is never empty for a non-empty key |
| Localization.UnknownCodeReadsEnglish | webapp-i18n.js:144 | a code that names no table reads the English table |
| Localization.ReplaceEachAbsent | browser-extension/i18n.js:122-126 | placeholders that do not occur leave the message as it is |
| Localization.ReplaceFirstBetween | webapp-i18n.js:149 | replacing the first `n` in `a + n + b` gives `a + rep + b` when `a` lacks `n`'s first character |
| Localization.InheritedNamePassesTest | browser-extension/i18n.js:136 | `"toString"` passes the table test though no table has that code |
| ExtensionI18n.Placeholder | browser-extension/i18n.js:124 | each placeholder starts with `$` |
| ExtensionI18n.Numbered | browser-extension/i18n.js:123-125 | substitution `i` pairs with `$` followed by `i + 1` |
| ExtensionI18n.NoSubstitutions | browser-extension/i18n.js:122 | with no substitutions the entry comes back unchanged |
| ExtensionI18n.TemplatesHoldProviderSlot | browser-extension/i18n.js:50-101 | the quota and overloaded templates of both tables (lines 50, 53, 98 and 101) hold `$1` |
| ExtensionI18n.QuotaMessageNamesProvider | browser-extension/i18n.js:122-126 | the quota message of lines 50 and 98, in either language, names the provider in place of `$1` |
| ExtensionI18n.OverloadedMessageNamesProvider | browser-extension/i18n.js:122-126 | so does the overloaded message of lines 53 and 101 |
| ExtensionI18n.SupportedLanguages | browser-extension/i18n.js:155-160 | exactly the codes of the two tables, each once |
| ExtensionI18n.SetLanguageAsWritten | browser-extension/i18n.js:135-141 | as written, any code the `TABLE[lang]` test passes is adopted, else 'en' |
| ExtensionI18n.SetLanguageAsWrittenEscapes | browser-extension/i18n.js:136 | as written, `setLanguage("toString")` leaves the language outside the two codes |
| ExtensionI18n.SelectLanguage | browser-extension/i18n.js:135-141 | a table's code is adopted and anything else gives 'en', so the result is always a table's code |
| ExtensionI18n.UiLanguage.constructor | browser-extension/i18n.js:109 | the language starts as 'en' |
| ExtensionI18n.UiLanguage.GetMessage | browser-extension/i18n.js:117-129 | the loop gives the lookup with `$1`, `$2`, … replaced in order |
| ExtensionI18n.UiLanguage.SetLanguage | browser-extension/i18n.js:135-141 | the language becomes the one the corrected `SelectLanguage` picks, so it stays a table's code |
| ExtensionI18n.UiLanguage.GetLanguage | browser-extension/i18n.js:147-149 | always 'en' or 'zh_TW', given the corrected `SetLanguage` |
| WebAppI18n.Braced | webapp-i18n.js:149 | `{name}` |
| WebAppI18n.Named | webapp-i18n.js:148-150 | each substitution pairs with its braced name, in key order |
| WebAppI18n.FillsFirstPlaceholder | webapp-i18n.js:148-150 | a substitution fills the first `{name}` |
| WebAppI18n.PlainMessageUnchanged | webapp-i18n.js:143-153 | a message without `{` comes back unchanged, whatever the substitutions |
| WebAppI18n.SetAsWritten | webapp-i18n.js:159-166 | as written, any code the `WEBAPP_I18N[lang]` test passes is adopted and saved |
| WebAppI18n.SetAsWrittenEscapes | webapp-i18n.js:160 | as written, `"toString"` is saved and becomes the language |
| WebAppI18n.Set | webapp-i18n.js:159-166 | a table's code is adopted and saved; anything else gives 'en' and saves nothing |
| WebAppI18n.Init | webapp-i18n.js:179-185 | corrected: a saved table code is adopted; anything else keeps the current language |
| WebAppI18n.InitAsWritten | webapp-i18n.js:179-185 | as written, any saved value the `WEBAPP_I18N[saved]` test passes is adopted; anything else keeps the current language |
| WebAppI18n.InheritedChoiceSurvivesReload | webapp-i18n.js:160-181 | as written, a chosen `"toString"` is saved and is the language a reloaded page starts with, though no table has it |
| WebAppI18n.InitKeepsValid | webapp-i18n.js:179-185 | under the corrected `Init`, the language stays a table's code |
| WebAppI18n.ChoiceSurvivesReload | webapp-i18n.js:160-182 | a chosen language is saved and is the one a reloaded page starts with |
| WebAppI18n.UnknownChoiceNotSaved | webapp-i18n.js:164 | an unknown choice does not change what a reloaded page starts with |
| WebAppI18n.HtmlLang | webapp-i18n.js:219 | 'zh-TW' exactly for 'zh_TW', else 'en' |
| WebAppI18n.WebAppLanguage.constructor | webapp-i18n.js:135 | a page starts in 'en', with what the browser saved |
| WebAppI18n.WebAppLanguage.GetMessage | webapp-i18n.js:143-153 | the loop gives the lookup with each `{name}` replaced in turn |
| WebAppI18n.WebAppLanguage.SetLanguage | webapp-i18n.js:159-166 | the state after the corrected `Set`, always a table's code |
| WebAppI18n.WebAppLanguage.InitLanguage | webapp-i18n.js:179-185 | the state after the corrected `Init`, returning the language now current |
| WebAppI18n.WebAppLanguage.GetLanguage | webapp-i18n.js:172-174 | always 'en' or 'zh_TW', given the corrected `Set` and `Init` |
| CorsPolicy.TrimAll | server/config/security.js:10 | each piece trimmed, in order |
| CorsPolicy.AllowedOrigins | server/config/security.js:7-27 | the configured list split on commas and trimmed; else in production `CLIENT_URL` or the default domain; else the four local origins |
| CorsPolicy.ConfiguredOriginsAreThePieces | server/config/security.js:8-11 | one entry per comma-separated piece, in order, which joins back to the variable, each trimmed and free of commas |
| CorsPolicy.ProductionAllowsOneOrigin | server/config/security.js:14-18 | production allows exactly one non-empty origin, `CLIENT_URL` when set |
| CorsPolicy.CheckOrigin | server/config/security.js:44-48 | a refusal carries 'Not allowed by CORS' |
| CorsPolicy.OriginAllowedIff | server/config/security.js:31-49 | allowed exactly for a missing origin or an exact member of the list; a missing origin is treated alike in every environment |
| CorsPolicy.DevelopmentAllowsLocalhost | server/config/security.js:21-26 | in development with no list, exactly the four local origins get through |
| CorsPolicy.ConfiguredOriginsUnpadded | server/config/security.js:10 | no configured entry ends in white space |
| CorsPolicy.PaddedOriginRefused | server/config/security.js:44-48 | an origin that ends in white space is refused against a configured list |
| CorsPolicy.UnlistedRefused | server/config/security.js:44-48 | an origin not in the list is refused |
| ErrorResponses.StatusOf | server/middleware/errorHandler.js:41 | `err.statusCode \|\| 500` |
| ErrorResponses.Handle | server/middleware/errorHandler.js:17-51 | the CORS message gives 403 before the name checks; a validation error gives 400 with its message; an unauthorized one 401; otherwise the status, with '伺服器錯誤' exactly for 500, and in production the generic message and no stack |
| ErrorResponses.RefusedOriginForbidden | server/middleware/errorHandler.js:17-22 | an origin the CORS policy refuses is answered 403 |
| ErrorResponses.ProductionHidesDetails | server/middleware/errorHandler.js:42-51 | in production no response has a stack, and only a validation error keeps its own message |
| ErrorResponses.DevelopmentShowsDetails | server/middleware/errorHandler.js:47-50 | outside production the default response carries the error's own message and stack |
| ErrorResponses.NotFound | server/middleware/errorHandler.js:55-60 | status 404, with a label no error response uses |

## Left out

- **I/O and outside calls.** `fetch`, the vendor SDKs, `YoutubeTranscript`, `TextDecoder`, `localStorage`, `window.postMessage` and `chrome.runtime` messaging are not modelled. What they return is an input; what is sent to them is recorded in a sequence or in a field.
- **Logging, timers and time.**
  - `console` logging is not modelled.
  - `setTimeout`, the 500 ms `setInterval` and `Date.now()` are not modelled. A time is a parameter, and a timer tick is a call.
  - The retry loop of `tryCaptionExtraction` (browser-extension/content.js:106-215) is not modelled.
- **DOM work.**
  - `DOMParser` is not modelled: a caption document is given as the texts of its `<text>` and `<p>` elements.
  - `MutationObserver`, the `popstate`/load listeners and the script-tag injection of content.js are not modelled.
  - The DOM loop of `localizeWebApp` is not modelled; only its `lang` attribute is (`WebAppI18n.HtmlLang`).
- **Monkey-patching in injected.js.** The `fetch`, `XMLHttpRequest.open`, `ytInitialPlayerResponse` setter and `ytcfg.set` replacements are modelled only as the entry points `OnRequest`, `ExtractCaptionTracks` and `CheckNavigation`. Their installation on `window` is not modelled.
- **JSON values.**
  - A value that is not a string, where the code tests `typeof` or truthiness, is modelled as `None`.
  - Missing fields are `None`.
  - Object key order is the order of a `seq`, so `Object.keys` ordering of integer-like keys is not modelled.
  - The `content.js` cache has no fields beyond the four the code writes.
- Server.GenerateBody: each field is a string or absent, so a field that is present but `null` or not a string is not modelled. The destructuring defaults at server.js:110-118 replace only `undefined`, so for such a field `Server.HandleGenerate` does not follow the code:
  - A `null` or numeric `provider` is not replaced by `gemini`. `provider.toLowerCase()` in `isValidProvider` (server/services/ai-providers/index.js:60) then throws a TypeError, and the catch at server.js:170-181 answers 500 `生成失敗` with its message.
  - A `null` `modelName` skips the adapter's default parameter (for example server/services/ai-providers/openai.js:5), and the request is sent with `model: null`.
  - A `null` `language` is interpolated into the prompt as the text `null`, not replaced by `繁體中文`. A `null` `style` is not replaced either, but it finds no phrase and so falls back to the professional one (server/services/ai-providers/base.js:61), as the model's default does.
  - A truthy non-string `transcript` or `apiKey` passes the checks at server.js:121-127 and reaches the adapter as it is.
- **JavaScript string details.**
  - `toLowerCase` is ASCII-only.
  - Lengths are counted in characters, not UTF-16 code units.
  - `$` patterns in `String.prototype.replace` replacements are not expanded: substitution is literal first-occurrence replacement.
  - The `$1` placeholder is also a prefix of `$10`, which the code does not guard against. The model replaces the first occurrence exactly as the code does.
- **Inherited keys.** The names every object inherits from `Object.prototype` (`Localization.InheritedName`) are modelled where the extension's lookups reach them: `getProviderInfo` and `getFriendlyErrorMessage` (browser-extension/ai-providers.js:254 and 307) and the two language modules. They are not modelled here:
  - `isValidProvider` (server/services/ai-providers/index.js:60) accepts `constructor` and the other inherited names; the registry is a map of its own keys.
  - `createProvider` (server/services/ai-providers/index.js:31-37) finds `Object` under `constructor` (and a method under the other inherited names) and so does not throw the unsupported error; see the `ProviderRegistry.CreateProvider` line below.
  - `styleDescriptions[style]` returns an inherited function for such a style; the style tables are maps of their own keys.
- **Engine-generated texts.**
  - The `TypeError` text of reading a property of `undefined` is one fixed string per site, in V8's wording.
  - The `SyntaxError` text of `response.json()` on a body that is not JSON is a parameter of the reply: `OkBody.Thrown` in browser-extension/ai-providers.js and `JsonBody.Throws` in browser-extension/content.js:378.
  - `error.toString()` of a non-`Error` value is not modelled.
- **The message tables.** The tables of `i18n.js` and `webapp-i18n.js` are not reproduced: a `Catalog` is a parameter. The only exception is the four provider templates, which are reproduced exactly.
- **Server wiring.** These are not modelled:
  - the Express app setup, `helmet`, the rate limiter, and the `methods`/`allowedHeaders`/`credentials` fields of `corsOptions`;
  - the `/api/providers` and `/api/health` routes, which return `getAllProviders()` and a fixed object;
  - how Express rejects an invalid status passed to `res.status`;
  - the SSE response headers of `/api/generate`.
- **End-to-end streaming.** The web client opens a GET `EventSource` (api-service.js:123-134), but the server registers only POST `/api/generate` (server.js:109). Each side is modelled separately, and no lemma composes them.
- WebAppI18n.InitKeepsValid: stated of the corrected `Init`. As written (`WebAppI18n.InitAsWritten`, webapp-i18n.js:181), a saved inherited name such as `"toString"` is adopted on load, so the language is then no table's code; see Findings.
- WebAppI18n.WebAppLanguage.InitLanguage: follows the corrected `Init`, not `InitAsWritten`.
- WebAppI18n.WebAppLanguage.SetLanguage: follows the corrected `Set`, not `SetAsWritten`.
- WebAppI18n.WebAppLanguage.GetLanguage: 'en' or 'zh_TW' only because the class follows the corrected `Set` and `Init`; as written, `"toString"` can be returned.
- ExtensionI18n.UiLanguage.SetLanguage: follows the corrected `SelectLanguage`, not `SetLanguageAsWritten`.
- ExtensionI18n.UiLanguage.GetLanguage: 'en' or 'zh_TW' only because the class follows the corrected `SelectLanguage`; as written, `getLanguage()` returns `"toString"` after `setLanguage("toString")`.
- ContentScript.ExtractCaptionsFromPage: a `fetch(captionUrl)` or `fetch(captionTrack.baseUrl)` that rejects, as on a network failure, is not modelled (browser-extension/content.js:366 and 456). Every fetch gives a response, so the catch at content.js:485-488, which re-throws that error unchanged, is not modelled either.
- ProviderRegistry.CreateProvider: the registry is a map of its own keys, so an inherited id such as `constructor` gives the unsupported error here; as written `PROVIDERS["constructor"]` is `Object`, and `new Object(apiKey, modelName)` returns a `String` wrapper of the key instead of throwing (server/services/ai-providers/index.js:31-37).
- **Numbers.** `temperature` is a `real`. Prices and pricing notes are modelled only as the `free` flag.
- **Other files.** The side panel, popup, background worker, `app.js`, `shared/constants.js` and `server/middleware/rateLimit.js` are not part of this model.

## Findings

| source | as written | input that shows it | evidently intended | confidence | as-written member | corrected member |
|---|---|---|---|---|---|---|
| browser-extension/i18n.js:136 | `if (I18N_MESSAGES[lang])` also passes the names every object inherits from `Object.prototype` | `setLanguage("toString")` makes `getLanguage()` return `"toString"`, which is neither 'en' nor 'zh_TW' | only the two table codes are adopted, and anything else resets to 'en' | not executed | ExtensionI18n.SetLanguageAsWrittenEscapes | ExtensionI18n.SelectLanguage |
| webapp-i18n.js:160 | `if (WEBAPP_I18N[lang])` passes the inherited names too, and then saves them in `localStorage` | `setWebAppLanguage("toString")` sets the language to `"toString"` and saves it | only a table code is adopted and saved | not executed | WebAppI18n.SetAsWrittenEscapes | WebAppI18n.Set |
| webapp-i18n.js:181 | `if (saved && WEBAPP_I18N[saved])` passes the same inherited names, so a saved one is adopted on load | after `setWebAppLanguage("toString")`, a reloaded page starts in `"toString"` | only a saved table code is adopted on load | not executed | WebAppI18n.InheritedChoiceSurvivesReload | WebAppI18n.Init |
