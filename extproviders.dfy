/**
 * The browser extension's provider module (browser-extension/ai-providers.js):
 * its own five-entry catalog, a copy of the server's prompt builder, the
 * dispatch of `generateContent` to one REST call per vendor with the
 * empty-result check, and the translator of raw errors into friendly
 * messages, a first-match-wins chain of substring rules.
 */
module ExtensionProviders {
  import opened Wrappers
  import opened JsString
  import opened FriendlyErrors
  import AIProviderBase
  import Localization

  datatype ExtModel = ExtModel(id: string, name: string, badge: string)
  datatype ExtProvider = ExtProvider(id: string, name: string, free: bool, apiUrl: string, models: seq<ExtModel>, features: seq<string>)

  /** `AI_PROVIDERS`. */
  const AiProviders: map<string, ExtProvider> := map[
    "gemini" := ExtProvider("gemini", "Google Gemini", true, "https://aistudio.google.com/app/apikey",
      [ExtModel("gemini-2.5-flash", "Gemini 2.5 Flash", "⚡ 推薦"), ExtModel("gemini-2.5-pro", "Gemini 2.5 Pro", "🧠 深度思考"),
       ExtModel("gemini-2.0-flash", "Gemini 2.0 Flash", ""), ExtModel("gemini-1.5-flash", "Gemini 1.5 Flash", ""),
       ExtModel("gemini-1.5-pro", "Gemini 1.5 Pro", "")],
      ["免費使用", "多模態", "長文本"]),
    "groq" := ExtProvider("groq", "Groq", true, "https://console.groq.com/keys",
      [ExtModel("llama-3.3-70b-versatile", "Llama 3.3 70B", "🚀 推薦"), ExtModel("llama-3.1-70b-versatile", "Llama 3.1 70B", "⭐ 高品質"),
       ExtModel("llama-3.1-8b-instant", "Llama 3.1 8B", "⚡ 極速"), ExtModel("mixtral-8x7b-32768", "Mixtral 8x7B", "🔀 MoE"),
       ExtModel("gemma2-9b-it", "Gemma 2 9B", "🔷 Google")],
      ["免費使用", "超快速度", "開源模型"]),
    "openai" := ExtProvider("openai", "OpenAI", false, "https://platform.openai.com/api-keys",
      [ExtModel("gpt-4o", "GPT-4o", "🏆 推薦"), ExtModel("gpt-4o-mini", "GPT-4o Mini", "💰 經濟"),
       ExtModel("gpt-4-turbo", "GPT-4 Turbo", ""), ExtModel("o1-mini", "O1 Mini", "🧠 推理")],
      ["高品質", "多語言", "函數調用"]),
    "anthropic" := ExtProvider("anthropic", "Anthropic Claude", false, "https://console.anthropic.com",
      [ExtModel("claude-sonnet-4-20250514", "Claude Sonnet 4", "⚡ 推薦"), ExtModel("claude-3-5-sonnet-20241022", "Claude 3.5 Sonnet", "🎯 穩定"),
       ExtModel("claude-3-5-haiku-20241022", "Claude 3.5 Haiku", "💨 快速"), ExtModel("claude-3-opus-20240229", "Claude 3 Opus", "🧠 最強")],
      ["長文本", "精確理解", "程式碼"]),
    "deepseek" := ExtProvider("deepseek", "DeepSeek", false, "https://platform.deepseek.com",
      [ExtModel("deepseek-chat", "DeepSeek Chat", "💰 超低價"), ExtModel("deepseek-coder", "DeepSeek Coder", "💻 程式碼")],
      ["極致性價比", "GPT-4級別", "中英文優秀"])
  ]

  /** Every catalog key equals its entry's `id`. */
  lemma KeysMatchIds(key: string)
    requires key in AiProviders
    ensures AiProviders[key].id == key
  {
  }

  /**
   * What `AI_PROVIDERS[providerId] || null` evaluates to: an own entry of the
   * catalog; a member every object literal inherits from `Object.prototype`
   * (a truthy value, so not replaced by `null`); or `null`.
   */
  datatype ProviderLookup = Entry(info: ExtProvider) | Inherited(key: string) | Null

  /** `getProviderInfo(providerId)`: the entry, the inherited member, or `null` for any other id. */
  function GetProviderInfo(providerId: string): (r: ProviderLookup)
    ensures r.Entry? <==> providerId in AiProviders
    ensures r.Entry? ==> r.info == AiProviders[providerId] && r.info.id == providerId
    ensures r.Inherited? <==> providerId !in AiProviders && Localization.InheritedName(providerId)
    ensures r.Inherited? ==> r.key == providerId
    ensures r.Null? <==> providerId !in AiProviders && !Localization.InheritedName(providerId)
  {
    if providerId in AiProviders then Entry(AiProviders[providerId])
    else if Localization.InheritedName(providerId) then Inherited(providerId)
    else Null
  }

  /** `styleDescriptions[style] || styleDescriptions.professional`, over the extension's own copy of the table. */
  function StylePhrase(style: string): string {
    var table := map["professional" := "專業且正式", "casual" := "輕鬆且口語化", "technical" := "技術性且詳細", "news" := "新聞報導風格"];
    OrElse(if style in table then Some(table[style]) else None, table["professional"])
  }

  /**
   * The extension's `buildPrompt`. Its template literal is character for
   * character the server's, so the fixed parts are shared with
   * AIProviderBase; the style table is its own.
   */
  function BuildPrompt(transcript: string, language: Option<string>, style: Option<string>): string {
    var d := StylePhrase(if style.Some? then style.value else AIProviderBase.DefaultStyle);
    var lang := if language.Some? then language.value else AIProviderBase.DefaultLanguage;
    AIProviderBase.FillPrompt(AIProviderBase.ServerTemplate, d, lang, transcript)
  }

  /** Both copies of `buildPrompt` give the same prompt for the same arguments, unknown styles included. */
  lemma BuildPromptAgreesWithServer(transcript: string, language: Option<string>, style: Option<string>)
    ensures BuildPrompt(transcript, language, style) == AIProviderBase.BuildPrompt(transcript, language, style)
  {
    var s := if style.Some? then style.value else AIProviderBase.DefaultStyle;
    assert StylePhrase(s) == AIProviderBase.StyleDescription(s);
  }

  /** The vendors `generateContent` can call. */
  datatype Vendor = GeminiSdk | GroqApi | OpenAIApi | AnthropicApi | DeepSeekApi

  /** The `switch (providerId)`. */
  function Dispatch(providerId: string): (r: Option<Vendor>)
    ensures r.Some? <==> providerId in AiProviders
  {
    match providerId
    case "gemini" => Some(GeminiSdk)
    case "groq" => Some(GroqApi)
    case "openai" => Some(OpenAIApi)
    case "anthropic" => Some(AnthropicApi)
    case "deepseek" => Some(DeepSeekApi)
    case _ => None
  }

  datatype Credential = Bearer(token: string) | XApiKey(key: string)

  /** A vendor REST call: where it goes, how the key is sent, and the JSON body's fields. */
  datatype VendorRequest = VendorRequest(url: string, credential: Credential, model: string, prompt: string,
                                         temperature: Option<real>, maxTokens: Option<nat>)

  /** The REST request each fetch-based vendor sends; Gemini goes through its SDK instead. */
  function RequestFor(vendor: Vendor, apiKey: string, model: string, prompt: string): (r: Option<VendorRequest>)
    ensures r.None? <==> vendor == GeminiSdk
    ensures r.Some? ==> r.value.model == model && r.value.prompt == prompt
    ensures r.Some? ==> (r.value.credential == XApiKey(apiKey) <==> vendor == AnthropicApi)
    ensures r.Some? && vendor != AnthropicApi ==> r.value.credential == Bearer(apiKey) && r.value.temperature == Some(0.7)
    ensures r.Some? ==> (r.value.maxTokens == Some(4096) <==> vendor in {GroqApi, AnthropicApi})
  {
    match vendor
    case GeminiSdk => None
    case GroqApi => Some(VendorRequest("https://api.groq.com/openai/v1/chat/completions", Bearer(apiKey), model, prompt, Some(0.7), Some(4096)))
    case OpenAIApi => Some(VendorRequest("https://api.openai.com/v1/chat/completions", Bearer(apiKey), model, prompt, Some(0.7), None))
    case AnthropicApi => Some(VendorRequest("https://api.anthropic.com/v1/messages", XApiKey(apiKey), model, prompt, None, Some(4096)))
    case DeepSeekApi => Some(VendorRequest("https://api.deepseek.com/v1/chat/completions", Bearer(apiKey), model, prompt, Some(0.7), None))
  }

  /** The label of the fallback error for a failed response. */
  function ApiErrorLabel(vendor: Vendor): string {
    match vendor
    case GeminiSdk => ""
    case GroqApi => "Groq API 錯誤: "
    case OpenAIApi => "OpenAI API 錯誤: "
    case AnthropicApi => "Claude API 錯誤: "
    case DeepSeekApi => "DeepSeek API 錯誤: "
  }

  /**
   * The body of an ok reply, read along `choices[0].message.content`
   * (Anthropic: `content[0].text`): the content string; `NoContent` when the
   * last field is missing or null; `Thrown` with the error's message when
   * `response.json()` rejects (a body that is not JSON) or an earlier step
   * reads a property of `undefined` (a body without the list).
   */
  datatype OkBody = Text(value: string) | NoContent | Thrown(message: string)

  /**
   * A response of a fetch-based vendor: its status, the `error.message` of
   * its JSON body (or its status text when the body is not JSON), and what
   * reading the content of a successful reply gives.
   */
  datatype FetchReply = FetchReply(ok: bool, status: nat, errorMessage: Option<string>, body: OkBody)

  /** What the vendor function returns or throws: the content, or `error.error?.message || '<label>: <status>'`. */
  function ReplyOutcome(vendor: Vendor, reply: FetchReply): (r: Result<Option<string>, string>)
    ensures reply.ok && reply.body.Text? ==> r == Ok(Some(reply.body.value))
    ensures reply.ok && reply.body.NoContent? ==> r == Ok(None)
    ensures reply.ok && reply.body.Thrown? ==> r == Err(reply.body.message)
    ensures !reply.ok && Truthy(reply.errorMessage) ==> r == Err(reply.errorMessage.value)
    ensures !reply.ok && !Truthy(reply.errorMessage) ==> r == Err(ApiErrorLabel(vendor) + NatToString(reply.status))
  {
    if reply.ok then
      match reply.body
      case Text(t) => Ok(Some(t))
      case NoContent => Ok(None)
      case Thrown(m) => Err(m)
    else Err(OrElse(reply.errorMessage, ApiErrorLabel(vendor) + NatToString(reply.status)))
  }

  /** The fallback message ends in the decimal status, which reads back as that status. */
  lemma FallbackCarriesStatus(vendor: Vendor, reply: FetchReply)
    requires !reply.ok && !Truthy(reply.errorMessage)
    ensures var e := ReplyOutcome(vendor, reply).error;
      StartsWith(e, ApiErrorLabel(vendor)) && DigitsValue(e[|ApiErrorLabel(vendor)|..]) == reply.status
  {
    var e := ReplyOutcome(vendor, reply).error;
    assert e[|ApiErrorLabel(vendor)|..] == NatToString(reply.status);
    NatToStringRoundTrip(reply.status);
  }

  const EmptyResultError := "AI 未能生成有效的內容"
  const UnsupportedPrefix := "不支援的 AI 供應商: "

  /** `error.message || error.toString()` for an `Error`: an empty message shows as `Error`. */
  function RawMessage(message: string): (r: string)
    ensures r != ""
    ensures message != "" ==> r == message
  {
    if message != "" then message else "Error"
  }

  /**
   * `generateContent`, given what the dispatched vendor call returned or
   * threw: an unknown id and an empty or blank result are errors, every error
   * goes through the translator, and a usable result is returned unchanged.
   */
  function GenerateContent(providerId: string, outcome: Result<Option<string>, string>): (r: Result<string, string>)
    ensures Dispatch(providerId).None? ==> r == Err(FriendlyErrorMessage(UnsupportedPrefix + providerId, providerId))
    ensures Dispatch(providerId).Some? && outcome.Err? ==> r == Err(FriendlyErrorMessage(RawMessage(outcome.error), providerId))
    ensures Dispatch(providerId).Some? && outcome.Ok? && (outcome.value.None? || Blank(outcome.value.value)) ==>
      r == Err(FriendlyErrorMessage(EmptyResultError, providerId))
    ensures r.Ok? <==> Dispatch(providerId).Some? && outcome.Ok? && outcome.value.Some? && !Blank(outcome.value.value)
    ensures r.Ok? ==> r.value == outcome.value.value && Trim(r.value) != ""
  {
    if Dispatch(providerId).None? then Err(FriendlyErrorMessage(UnsupportedPrefix + providerId, providerId))
    else match outcome
      case Err(m) => Err(FriendlyErrorMessage(RawMessage(m), providerId))
      case Ok(result) =>
        if result.None? || Trim(result.value) == "" then Err(FriendlyErrorMessage(EmptyResultError, providerId))
        else Ok(result.value)
  }

  /** The prompt `generateContent` sends, with its options' defaults. */
  function ContentPrompt(transcript: string, language: Option<string>, style: Option<string>): (r: string)
    ensures r == AIProviderBase.BuildPrompt(transcript, language, style)
  {
    BuildPromptAgreesWithServer(transcript, language, style);
    BuildPrompt(transcript, language, style)
  }

  /**
   * The `name` of the value an object inherits under `key`: the methods of
   * `Object.prototype` are named after their keys, `constructor` is the
   * function `Object`, and `__proto__` gives `Object.prototype`, which has no
   * `name`.
   */
  function InheritedValueName(key: string): Option<string> {
    if key == "constructor" then Some("Object")
    else if key == "__proto__" then None
    else Some(key)
  }

  /** The name shown in messages, `AI_PROVIDERS[providerId]?.name || providerId`. */
  function ProviderName(providerId: string): (r: string)
    ensures GetProviderInfo(providerId).Entry? ==> r == GetProviderInfo(providerId).info.name
    ensures GetProviderInfo(providerId).Null? ==> r == providerId
    ensures providerId == "constructor" ==> r == "Object"
    ensures Localization.InheritedName(providerId) && providerId != "constructor" ==> r == providerId
  {
    match GetProviderInfo(providerId)
    case Entry(p) => OrElse(Some(p.name), providerId)
    case Inherited(k) => OrElse(InheritedValueName(k), providerId)
    case Null => providerId
  }

  predicate QuotaSignal(raw: string) {
    var lower := Lower(raw);
    Contains(raw, "429") || Contains(lower, "quota") || Contains(lower, "rate limit") || Contains(lower, "resource has been exhausted")
  }

  predicate AuthSignal(raw: string) {
    var lower := Lower(raw);
    Contains(raw, "401") || Contains(raw, "403")
    || (Contains(lower, "api key") && (Contains(lower, "invalid") || Contains(lower, "incorrect")))
    || Contains(lower, "unauthorized")
  }

  predicate ModelSignal(raw: string) {
    Contains(Lower(raw), "model") && Contains(Lower(raw), "not found")
  }

  predicate OverloadSignal(raw: string) {
    Contains(Lower(raw), "overloaded") || Contains(raw, "503")
  }

  predicate NetworkSignal(raw: string) {
    var lower := Lower(raw);
    Contains(lower, "fetch") || Contains(lower, "network") || Contains(lower, "security")
  }

  predicate SafetySignal(raw: string) {
    var lower := Lower(raw);
    Contains(lower, "safety") || Contains(lower, "harmful") || Contains(lower, "blocked")
  }

  predicate TechnicalSignal(raw: string) {
    |raw| > 150 || StartsWith(Trim(raw), "{") || Contains(raw, "Error:")
  }

  /** Whether a category's rule fires; the verbatim fallback always does. */
  predicate Fires(c: Category, raw: string) {
    match c
    case Quota => QuotaSignal(raw)
    case Auth => AuthSignal(raw)
    case ModelMissing => ModelSignal(raw)
    case Overloaded => OverloadSignal(raw)
    case Network => NetworkSignal(raw)
    case Safety => SafetySignal(raw)
    case Technical => TechnicalSignal(raw)
    case Verbatim => true
  }

  /** The position of each rule in this translator's chain: network before safety. */
  function Rank(c: Category): nat {
    match c
    case Quota => 0
    case Auth => 1
    case ModelMissing => 2
    case Overloaded => 3
    case Network => 4
    case Safety => 5
    case Technical => 6
    case Verbatim => 7
  }

  /** The rule chain: the category is the first rule, in chain order, that fires. */
  function Classify(raw: string): (c: Category)
    ensures Fires(c, raw)
    ensures forall d: Category :: Rank(d) < Rank(c) ==> !Fires(d, raw)
  {
    if QuotaSignal(raw) then Quota
    else if AuthSignal(raw) then Auth
    else if ModelSignal(raw) then ModelMissing
    else if OverloadSignal(raw) then Overloaded
    else if NetworkSignal(raw) then Network
    else if SafetySignal(raw) then Safety
    else if TechnicalSignal(raw) then Technical
    else Verbatim
  }

  const QuotaTail := " 配額已達上限 (429)\n\n原因可能是：\n1. 免費版 API 使用次數/速度已達限制\n2. 帳戶額度不足\n\n建議採取行動：\n• 稍等幾分鐘後再試 (通常每分鐘限制會重置)\n• 切換到其他 AI 供應商 (如 Groq 或 Gemini)"
  const AuthHead := "❌ API Key 無效或權限不足\n\n請檢查您輸入的 "
  const AuthTail := " API Key 是否正確。\n\n• 確認沒有多餘的空白\n• 確認 Key 是否已過期\n• 您可以點擊「取得 API Key」連結重新申請"
  const ModelMessage := "❌ 找不到模型或無權限\n\n您選擇的模型可能不支援您的帳號類別，或已停用。\n請嘗試切換該供應商底下的其他模型 (例如從 Pro 切換為 Flash)。"
  const OverloadTail := " 系統繁忙\n\nAI 服務器目前負載過高，暫時無法回應。\n請稍等片刻再試。"
  const NetworkHead := "❌ 網路連線錯誤\n\n無法連接到 "
  const NetworkTail := " 伺服器。\n請檢查網路狀態，或確認防火牆/VPN 設定。"
  const SafetyHead := "❌ 內容被 AI 安全機制攔截\n\n影片內容可能包含 "
  const SafetyTail := " 判定為敏感或不安全的議題，因此拒絕生成。"
  const TechnicalHead := "❌ 發生未預期的錯誤\n\n請重試或切換其他供應商。\n(系統錯誤: "
  const TechnicalTail := "...)"
  const MarkHead := "❌ "
  const VerbatimHead := "❌ 發生錯誤: "

  /** The message of each category, for a provider name and a raw message. */
  function Render(c: Category, name: string, raw: string): string {
    match c
    case Quota => MarkHead + name + QuotaTail
    case Auth => AuthHead + name + AuthTail
    case ModelMissing => ModelMessage
    case Overloaded => MarkHead + name + OverloadTail
    case Network => NetworkHead + name + NetworkTail
    case Safety => SafetyHead + name + SafetyTail
    case Technical => TechnicalHead + Excerpt(raw) + TechnicalTail
    case Verbatim => VerbatimHead + raw
  }

  /** The name sits between a fixed head and a fixed tail. */
  lemma Framed(head: string, name: string, tail: string)
    ensures Contains(head + name + tail, name)
  {
    assert ContainsAt(head + name, name, |head|);
    ContainsAtPrefix(head + name, tail, name, |head|);
  }

  /** The five categories whose message names the provider do contain the name. */
  lemma RenderNamesProvider(c: Category, name: string, raw: string)
    requires c in {Quota, Auth, Overloaded, Network, Safety}
    ensures Contains(Render(c, name, raw), name)
  {
    match c
    case Quota => Framed(MarkHead, name, QuotaTail);
    case Auth => Framed(AuthHead, name, AuthTail);
    case Overloaded => Framed(MarkHead, name, OverloadTail);
    case Network => Framed(NetworkHead, name, NetworkTail);
    case Safety => Framed(SafetyHead, name, SafetyTail);
  }

  /** `getFriendlyErrorMessage(error, providerId)` on the error's raw message: the message of its category. */
  function FriendlyErrorMessage(raw: string, providerId: string): (r: string)
    ensures Classify(raw) in {Quota, Auth, Overloaded, Network, Safety} ==> Contains(r, ProviderName(providerId))
    ensures Classify(raw) == ModelMissing ==> r == ModelMessage
    ensures Classify(raw) == Technical ==>
      r == TechnicalHead + Excerpt(raw) + TechnicalTail && !Contains(raw, "429")
    ensures Classify(raw) == Verbatim ==> r == VerbatimHead + raw && !TechnicalSignal(raw)
  {
    var name := ProviderName(providerId);
    var c := Classify(raw);
    if c in {Quota, Auth, Overloaded, Network, Safety} then RenderNamesProvider(c, name, raw); Render(c, name, raw)
    else Render(c, name, raw)
  }
}
module ExtensionProvidersOrdering {
  import opened Wrappers
  import opened JsString
  import Localization
  import opened ChatChunks
  import opened FriendlyErrors
  import opened ExtensionProviders

  /** Conversely, a rule that fires with no earlier rule firing is the category. */
  lemma ClassifiedAs(raw: string, c: Category)
    requires Fires(c, raw)
    requires forall d: Category :: Rank(d) < Rank(c) ==> !Fires(d, raw)
    ensures Classify(raw) == c
  {
  }

  const NetworkBlocked := "network blocked"

  lemma NetworkBlockedLower()
    ensures Lower(NetworkBlocked) == NetworkBlocked
  {
    LowerNoCapitals(NetworkBlocked);
  }

  lemma NetworkBlockedNoQuota()
    ensures !QuotaSignal(NetworkBlocked)
  {
    NetworkBlockedLower();
    NetworkBlockedNoQuotaMarker();
    assert !Contains(NetworkBlocked, "resource has been exhausted") by { NotContainsChar(NetworkBlocked, "resource has been exhausted", 2); }
  }

  lemma NetworkBlockedNoQuotaMarker()
    ensures !Contains(NetworkBlocked, "429") && !Contains(NetworkBlocked, "quota") && !Contains(NetworkBlocked, "rate limit")
  {
    assert !Contains(NetworkBlocked, "429") by { NotContainsChar(NetworkBlocked, "429", 0); }
    assert !Contains(NetworkBlocked, "quota") by { NotContainsChar(NetworkBlocked, "quota", 0); }
    assert !Contains(NetworkBlocked, "rate limit") by { NotContainsChar(NetworkBlocked, "rate limit", 1); }
  }


  lemma NetworkBlockedNoAuth()
    ensures !AuthSignal(NetworkBlocked)
  {
    NetworkBlockedLower();
    assert !Contains(NetworkBlocked, "401") by { NotContainsChar(NetworkBlocked, "401", 0); }
    assert !Contains(NetworkBlocked, "403") by { NotContainsChar(NetworkBlocked, "403", 0); }
    assert !Contains(NetworkBlocked, "api key") by { NotContainsChar(NetworkBlocked, "api key", 0); }
    assert !Contains(NetworkBlocked, "unauthorized") by { NotContainsChar(NetworkBlocked, "unauthorized", 0); }
  }

  lemma NetworkBlockedNoModelNoOverload()
    ensures !ModelSignal(NetworkBlocked) && !OverloadSignal(NetworkBlocked)
  {
    NetworkBlockedLower();
    assert !Contains(NetworkBlocked, "model") by { NotContainsChar(NetworkBlocked, "model", 0); }
    assert !Contains(NetworkBlocked, "overloaded") by { NotContainsChar(NetworkBlocked, "overloaded", 1); }
    assert !Contains(NetworkBlocked, "503") by { NotContainsChar(NetworkBlocked, "503", 0); }
  }

  /**
   * `network blocked` fires both the network rule and the safety rule; here
   * the network rule, earlier in the chain, decides.
   */
  lemma NetworkBlockedIsNetwork()
    ensures NetworkSignal(NetworkBlocked) && SafetySignal(NetworkBlocked)
    ensures Classify(NetworkBlocked) == Network
  {
    NetworkBlockedNoQuota();
    NetworkBlockedNoAuth();
    NetworkBlockedNoModelNoOverload();
    NetworkBlockedLower();
    assert ContainsAt(NetworkBlocked, "network", 0);
    assert ContainsAt(NetworkBlocked, "blocked", 8);
    ClassifiedAs(NetworkBlocked, Network);
  }

  const AuthAndModel := "401 model not found"

  lemma AuthAndModelNoQuota()
    ensures !QuotaSignal(AuthAndModel)
  {
    LowerNoCapitals(AuthAndModel);
    assert !Contains(AuthAndModel, "429") by { NotContainsChar(AuthAndModel, "429", 1); }
    assert !Contains(AuthAndModel, "quota") by { NotContainsChar(AuthAndModel, "quota", 0); }
    assert !Contains(AuthAndModel, "rate limit") by { NotContainsChar(AuthAndModel, "rate limit", 0); }
    assert !Contains(AuthAndModel, "resource has been exhausted") by { NotContainsChar(AuthAndModel, "resource has been exhausted", 0); }
  }

  /** A message with both a 401 and a missing model is an authentication error: that rule comes first. */
  lemma AuthBeforeModel()
    ensures ModelSignal(AuthAndModel)
    ensures Classify(AuthAndModel) == Auth
  {
    AuthAndModelNoQuota();
    LowerNoCapitals(AuthAndModel);
    assert ContainsAt(AuthAndModel, "401", 0);
    assert ContainsAt(AuthAndModel, "model", 4);
    assert ContainsAt(AuthAndModel, "not found", 10);
    ClassifiedAs(AuthAndModel, Auth);
  }

  const QuotaAndAuth := "429 401"

  /** A message with both a 429 and a 401 is a quota error: that rule comes first. */
  lemma QuotaBeforeAuth()
    ensures AuthSignal(QuotaAndAuth)
    ensures Classify(QuotaAndAuth) == Quota
  {
    assert ContainsAt(QuotaAndAuth, "429", 0);
    assert ContainsAt(QuotaAndAuth, "401", 4);
  }

  /** The empty-result error lower-cased: only its leading `AI` changes. */
  const EmptyResultLowered := "ai 未能生成有效的內容"

  lemma EmptyResultLower()
    ensures Lower(EmptyResultError) == EmptyResultLowered
  {
    assert EmptyResultError == "AI" + " 未能生成有效的內容";
    LowerAppend("AI", " 未能生成有效的內容");
    LowerNoCapitals(" 未能生成有效的內容");
  }

  lemma EmptyResultNoEarlyRule()
    ensures !QuotaSignal(EmptyResultError) && !AuthSignal(EmptyResultError)
  {
    EmptyResultLower();
    assert !Contains(EmptyResultError, "429") by { NotContainsChar(EmptyResultError, "429", 0); }
    assert !Contains(EmptyResultLowered, "quota") by { NotContainsChar(EmptyResultLowered, "quota", 0); }
    assert !Contains(EmptyResultLowered, "rate limit") by { NotContainsChar(EmptyResultLowered, "rate limit", 0); }
    assert !Contains(EmptyResultLowered, "resource has been exhausted") by { NotContainsChar(EmptyResultLowered, "resource has been exhausted", 0); }
    assert !Contains(EmptyResultError, "401") by { NotContainsChar(EmptyResultError, "401", 0); }
    assert !Contains(EmptyResultError, "403") by { NotContainsChar(EmptyResultError, "403", 0); }
    assert !Contains(EmptyResultLowered, "api key") by { NotContainsChar(EmptyResultLowered, "api key", 1); }
    assert !Contains(EmptyResultLowered, "unauthorized") by { NotContainsChar(EmptyResultLowered, "unauthorized", 0); }
  }

  lemma EmptyResultNoMiddleRule()
    ensures !ModelSignal(EmptyResultError) && !OverloadSignal(EmptyResultError) && !NetworkSignal(EmptyResultError)
  {
    EmptyResultLower();
    assert !Contains(EmptyResultLowered, "model") by { NotContainsChar(EmptyResultLowered, "model", 0); }
    assert !Contains(EmptyResultLowered, "overloaded") by { NotContainsChar(EmptyResultLowered, "overloaded", 0); }
    assert !Contains(EmptyResultError, "503") by { NotContainsChar(EmptyResultError, "503", 0); }
    assert !Contains(EmptyResultLowered, "fetch") by { NotContainsChar(EmptyResultLowered, "fetch", 0); }
    assert !Contains(EmptyResultLowered, "network") by { NotContainsChar(EmptyResultLowered, "network", 0); }
    assert !Contains(EmptyResultLowered, "security") by { NotContainsChar(EmptyResultLowered, "security", 0); }
  }

  lemma EmptyResultNoLateRule()
    ensures !SafetySignal(EmptyResultError) && !TechnicalSignal(EmptyResultError)
  {
    EmptyResultNoSafety();
    EmptyResultNotTechnical();
  }

  lemma EmptyResultNoSafety()
    ensures !SafetySignal(EmptyResultError)
  {
    EmptyResultLower();
    assert !Contains(EmptyResultLowered, "safety") by { NotContainsChar(EmptyResultLowered, "safety", 0); }
    assert !Contains(EmptyResultLowered, "harmful") by { NotContainsChar(EmptyResultLowered, "harmful", 0); }
    assert !Contains(EmptyResultLowered, "blocked") by { NotContainsChar(EmptyResultLowered, "blocked", 0); }
  }

  lemma EmptyResultNotTechnical()
    ensures !TechnicalSignal(EmptyResultError)
  {
    assert !Contains(EmptyResultError, "Error:") by { NotContainsChar(EmptyResultError, "Error:", 0); }
    assert Trim(EmptyResultError) == EmptyResultError by { TrimNoop(EmptyResultError); }
    assert EmptyResultError[0] == 'A';
  }

  /** The empty-result error matches no rule, so the user sees it after the generic prefix. */
  lemma EmptyResultShownVerbatim(providerId: string)
    ensures FriendlyErrorMessage(EmptyResultError, providerId) == VerbatimHead + EmptyResultError
  {
    EmptyResultNoEarlyRule();
    EmptyResultNoMiddleRule();
    EmptyResultNoLateRule();
    ClassifiedAs(EmptyResultError, Verbatim);
  }

  /**
   * An id every object inherits a member for gets a non-null
   * `getProviderInfo`, yet `generateContent` rejects it as unsupported.
   */
  lemma InheritedIdUnsupported(providerId: string, outcome: Result<Option<string>, string>)
    requires Localization.InheritedName(providerId)
    ensures GetProviderInfo(providerId) == Inherited(providerId)
    ensures GenerateContent(providerId, outcome) == Err(FriendlyErrorMessage(UnsupportedPrefix + providerId, providerId))
  {
    assert Dispatch(providerId).None?;
  }

  /** For the id `constructor` the messages name the provider `Object`, the name of the inherited constructor. */
  lemma ConstructorNamedObject()
    ensures Contains(FriendlyErrorMessage(NetworkBlocked, "constructor"), "Object")
  {
    NetworkBlockedIsNetwork();
  }

  /** The characters that stand for the rules' patterns below: one of each pattern, in both cases when a letter. */
  predicate IsMarker(ch: char) {
    ch == '4' || ch == '5' || ch == ':' || ch == 'q' || ch == 'Q' || ch == 'l' || ch == 'L' || ch == 'h' || ch == 'H'
    || ch == 'k' || ch == 'K' || ch == 'm' || ch == 'M' || ch == 'v' || ch == 'V' || ch == 'w' || ch == 'W'
    || ch == 'y' || ch == 'Y' || ch == 'b' || ch == 'B'
  }

  predicate MarkerFree(s: string) {
    forall i | 0 <= i < |s| :: !IsMarker(s[i])
  }

  lemma MarkerFreeAppend(a: string, b: string)
    requires MarkerFree(a) && MarkerFree(b)
    ensures MarkerFree(a + b)
  {
    forall i | 0 <= i < |a + b| ensures !IsMarker((a + b)[i]) {
      if i < |a| { assert (a + b)[i] == a[i]; } else { assert (a + b)[i] == b[i - |a|]; }
    }
  }

  /** A marker-free string lacks every pattern that has a marker among its characters. */
  lemma NotContainsMarker(s: string, n: string, j: nat)
    requires j < |n| && IsMarker(n[j]) && MarkerFree(s)
    ensures !Contains(s, n)
  {
    assert n[j] !in s;
    NotContainsChar(s, n, j);
  }

  /** Its lower case lacks every pattern with a marker letter, since both cases of the letter are markers. */
  lemma NotContainsLowerMarker(s: string, n: string, j: nat)
    requires j < |n| && 'a' <= n[j] <= 'z' && IsMarker(n[j]) && IsMarker((n[j] as int - 32) as char) && MarkerFree(s)
    ensures !Contains(Lower(s), n)
  {
    forall i | 0 <= i < |s| ensures Lower(s)[i] != n[j] {
    }
    NotContainsChar(Lower(s), n, j);
  }

  lemma MarkerFreeNoQuotaNoAuth(s: string)
    requires MarkerFree(s)
    ensures !QuotaSignal(s) && !AuthSignal(s)
  {
    NotContainsMarker(s, "429", 0);
    NotContainsLowerMarker(s, "quota", 0);
    NotContainsLowerMarker(s, "rate limit", 5);
    NotContainsLowerMarker(s, "resource has been exhausted", 9);
    NotContainsMarker(s, "401", 0);
    NotContainsMarker(s, "403", 0);
    NotContainsLowerMarker(s, "api key", 4);
    NotContainsLowerMarker(s, "unauthorized", 5);
  }

  lemma MarkerFreeNoModelNoOverload(s: string)
    requires MarkerFree(s)
    ensures !ModelSignal(s) && !OverloadSignal(s)
  {
    NotContainsLowerMarker(s, "model", 0);
    NotContainsLowerMarker(s, "overloaded", 1);
    NotContainsMarker(s, "503", 0);
  }

  lemma MarkerFreeNoNetworkNoSafety(s: string)
    requires MarkerFree(s)
    ensures !NetworkSignal(s) && !SafetySignal(s)
  {
    NotContainsLowerMarker(s, "fetch", 4);
    NotContainsLowerMarker(s, "network", 3);
    NotContainsLowerMarker(s, "security", 7);
    NotContainsLowerMarker(s, "safety", 5);
    NotContainsLowerMarker(s, "harmful", 0);
    NotContainsLowerMarker(s, "blocked", 0);
  }

  /**
   * A marker-free message of at most 150 characters that begins with
   * neither blank nor `{` and ends in no blank matches no rule: the
   * translator shows it verbatim.
   */
  lemma MarkerFreeVerbatim(s: string)
    requires MarkerFree(s) && s != [] && !IsWhitespace(s[0]) && s[0] != '{' && !IsWhitespace(s[|s| - 1]) && |s| <= 150
    ensures Classify(s) == Verbatim
  {
    MarkerFreeNoQuotaNoAuth(s);
    MarkerFreeNoModelNoOverload(s);
    MarkerFreeNoNetworkNoSafety(s);
    NotContainsMarker(s, "Error:", 5);
    TrimNoop(s);
    ClassifiedAs(s, Verbatim);
  }

  lemma ReadPieceOneFree()
    ensures MarkerFree("Cannot read ")
  {
  }

  lemma ReadPieceTwoFree()
    ensures MarkerFree("properties ")
  {
  }

  lemma ReadPieceThreeFree()
    ensures MarkerFree("of undefined ")
  {
  }

  lemma ReadPieceFourFree()
    ensures MarkerFree("(reading '0')")
  {
  }

  /** The TypeError matches no rule of the chain. */
  lemma UndefinedIndexVerbatim()
    ensures Classify(UndefinedIndexError) == Verbatim
  {
    var p1, p2, p3, p4 := "Cannot read ", "properties ", "of undefined ", "(reading '0')";
    ReadPieceOneFree();
    ReadPieceTwoFree();
    ReadPieceThreeFree();
    ReadPieceFourFree();
    MarkerFreeAppend(p1, p2);
    MarkerFreeAppend(p1 + p2, p3);
    MarkerFreeAppend(p1 + p2 + p3, p4);
    var s := p1 + p2 + p3 + p4;
    assert s[0] == p1[0] == 'C';
    assert s[|s| - 1] == p4[|p4| - 1] == ')';
    MarkerFreeVerbatim(s);
    assert UndefinedIndexError == s;
  }

  /** So the user sees the TypeError after the generic prefix. */
  lemma UndefinedIndexShownVerbatim(providerId: string)
    ensures FriendlyErrorMessage(UndefinedIndexError, providerId) == VerbatimHead + UndefinedIndexError
  {
    UndefinedIndexVerbatim();
  }

  /**
   * An ok reply whose body has no `choices` (Anthropic: `content`) list reaches
   * the user as the TypeError after the generic prefix, not as the
   * empty-result error.
   */
  lemma ListlessReplyReported(providerId: string, vendor: Vendor, status: nat, errorMessage: Option<string>)
    requires Dispatch(providerId).Some?
    ensures GenerateContent(providerId, ReplyOutcome(vendor, FetchReply(true, status, errorMessage, Thrown(UndefinedIndexError))))
      == Err(VerbatimHead + UndefinedIndexError)
  {
    assert RawMessage(UndefinedIndexError) == UndefinedIndexError;
    UndefinedIndexShownVerbatim(providerId);
  }
}
