/**
 * The common base of the server's AI provider adapters
 * (server/services/ai-providers/base.js): the API-key check every adapter's
 * constructor performs, the catalog record shape, the abstract-method stubs
 * and the prompt builder that every adapter sends to its vendor.
 */
module AIProviderBase {
  import opened Wrappers
  import opened JsString

  /** One entry of a catalog's `models` list; fields a catalog leaves out are `None`. */
  datatype ModelInfo = ModelInfo(
    id: string, name: string,
    quality: Option<string> := None, speed: Option<string> := None, cost: Option<string> := None,
    badge: Option<string> := None, description: Option<string> := None)

  /** The `pricing` object; the free-text `note` is not modelled. */
  datatype Pricing = Pricing(free: Option<bool>)

  /** What `getProviderInfo` returns. */
  datatype ProviderInfo = ProviderInfo(
    name: string, models: seq<ModelInfo>, pricing: Pricing,
    apiUrl: Option<string> := None, features: Option<seq<string>> := None)

  /** The fields every constructed adapter holds. */
  datatype ProviderConfig = ProviderConfig(apiKey: string, modelName: string)

  /** One entry of a chat request's `messages` list. */
  datatype ChatMessage = ChatMessage(role: string, content: string)

  /** Options every `generateBlogPost` destructures; `streaming` says whether an `onStream` callback was supplied. */
  datatype GenerateOptions = GenerateOptions(language: Option<string>, style: Option<string>, streaming: bool)

  const ApiKeyRequired := "API Key 是必要的"
  const GenerateNotImplemented := "必須實作 generateBlogPost 方法"
  const ValidateNotImplemented := "必須實作 validateApiKey 方法"

  /** The base constructor: a falsy key throws, any other key is stored unchanged. */
  function CheckApiKey(apiKey: Option<string>): (r: Result<string, string>)
    ensures r.Ok? <==> Truthy(apiKey)
    ensures r.Ok? ==> r.value == apiKey.value
    ensures r.Err? ==> r.error == ApiKeyRequired
  {
    if !Truthy(apiKey) then Err(ApiKeyRequired) else Ok(apiKey.value)
  }

  /**
   * An adapter's constructor `(apiKey, modelName = defaultModel)`: the key
   * check of the base class, then the model name, where the default applies
   * only when no model name is passed at all (an empty name is kept).
   */
  function Construct(apiKey: Option<string>, modelName: Option<string>, defaultModel: string): (r: Result<ProviderConfig, string>)
    ensures r.Err? <==> !Truthy(apiKey)
    ensures r.Err? ==> r.error == ApiKeyRequired
    ensures r.Ok? ==> r.value.apiKey == apiKey.value
    ensures r.Ok? ==> r.value.modelName == (if modelName.Some? then modelName.value else defaultModel)
  {
    match CheckApiKey(apiKey)
    case Err(e) => Err(e)
    case Ok(key) => Ok(ProviderConfig(key, if modelName.Some? then modelName.value else defaultModel))
  }

  /** The base `generateBlogPost` always rejects. */
  function BaseGenerateBlogPost(transcript: string, options: GenerateOptions): (r: Result<string, string>)
    ensures r.Err? && r.error == GenerateNotImplemented
  {
    Err(GenerateNotImplemented)
  }

  /** The base `validateApiKey` always rejects. */
  function BaseValidateApiKey(config: ProviderConfig): (r: Result<bool, string>)
    ensures r.Err? && r.error == ValidateNotImplemented
  {
    Err(ValidateNotImplemented)
  }

  /** The base `getProviderInfo`: the class name, no models, an empty pricing object. */
  function BaseProviderInfo(className: string): (r: ProviderInfo)
    ensures r.name == className && r.models == [] && r.pricing.free.None?
    ensures r.apiUrl.None? && r.features.None?
  {
    ProviderInfo(className, [], Pricing(None))
  }

  /** The catalog lists a model with this id. */
  predicate HasModel(info: ProviderInfo, id: string) {
    exists i | 0 <= i < |info.models| :: info.models[i].id == id
  }

  const DefaultLanguage := "繁體中文"
  const DefaultStyle := "professional"

  /** The four article styles and their phrases. */
  const StyleDescriptions: map<string, string> := map[
    "professional" := "專業且正式",
    "casual" := "輕鬆且口語化",
    "technical" := "技術性且詳細",
    "news" := "新聞報導風格"
  ]

  /** The phrase for a style; any other style silently falls back to the professional phrase. */
  function StyleDescription(style: string): (r: string)
    ensures r in StyleDescriptions.Values && r != ""
    ensures style in StyleDescriptions ==> r == StyleDescriptions[style]
    ensures style !in StyleDescriptions ==> r == StyleDescriptions[DefaultStyle]
  {
    assert StyleDescriptions[DefaultStyle] in StyleDescriptions.Values;
    if style in StyleDescriptions then
      assert StyleDescriptions[style] in StyleDescriptions.Values;
      StyleDescriptions[style]
    else StyleDescriptions[DefaultStyle]
  }

  /** The four styles have four distinct phrases. */
  lemma StylePhrasesDistinct(s1: string, s2: string)
    requires s1 in StyleDescriptions && s2 in StyleDescriptions && s1 != s2
    ensures StyleDescriptions[s1] != StyleDescriptions[s2]
  {
  }

  /** The fixed Chinese text before the style phrase. */
  const PromptIntro := "你是一位專業的部落格作家和 SEO 專家。請將以下 YouTube 視頻文字稿轉換為一篇格式完美、SEO 優化的部落格文章。\n\n文章風格："
  /** The fixed text between the style phrase and the language. */
  const LanguageLabel := "\n輸出語言："
  /** The fixed list of requirements between the language and the transcript. */
  const PromptRequirements := "\n\n要求：\n1. 創建一個吸引人的標題（使用 # 標題格式）\n2. 撰寫引人入勝的開頭段落\n3. 將內容組織成清晰的章節（使用 ## 和 ### 標題）\n4. 使用項目符號和編號列表來提高可讀性\n5. 在適當的地方添加重點強調（使用 **粗體**）\n6. 撰寫一個總結段落\n7. 確保語言流暢、專業且易於理解\n8. 優化 SEO 關鍵字的使用\n\n原始文字稿：\n"
  /** The fixed closing line after the transcript. */
  const PromptClosing := "\n\n請生成完整的 Markdown 格式部落格文章："

  /**
   * The fixed texts of a prompt: the part before the style phrase, the label
   * between the style phrase and the language, the requirements between the
   * language and the transcript, and the line after the transcript.
   */
  datatype PromptTemplate = PromptTemplate(intro: string, languageLabel: string, requirements: string, closing: string)

  /** The template literal of `buildPrompt`. */
  const ServerTemplate := PromptTemplate(PromptIntro, LanguageLabel, PromptRequirements, PromptClosing)

  /** The index at which the language starts, after the intro, the style phrase and the label. */
  function LanguageOffset(t: PromptTemplate, styleDesc: string): nat {
    |t.intro| + |styleDesc| + |t.languageLabel|
  }

  /** Everything before the language slot: the intro, the style phrase and the language label. */
  function PromptHead(t: PromptTemplate, styleDesc: string): string {
    t.intro + styleDesc + t.languageLabel
  }

  /** Everything after the language slot: the requirements, the transcript and the closing line. */
  function PromptTail(t: PromptTemplate, transcript: string): string {
    t.requirements + transcript + t.closing
  }

  /**
   * The template with its three slots filled: the prompt is the fixed head
   * carrying the style phrase, then the language verbatim, then the fixed
   * tail carrying the transcript verbatim.
   */
  function FillPrompt(t: PromptTemplate, styleDesc: string, language: string, transcript: string): (r: string)
    ensures var lo := LanguageOffset(t, styleDesc);
            var to := lo + |language| + |t.requirements|;
            && |r| == to + |transcript| + |t.closing|
            && r[..lo] == PromptHead(t, styleDesc)
            && r[lo..lo + |language|] == language
            && r[lo + |language|..] == PromptTail(t, transcript)
            && r[..|t.intro|] == t.intro
            && r[|t.intro|..|t.intro| + |styleDesc|] == styleDesc
            && r[to..to + |transcript|] == transcript
  {
    var r := t.intro + styleDesc + t.languageLabel + language + t.requirements + transcript + t.closing;
    SevenSlices(t.intro, styleDesc, t.languageLabel, language, t.requirements, transcript, t.closing, r);
    r
  }

  /**
   * `buildPrompt(transcript, language = '繁體中文', style = 'professional')`;
   * the defaults apply only to missing arguments.
   */
  function BuildPrompt(transcript: string, language: Option<string>, style: Option<string>): string {
    FillPrompt(ServerTemplate, StyleDescription(if style.Some? then style.value else DefaultStyle),
               if language.Some? then language.value else DefaultLanguage, transcript)
  }

  /**
   * A seven-part concatenation read as a head of three parts, a middle part
   * and a tail of three parts; the first, second, fourth and sixth parts can
   * be sliced back out at their offsets.
   */
  lemma SevenSlices(p1: string, p2: string, p3: string, p4: string, p5: string, p6: string, p7: string, r: string)
    requires r == p1 + p2 + p3 + p4 + p5 + p6 + p7
    ensures var lo := |p1| + |p2| + |p3|;
            var to := lo + |p4| + |p5|;
            && |r| == to + |p6| + |p7|
            && r[..lo] == p1 + p2 + p3
            && r[lo..lo + |p4|] == p4
            && r[lo + |p4|..] == p5 + p6 + p7
            && r[..|p1|] == p1
            && r[|p1|..|p1| + |p2|] == p2
            && r[to..to + |p6|] == p6
  {
    var head, tail := p1 + p2 + p3, p5 + p6 + p7;
    assert r == head + p4 + tail;
    assert r[..|head|] == head;
    assert head[..|p1|] == p1 && head[|p1|..|p1| + |p2|] == p2;
    assert tail[|p5|..|p5| + |p6|] == p6;
  }

  /** Omitted arguments behave as the defaults `'繁體中文'` and `'professional'`. */
  lemma BuildPromptDefaults(transcript: string)
    ensures BuildPrompt(transcript, None, None) == BuildPrompt(transcript, Some(DefaultLanguage), Some(DefaultStyle))
  {
  }

  /** An unrecognised style yields exactly the professional prompt. */
  lemma {:induction false} BuildPromptUnknownStyle(transcript: string, language: Option<string>, style: string)
    requires style !in StyleDescriptions
    ensures BuildPrompt(transcript, language, Some(style)) == BuildPrompt(transcript, language, Some(DefaultStyle))
  {
    assert StyleDescription(style) == StyleDescription(DefaultStyle);
  }

  /**
   * The wrapper text does not depend on the output language: two prompts
   * that differ only in the language agree on everything before the language
   * slot and on everything after it.
   */
  lemma WrapperIndependentOfLanguage(t: PromptTemplate, styleDesc: string, l1: string, l2: string, transcript: string)
    ensures var lo := LanguageOffset(t, styleDesc);
            var r1 := FillPrompt(t, styleDesc, l1, transcript);
            var r2 := FillPrompt(t, styleDesc, l2, transcript);
            && r1[..lo] == r2[..lo]
            && r1[lo + |l1|..] == r2[lo + |l2|..]
  {
  }
}
