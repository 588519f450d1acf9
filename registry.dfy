/**
 * The provider registry (server/services/ai-providers/index.js): the table
 * of the nine adapters in their declared order, a constructor lookup by
 * lower-cased id, an existence check, and the listing of every catalog.
 */
module ProviderRegistry {
  import opened Wrappers
  import opened JsString
  import opened AIProviderBase
  import Gemini
  import OpenAI
  import Anthropic
  import Groq
  import DeepSeek
  import Zhipu
  import Moonshot
  import Mistral
  import Cohere

  /** Which adapter class a table entry names. */
  datatype ProviderKind = GeminiKind | OpenAIKind | AnthropicKind | GroqKind | DeepSeekKind | ZhipuKind | MoonshotKind | MistralKind | CohereKind

  /** A constructed adapter: its class and the fields its constructor stored. */
  datatype Provider = Provider(kind: ProviderKind, config: ProviderConfig)

  /** One entry of `getAllProviders`: the table key followed by the catalog's fields. */
  datatype ProviderEntry = ProviderEntry(id: string, info: ProviderInfo)

  /** The table keys in declaration order, which is the order `Object.entries` visits them in. */
  const ProviderIds: seq<string> := ["gemini", "openai", "anthropic", "groq", "deepseek", "zhipu", "moonshot", "mistral", "cohere"]

  const Providers: map<string, ProviderKind> := map[
    "gemini" := GeminiKind, "openai" := OpenAIKind, "anthropic" := AnthropicKind,
    "groq" := GroqKind, "deepseek" := DeepSeekKind, "zhipu" := ZhipuKind,
    "moonshot" := MoonshotKind, "mistral" := MistralKind, "cohere" := CohereKind
  ]

  const UnsupportedPrefix := "不支援的 AI 供應商: "
  /** The placeholder key the listing constructs every adapter with. */
  const DummyKey := "dummy_key"

  /** Each adapter class's constructor default. */
  function DefaultModelOf(kind: ProviderKind): string {
    match kind
    case GeminiKind => Gemini.DefaultModel
    case OpenAIKind => OpenAI.DefaultModel
    case AnthropicKind => Anthropic.DefaultModel
    case GroqKind => Groq.DefaultModel
    case DeepSeekKind => DeepSeek.DefaultModel
    case ZhipuKind => Zhipu.DefaultModel
    case MoonshotKind => Moonshot.DefaultModel
    case MistralKind => Mistral.DefaultModel
    case CohereKind => Cohere.DefaultModel
  }

  /** Each adapter class's `getProviderInfo`, which reads none of the instance's fields. */
  function CatalogOf(kind: ProviderKind): ProviderInfo {
    match kind
    case GeminiKind => Gemini.Catalog
    case OpenAIKind => OpenAI.Catalog
    case AnthropicKind => Anthropic.Catalog
    case GroqKind => Groq.Catalog
    case DeepSeekKind => DeepSeek.Catalog
    case ZhipuKind => Zhipu.Catalog
    case MoonshotKind => Moonshot.Catalog
    case MistralKind => Mistral.Catalog
    case CohereKind => Cohere.Catalog
  }

  /**
   * `createProvider(provider, apiKey, modelName)`: the class is looked up by
   * the lower-cased id; an unknown id is reported with the id as given; the
   * constructor then checks the key and applies its default model only when
   * none is passed.
   */
  function CreateProvider(provider: string, apiKey: Option<string>, modelName: Option<string>): (r: Result<Provider, string>)
    ensures Lower(provider) !in Providers ==> r == Err(UnsupportedPrefix + provider)
    ensures Lower(provider) in Providers ==> (r.Err? <==> !Truthy(apiKey))
    ensures Lower(provider) in Providers && r.Err? ==> r.error == ApiKeyRequired
    ensures r.Ok? ==>
      && Lower(provider) in Providers
      && r.value.kind == Providers[Lower(provider)]
      && r.value.config.apiKey == apiKey.value
      && r.value.config.modelName == (if modelName.Some? then modelName.value else DefaultModelOf(r.value.kind))
  {
    var key := Lower(provider);
    if key !in Providers then Err(UnsupportedPrefix + provider)
    else
      var kind := Providers[key];
      match Construct(apiKey, modelName, DefaultModelOf(kind))
      case Err(e) => Err(e)
      case Ok(config) => Ok(Provider(kind, config))
  }

  /** `isValidProvider`: the lower-cased id is a table key. */
  predicate IsValidProvider(provider: string) {
    Lower(provider) in Providers
  }

  /** `getAllProviders`, entry by entry from `k` on. */
  function EntriesFrom(k: nat): (r: seq<ProviderEntry>)
    requires k <= |ProviderIds|
    ensures |r| == |ProviderIds| - k
    ensures forall j | 0 <= j < |r| :: r[j].id == ProviderIds[k + j] && r[j].info == CatalogOf(Providers[ProviderIds[k + j]])
    decreases |ProviderIds| - k
  {
    if k == |ProviderIds| then []
    else [ProviderEntry(ProviderIds[k], CatalogOf(Providers[ProviderIds[k]]))] + EntriesFrom(k + 1)
  }

  /** `getAllProviders`: one entry per table key, in table order, each carrying its key as `id` and its class's catalog. */
  function GetAllProviders(): (r: seq<ProviderEntry>)
    ensures |r| == 9
    ensures forall j | 0 <= j < |r| :: r[j].id == ProviderIds[j] && r[j].info == CatalogOf(Providers[ProviderIds[j]])
  {
    EntriesFrom(0)
  }

  /** The ordered keys are exactly the table's keys, each once. */
  lemma ProviderIdsAreTheTable()
    ensures |ProviderIds| == |Providers|
    ensures forall j | 0 <= j < |ProviderIds| :: ProviderIds[j] in Providers
    ensures forall key | key in Providers :: key in ProviderIds
    ensures forall i, j | 0 <= i < j < |ProviderIds| :: ProviderIds[i] != ProviderIds[j]
  {
    IdsInTable();
    TableInIds();
    TableSize();
    IdsDistinct();
  }

  lemma IdsInTable()
    ensures forall j | 0 <= j < |ProviderIds| :: ProviderIds[j] in Providers
  {
  }

  lemma TableInIds()
    ensures forall key | key in Providers :: key in ProviderIds
  {
  }

  lemma TableSize()
    ensures |Providers| == |ProviderIds|
  {
    IdsInTable();
    TableInIds();
    IdsDistinct();
    assert Providers.Keys == set j | 0 <= j < |ProviderIds| :: ProviderIds[j];
    DistinctCard(ProviderIds);
  }

  /** A sequence without repeats has as many elements as its set. */
  lemma {:induction false} DistinctCard(xs: seq<string>)
    requires forall i, j | 0 <= i < j < |xs| :: xs[i] != xs[j]
    ensures |set j | 0 <= j < |xs| :: xs[j]| == |xs|
  {
    if xs != [] {
      var init := xs[..|xs| - 1];
      DistinctCard(init);
      var s0 := set j | 0 <= j < |init| :: init[j];
      assert (set j | 0 <= j < |xs| :: xs[j]) == s0 + {xs[|xs| - 1]};
      assert xs[|xs| - 1] !in s0;
    }
  }

  /** Ids of the same length differ in their first letter. */
  lemma IdsDistinct()
    ensures forall i, j | 0 <= i < j < |ProviderIds| :: ProviderIds[i] != ProviderIds[j]
  {
    assert forall i, j | 0 <= i < j < |ProviderIds| :: |ProviderIds[i]| != |ProviderIds[j]| || ProviderIds[i][0] != ProviderIds[j][0];
  }

  /** Every table key is already lower case. */
  lemma KeysAreLowerCase(key: string)
    requires key in Providers
    ensures Lower(key) == key
  {
    assert forall c | c in key :: !('A' <= c <= 'Z');
    LowerNoCapitals(key);
  }

  /** Over every id, `isValidProvider` holds exactly when `createProvider` does not report the id as unsupported. */
  lemma ValidIffNotUnsupported(provider: string, apiKey: Option<string>, modelName: Option<string>)
    ensures IsValidProvider(provider) <==> CreateProvider(provider, apiKey, modelName) != Err(UnsupportedPrefix + provider)
  {
    if IsValidProvider(provider) {
      assert ApiKeyRequired[0] != (UnsupportedPrefix + provider)[0];
    }
  }

  /** Lookup is case-insensitive: two ids with the same lower case construct the same adapter. */
  lemma CaseInsensitiveLookup(p1: string, p2: string, apiKey: Option<string>, modelName: Option<string>)
    requires Lower(p1) == Lower(p2) && IsValidProvider(p1)
    ensures CreateProvider(p1, apiKey, modelName) == CreateProvider(p2, apiKey, modelName)
  {
  }

  /** The listing's constructions all succeed: the placeholder key passes the key check of every adapter and the default model applies. */
  lemma ListingConstructsEveryProvider(j: nat)
    requires j < |ProviderIds|
    ensures CreateProvider(ProviderIds[j], Some(DummyKey), None).Ok?
    ensures CreateProvider(ProviderIds[j], Some(DummyKey), None).value.config.modelName == DefaultModelOf(Providers[ProviderIds[j]])
  {
    ProviderIdsAreTheTable();
    KeysAreLowerCase(ProviderIds[j]);
  }

  /** Every adapter's default model is listed in its own catalog. */
  lemma DefaultModelsCatalogued(kind: ProviderKind)
    ensures HasModel(CatalogOf(kind), DefaultModelOf(kind))
  {
    match kind
    case GeminiKind => Gemini.DefaultModelInCatalog();
    case OpenAIKind => OpenAI.DefaultModelInCatalog();
    case AnthropicKind => Anthropic.DefaultModelInCatalog();
    case GroqKind => Groq.DefaultModelInCatalog();
    case DeepSeekKind => DeepSeek.DefaultModelInCatalog();
    case ZhipuKind => Zhipu.DefaultModelInCatalog();
    case MoonshotKind => Moonshot.DefaultModelInCatalog();
    case MistralKind => Mistral.DefaultModelInCatalog();
    case CohereKind => Cohere.DefaultModelInCatalog();
  }
}
