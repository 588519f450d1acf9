/**
 * The extension's interface language (browser-extension/i18n.js): the
 * current language code, message lookup with `$1`, `$2`, ... placeholders,
 * and the list of languages offered.
 */
module ExtensionI18n {
  import opened JsString
  import opened Localization

  /** The placeholder of the substitution at `index` (0-based): `$1`, `$2`, ... */
  function Placeholder(index: nat): (r: string)
    ensures r != [] && r[0] == '$'
  {
    "$" + NatToString(index + 1)
  }

  /** The substitutions paired with their placeholders, in the order `forEach` visits them. */
  function Numbered(subs: seq<string>): (r: seq<(string, string)>)
    ensures |r| == |subs|
    ensures forall i | 0 <= i < |r| :: r[i] == (Placeholder(i), subs[i])
  {
    seq(|subs|, i requires 0 <= i < |subs| => (Placeholder(i), subs[i]))
  }

  /** `getMessage(key, substitutions)` for a given current language. */
  function Message(c: Catalog, code: string, key: string, subs: seq<string>): string {
    ReplaceEach(Lookup(c, code, key), Numbered(subs))
  }

  /** With no substitutions the looked-up entry comes back as it is. */
  lemma NoSubstitutions(c: Catalog, code: string, key: string)
    ensures Message(c, code, key, []) == Lookup(c, code, key)
  {
  }

  // ---- The provider templates ----

  const ProviderSlot := "$1"
  const Cross := "❌ "

  const ApiQuotaEnTail := " Quota Exceeded (429)\n\nPossible reasons:\n1. Free API usage limit reached\n2. Insufficient account credits\n\nSuggestions:\n• Wait a few minutes and try again\n• Switch to another AI provider (e.g., Groq or Gemini)"
  const ApiOverloadedEnTail := " System Busy\n\nThe AI server is currently overloaded.\nPlease wait a moment and try again."
  const ApiQuotaZhTail := " 配額已達上限 (429)\n\n原因可能是：\n1. 免費版 API 使用次數/速度已達限制\n2. 帳戶額度不足\n\n建議採取行動：\n• 稍等幾分鐘後再試\n• 切換到其他 AI 供應商 (如 Groq 或 Gemini)"
  const ApiOverloadedZhTail := " 系統繁忙\n\nAI 服務器目前負載過高，暫時無法回應。\n請稍等片刻再試。"

  /** `errApiQuota` and `errApiOverloaded` in either table, as `(English, Traditional Chinese)`. */
  const ApiQuota := (Cross + ProviderSlot + ApiQuotaEnTail, Cross + ProviderSlot + ApiQuotaZhTail)
  const ApiOverloaded := (Cross + ProviderSlot + ApiOverloadedEnTail, Cross + ProviderSlot + ApiOverloadedZhTail)

  /** The entries of the two tables that name the provider. */
  predicate HasProviderTemplates(c: Catalog) {
    "errApiQuota" in c.en && c.en["errApiQuota"] == ApiQuota.0
    && "errApiQuota" in c.zhTW && c.zhTW["errApiQuota"] == ApiQuota.1
    && "errApiOverloaded" in c.en && c.en["errApiOverloaded"] == ApiOverloaded.0
    && "errApiOverloaded" in c.zhTW && c.zhTW["errApiOverloaded"] == ApiOverloaded.1
  }

  /** Every provider template holds the `$1` placeholder. */
  lemma TemplatesHoldProviderSlot()
    ensures Contains(ApiQuota.0, ProviderSlot) && Contains(ApiQuota.1, ProviderSlot)
    ensures Contains(ApiOverloaded.0, ProviderSlot) && Contains(ApiOverloaded.1, ProviderSlot)
  {
    ContainsBetween(Cross, ProviderSlot, ApiQuotaEnTail);
    ContainsBetween(Cross, ProviderSlot, ApiQuotaZhTail);
    ContainsBetween(Cross, ProviderSlot, ApiOverloadedEnTail);
    ContainsBetween(Cross, ProviderSlot, ApiOverloadedZhTail);
  }

  lemma FillProvider(tail: string, provider: string)
    ensures ReplaceEach(Cross + ProviderSlot + tail, Numbered([provider])) == Cross + provider + tail
  {
    assert NatToString(1) == "1";
    assert Placeholder(0) == ProviderSlot;
    assert Numbered([provider])[0] == (ProviderSlot, provider);
    assert Numbered([provider])[1..] == [];
    assert ProviderSlot[0] !in Cross;
    ReplaceFirstBetween(Cross, ProviderSlot, tail, provider);
  }

  /** The quota message, looked up in either language, names the provider in place of `$1`. */
  lemma QuotaMessageNamesProvider(c: Catalog, l: Lang, provider: string)
    requires HasProviderTemplates(c)
    ensures Message(c, Code(l), "errApiQuota", [provider])
         == Cross + provider + (if l == En then ApiQuotaEnTail else ApiQuotaZhTail)
  {
    ParseCode(l);
    if l == En {
      FillProvider(ApiQuotaEnTail, provider);
    } else {
      FillProvider(ApiQuotaZhTail, provider);
    }
  }

  /** So does the overloaded message. */
  lemma OverloadedMessageNamesProvider(c: Catalog, l: Lang, provider: string)
    requires HasProviderTemplates(c)
    ensures Message(c, Code(l), "errApiOverloaded", [provider])
         == Cross + provider + (if l == En then ApiOverloadedEnTail else ApiOverloadedZhTail)
  {
    ParseCode(l);
    if l == En {
      FillProvider(ApiOverloadedEnTail, provider);
    } else {
      FillProvider(ApiOverloadedZhTail, provider);
    }
  }

  // ---- Languages ----

  datatype LanguageOption = LanguageOption(code: string, name: string)

  /** `getSupportedLanguages()`: one entry per table, and nothing else. */
  function SupportedLanguages(): (r: seq<LanguageOption>)
    ensures forall i | 0 <= i < |r| :: Parse(r[i].code).Some?
    ensures forall l: Lang :: exists i | 0 <= i < |r| :: r[i].code == Code(l)
    ensures forall i, j | 0 <= i < j < |r| :: r[i].code != r[j].code
  {
    var r := [LanguageOption("en", "English"), LanguageOption("zh_TW", "繁體中文")];
    assert forall l: Lang :: r[if l == En then 0 else 1].code == Code(l);
    r
  }

  /** `setLanguage(lang)` as written: the membership test also passes inherited names. */
  function SetLanguageAsWritten(lang: string): (r: string)
    ensures KnownAsWritten(lang) ==> r == lang
    ensures !KnownAsWritten(lang) ==> r == "en"
  {
    if KnownAsWritten(lang) then lang else "en"
  }

  /** As written, `setLanguage("toString")` leaves the current language outside the two codes. */
  lemma SetLanguageAsWrittenEscapes()
    ensures Parse(SetLanguageAsWritten("toString")).None?
  {
    InheritedNamePassesTest();
  }

  /** `setLanguage(lang)` as intended: only a table's own code is adopted. */
  function SelectLanguage(lang: string): (r: string)
    ensures Parse(r).Some?
    ensures Parse(lang).Some? ==> r == lang
    ensures Parse(lang).None? ==> r == "en"
  {
    if Parse(lang).Some? then lang else "en"
  }

  /** The module's `currentUILanguage`. */
  class UiLanguage {
    var currentUILanguage: string

    predicate Valid()
      reads this
    {
      Parse(currentUILanguage).Some?
    }

    constructor()
      ensures currentUILanguage == "en" && Valid()
    {
      currentUILanguage := "en";
    }

    /** `getMessage(key, substitutions)`. */
    method GetMessage(c: Catalog, key: string, subs: seq<string>) returns (message: string)
      ensures message == Message(c, currentUILanguage, key, subs)
    {
      message := Lookup(c, currentUILanguage, key);
      ghost var pairs := Numbered(subs);
      ghost var target := ReplaceEach(message, pairs);
      var index := 0;
      while index < |subs|
        invariant 0 <= index <= |subs|
        invariant ReplaceEach(message, pairs[index..]) == target
      {
        assert pairs[index..][1..] == pairs[index + 1..];
        message := ReplaceFirst(message, "$" + NatToString(index + 1), subs[index]);
        index := index + 1;
      }
    }

    /** `setLanguage(lang)`. */
    method SetLanguage(lang: string)
      modifies this
      ensures currentUILanguage == SelectLanguage(lang)
      ensures Valid()
    {
      if Parse(lang).Some? {
        currentUILanguage := lang;
      } else {
        currentUILanguage := "en";
      }
    }

    /** `getLanguage()`: always one of the two codes. */
    function GetLanguage(): (r: string)
      reads this
      requires Valid()
      ensures r == "en" || r == "zh_TW"
    {
      currentUILanguage
    }
  }
}
