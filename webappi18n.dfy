/**
 * The web app's interface language (webapp-i18n.js): the current language,
 * which is saved in `localStorage` under 'webapp_ui_language' when the user
 * picks one, message lookup with `{name}` placeholders, and the `lang`
 * attribute of the document.
 */
module WebAppI18n {
  import opened Wrappers
  import opened JsString
  import opened Localization

  /** The placeholder for the substitution named `name`. */
  function Braced(name: string): (r: string)
    ensures |r| == |name| + 2 && r[0] == '{' && r[|r| - 1] == '}'
  {
    "{" + name + "}"
  }

  /** The substitutions paired with their placeholders, in the order `Object.keys` lists them. */
  function Named(subs: seq<(string, string)>): (r: seq<(string, string)>)
    ensures |r| == |subs|
    ensures forall i | 0 <= i < |r| :: r[i] == (Braced(subs[i].0), subs[i].1)
  {
    seq(|subs|, i requires 0 <= i < |subs| => (Braced(subs[i].0), subs[i].1))
  }

  /** `getWebAppMessage(key, substitutions)` for a given current language. */
  function Message(c: Catalog, code: string, key: string, subs: seq<(string, string)>): string {
    ReplaceEach(Lookup(c, code, key), Named(subs))
  }

  /** A substitution fills the first `{name}` of a message whose text before it has no `{`. */
  lemma FillsFirstPlaceholder(c: Catalog, code: string, key: string, name: string, value: string, before: string, after: string)
    requires Lookup(c, code, key) == before + Braced(name) + after
    requires '{' !in before
    ensures Message(c, code, key, [(name, value)]) == before + value + after
  {
    var pairs := Named([(name, value)]);
    assert pairs[0] == (Braced(name), value) && pairs[1..] == [];
    ReplaceFirstBetween(before, Braced(name), after, value);
    assert ReplaceEach(before + Braced(name) + after, pairs) == ReplaceEach(before + value + after, []);
  }

  /** A message without placeholders is returned as looked up, whatever the substitutions. */
  lemma PlainMessageUnchanged(c: Catalog, code: string, key: string, subs: seq<(string, string)>)
    requires '{' !in Lookup(c, code, key)
    ensures Message(c, code, key, subs) == Lookup(c, code, key)
  {
    var m := Lookup(c, code, key);
    forall i | 0 <= i < |Named(subs)|
      ensures !Contains(m, Named(subs)[i].0)
    {
      var p := Named(subs)[i].0;
      forall k: nat
        ensures !ContainsAt(m, p, k)
      {
        if k + |p| <= |m| {
          assert m[k..k + |p|][0] == m[k] != p[0];
        }
      }
    }
    ReplaceEachAbsent(m, Named(subs));
  }

  const StorageKey := "webapp_ui_language"

  /** The current language and what `localStorage` holds under `StorageKey`. */
  datatype LanguageState = LanguageState(current: string, saved: Option<string>)

  /** `setWebAppLanguage(lang)` as written: the membership test also passes inherited names, which are then saved. */
  function SetAsWritten(st: LanguageState, lang: string): (r: LanguageState)
    ensures KnownAsWritten(lang) ==> r == LanguageState(lang, Some(lang))
    ensures !KnownAsWritten(lang) ==> r == st.(current := "en")
  {
    if KnownAsWritten(lang) then LanguageState(lang, Some(lang)) else st.(current := "en")
  }

  /** As written, choosing `"toString"` saves it and makes it the current language. */
  lemma SetAsWrittenEscapes(st: LanguageState)
    ensures SetAsWritten(st, "toString").saved == Some("toString")
    ensures Parse(SetAsWritten(st, "toString").current).None?
  {
    InheritedNamePassesTest();
  }

  /** `setWebAppLanguage(lang)` as intended: a table's code is adopted and saved, anything else resets to English and saves nothing. */
  function Set(st: LanguageState, lang: string): (r: LanguageState)
    ensures Parse(lang).Some? ==> r.current == lang && r.saved == Some(lang)
    ensures Parse(lang).None? ==> r.current == "en" && r.saved == st.saved
    ensures Parse(r.current).Some?
  {
    if Parse(lang).Some? then LanguageState(lang, Some(lang)) else st.(current := "en")
  }

  /** `initWebAppLanguage()`: a saved table code is adopted; anything else keeps the current language. */
  function Init(st: LanguageState): (r: LanguageState)
    ensures r.saved == st.saved
    ensures st.saved.Some? && Parse(st.saved.value).Some? ==> r.current == st.saved.value
    ensures !(st.saved.Some? && Parse(st.saved.value).Some?) ==> r.current == st.current
  {
    if st.saved.Some? && Truthy(st.saved) && Parse(st.saved.value).Some? then st.(current := st.saved.value) else st
  }

  /** `initWebAppLanguage()` as written: the same membership test as `SetAsWritten`, so a saved inherited name is adopted too. */
  function InitAsWritten(st: LanguageState): (r: LanguageState)
    ensures r.saved == st.saved
    ensures Truthy(st.saved) && KnownAsWritten(st.saved.value) ==> r.current == st.saved.value
    ensures !(Truthy(st.saved) && KnownAsWritten(st.saved.value)) ==> r.current == st.current
  {
    if Truthy(st.saved) && KnownAsWritten(st.saved.value) then st.(current := st.saved.value) else st
  }

  /** As written, a saved `"toString"` survives a reload: the page starts in a language no table has. */
  lemma InheritedChoiceSurvivesReload(st: LanguageState)
    ensures InitAsWritten(LanguageState("en", SetAsWritten(st, "toString").saved)).current == "toString"
    ensures Parse("toString").None?
  {
    InheritedNamePassesTest();
  }

  /** The language is one of the two codes after every operation that starts from one. */
  lemma InitKeepsValid(st: LanguageState)
    requires Parse(st.current).Some?
    ensures Parse(Init(st).current).Some?
  {
  }

  /** A language chosen and saved is the one a reloaded page starts with. */
  lemma ChoiceSurvivesReload(st: LanguageState, lang: string)
    requires Parse(lang).Some?
    ensures Init(LanguageState("en", Set(st, lang).saved)).current == lang
  {
  }

  /** Choosing an unknown language does not disturb what a reloaded page starts with. */
  lemma UnknownChoiceNotSaved(st: LanguageState, lang: string)
    requires Parse(lang).None?
    ensures Init(LanguageState("en", Set(st, lang).saved)) == Init(LanguageState("en", st.saved))
  {
  }

  /** The value `localizeWebApp` gives `document.documentElement.lang`. */
  function HtmlLang(code: string): (r: string)
    ensures r == "zh-TW" <==> code == "zh_TW"
    ensures r != "zh-TW" ==> r == "en"
  {
    if code == "zh_TW" then "zh-TW" else "en"
  }

  /** The module's `currentWebAppLanguage`, with the browser's `localStorage` entry. */
  class WebAppLanguage {
    var current: string
    var saved: Option<string>

    function State(): LanguageState
      reads this
    {
      LanguageState(current, saved)
    }

    predicate Valid()
      reads this
    {
      Parse(current).Some?
    }

    /** A page starts in English, with whatever the browser had saved. */
    constructor(stored: Option<string>)
      ensures State() == LanguageState("en", stored) && Valid()
    {
      current := "en";
      saved := stored;
    }

    /** `getWebAppMessage(key, substitutions)`. */
    method GetMessage(c: Catalog, key: string, subs: seq<(string, string)>) returns (message: string)
      ensures message == Message(c, current, key, subs)
    {
      message := Lookup(c, current, key);
      ghost var pairs := Named(subs);
      ghost var target := ReplaceEach(message, pairs);
      var index := 0;
      while index < |subs|
        invariant 0 <= index <= |subs|
        invariant ReplaceEach(message, pairs[index..]) == target
      {
        assert pairs[index..][1..] == pairs[index + 1..];
        message := ReplaceFirst(message, "{" + subs[index].0 + "}", subs[index].1);
        index := index + 1;
      }
    }

    /** `setWebAppLanguage(lang)`. */
    method SetLanguage(lang: string)
      modifies this
      ensures State() == Set(old(State()), lang)
      ensures Valid()
    {
      if Parse(lang).Some? {
        current := lang;
        saved := Some(lang);
      } else {
        current := "en";
      }
    }

    /** `initWebAppLanguage()`, returning the language now current. */
    method InitLanguage() returns (r: string)
      modifies this
      ensures State() == Init(old(State()))
      ensures r == current
      ensures old(Valid()) ==> Valid()
    {
      if saved.Some? && Truthy(saved) && Parse(saved.value).Some? {
        current := saved.value;
      }
      r := current;
    }

    /** `getWebAppLanguage()`. */
    function GetLanguage(): (r: string)
      reads this
      requires Valid()
      ensures r == "en" || r == "zh_TW"
    {
      current
    }
  }
}
