/**
 * What the two interface-language modules (browser-extension/i18n.js and
 * webapp-i18n.js) have in common: two message tables keyed by the codes
 * 'en' and 'zh_TW', a lookup that falls back from the current table to the
 * English one to the key itself, and substitution by replacing the first
 * occurrence of each placeholder in turn.
 */
module Localization {
  import opened Wrappers
  import opened JsString

  datatype Lang = En | ZhTW

  function Code(l: Lang): string {
    match l
    case En => "en"
    case ZhTW => "zh_TW"
  }

  /** Whether `code` names one of the two tables, with the table's language. */
  function Parse(code: string): (r: Option<Lang>)
    ensures r.Some? <==> code == "en" || code == "zh_TW"
    ensures r.Some? ==> Code(r.value) == code
  {
    if code == "en" then Some(En) else if code == "zh_TW" then Some(ZhTW) else None
  }

  lemma ParseCode(l: Lang)
    ensures Parse(Code(l)) == Some(l)
  {
  }

  /** The two message tables; a key absent from a table reads as `undefined`. */
  datatype Catalog = Catalog(en: map<string, string>, zhTW: map<string, string>)

  function TableOf(c: Catalog, l: Lang): map<string, string> {
    match l
    case En => c.en
    case ZhTW => c.zhTW
  }

  /** `TABLES[code] || TABLES['en']`. */
  function Table(c: Catalog, code: string): map<string, string> {
    match Parse(code)
    case Some(l) => TableOf(c, l)
    case None => c.en
  }

  /** Whether `m[key]` is a truthy string. */
  predicate Has(m: map<string, string>, key: string) {
    key in m && m[key] != ""
  }

  /** `messages[key] || TABLES['en'][key] || key`. */
  function Lookup(c: Catalog, code: string, key: string): (r: string)
    ensures Has(Table(c, code), key) ==> r == Table(c, code)[key]
    ensures !Has(Table(c, code), key) && Has(c.en, key) ==> r == c.en[key]
    ensures !Has(Table(c, code), key) && !Has(c.en, key) ==> r == key
  {
    var messages := Table(c, code);
    if Has(messages, key) then messages[key]
    else if Has(c.en, key) then c.en[key]
    else key
  }

  /** A lookup is empty only for the empty key. */
  lemma LookupNonEmpty(c: Catalog, code: string, key: string)
    requires key != ""
    ensures Lookup(c, code, key) != ""
  {
  }

  /** A code that names no table reads the English table. */
  lemma UnknownCodeReadsEnglish(c: Catalog, code: string, key: string)
    requires Parse(code).None?
    ensures Lookup(c, code, key) == Lookup(c, "en", key)
  {
  }

  /** Replace the first occurrence of each placeholder by its value, pair by pair, in order. */
  function ReplaceEach(message: string, pairs: seq<(string, string)>): string
    decreases |pairs|
  {
    if pairs == [] then message
    else ReplaceEach(ReplaceFirst(message, pairs[0].0, pairs[0].1), pairs[1..])
  }

  /** Placeholders that do not occur leave the message as it is. */
  lemma {:induction false} ReplaceEachAbsent(message: string, pairs: seq<(string, string)>)
    requires forall i | 0 <= i < |pairs| :: !Contains(message, pairs[i].0)
    ensures ReplaceEach(message, pairs) == message
    decreases |pairs|
  {
    if pairs != [] {
      ReplaceFirstAbsent(message, pairs[0].0, pairs[0].1);
      assert forall i | 0 <= i < |pairs[1..]| :: pairs[1..][i] == pairs[i + 1];
      ReplaceEachAbsent(message, pairs[1..]);
    }
  }

  /** The first occurrence of `n` in `a + n + b` is the one after `a` when `a` holds no first character of `n`. */
  lemma ReplaceFirstBetween(a: string, n: string, b: string, rep: string)
    requires n != [] && n[0] !in a
    ensures ReplaceFirst(a + n + b, n, rep) == a + rep + b
  {
    var s := a + n + b;
    ContainsBetween(a, n, b);
    forall k | 0 <= k < |a|
      ensures !ContainsAt(s, n, k)
    {
      assert k + |n| <= |s| && s[k..k + |n|][0] == a[k] != n[0];
    }
    var i := FirstIndex(s, n);
    assert i == Some(|a|);
    assert s[..|a|] == a;
    assert s[|a| + |n|..] == b;
  }

  /**
   * `TABLES[code]` in JavaScript is also truthy for the names every object
   * inherits from `Object.prototype`.
   */
  predicate InheritedName(code: string) {
    code in {"constructor", "__proto__", "__defineGetter__", "__defineSetter__", "__lookupGetter__",
             "__lookupSetter__", "hasOwnProperty", "isPrototypeOf", "propertyIsEnumerable",
             "toLocaleString", "toString", "valueOf"}
  }

  /** The membership test `if (TABLES[code])` as the code evaluates it. */
  predicate KnownAsWritten(code: string) {
    Parse(code).Some? || InheritedName(code)
  }

  /** `"toString"` passes that test though no table has that code. */
  lemma InheritedNamePassesTest()
    ensures KnownAsWritten("toString") && Parse("toString").None?
  {
  }
}
