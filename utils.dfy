/**
 * The browser extension's string utilities (browser-extension/utils.js):
 * the strict video-id extractor, the API-key check and the download file
 * name.  A value that is not a string is modelled as `None`.
 *
 * The extractor tries five regular expressions in order and returns the
 * capture of the first that matches.  Each is modelled by `MatchAt`, the
 * match of one pattern starting at one index, and `Match`, the leftmost such
 * start, which is how `String.prototype.match` scans.
 */
module ExtensionUtils {
  import opened Wrappers
  import opened JsString

  /** `[a-zA-Z0-9_-]`. */
  predicate IdChar(c: char) {
    ('a' <= c <= 'z') || ('A' <= c <= 'Z') || ('0' <= c <= '9') || c == '_' || c == '-'
  }

  const IdLength := 11

  /** Exactly eleven characters from `[a-zA-Z0-9_-]`. */
  predicate IsVideoId(s: string) {
    |s| == IdLength && forall k | 0 <= k < |s| :: IdChar(s[k])
  }

  /** A video id occupies `s[i..i + 11]`. */
  predicate IdAt(s: string, i: nat) {
    i + IdLength <= |s| && IsVideoId(s[i..i + IdLength])
  }

  /** The five patterns, in the order the extractor tries them. */
  datatype Pattern = WatchWithParams | WatchSimple | ShortLink | Embed | BareId

  const Patterns: seq<Pattern> := [WatchWithParams, WatchSimple, ShortLink, Embed, BareId]

  const WatchQuery := "youtube.com/watch?"
  const VParam := "v="
  const WatchV := "youtube.com/watch?v="
  const ShortPrefix := "youtu.be/"
  const EmbedPrefix := "youtube.com/embed/"

  /** The literal text each unanchored pattern starts with. */
  function Marker(pat: Pattern): (r: string)
    requires pat != BareId
    ensures r != [] && r[0] == 'y'
  {
    match pat
    case WatchWithParams => WatchQuery
    case WatchSimple => WatchV
    case ShortLink => ShortPrefix
    case Embed => EmbedPrefix
  }

  /** `(?:&|$|#)` at index `i`. */
  predicate EndsParam(s: string, i: nat) {
    i == |s| || (i < |s| && (s[i] == '&' || s[i] == '#'))
  }

  /** `(?:[&?#]|$)` at index `i`. */
  predicate EndsWatch(s: string, i: nat) {
    i == |s| || (i < |s| && (s[i] == '&' || s[i] == '?' || s[i] == '#'))
  }

  /** `(?:[?#]|$)` at index `i`. */
  predicate EndsPath(s: string, i: nat) {
    i == |s| || (i < |s| && (s[i] == '?' || s[i] == '#'))
  }

  /**
   * In the first pattern, `(?:[^&]*&)*v=` read from query start `q0` can put
   * `v=` at `q` exactly when `q == q0` or the character before `q` is `&`
   * (any text ending in `&` splits into `[^&]*&` pieces); then eleven id
   * characters and a terminator must follow.
   */
  predicate ParamAt(s: string, q0: nat, q: int) {
    q0 <= q && ContainsAt(s, VParam, q) && (q == q0 || s[q - 1] == '&')
    && IdAt(s, q + |VParam|) && EndsParam(s, q + |VParam| + IdLength)
  }

  /**
   * The `v=` position the first pattern's greedy group settles on: the group
   * first consumes every `&`-ended piece and gives them back one at a time,
   * so the LAST qualifying position at or below `hi` wins.
   */
  function LastParam(s: string, q0: nat, hi: int): (r: Option<nat>)
    ensures r.Some? ==> ParamAt(s, q0, r.value) && r.value <= hi
    ensures r.Some? ==> forall q | r.value < q <= hi :: !ParamAt(s, q0, q)
    ensures r.None? ==> forall q | q0 <= q <= hi :: !ParamAt(s, q0, q)
    decreases hi - q0 + 1
  {
    if hi < q0 then None
    else if ParamAt(s, q0, hi) then Some(hi)
    else LastParam(s, q0, hi - 1)
  }

  /** The eleven characters at `i`. */
  function IdFrom(s: string, i: nat): (r: string)
    requires IdAt(s, i)
    ensures IsVideoId(r) && ContainsAt(s, r, i)
  {
    s[i..i + IdLength]
  }

  /** The capture of `pat` when its match starts at index `p`, or `None` when no match starts there. */
  function MatchAt(pat: Pattern, s: string, p: nat): (r: Option<string>)
    ensures r.Some? ==> IsVideoId(r.value) && Contains(s, r.value)
    ensures r.Some? && pat != BareId ==> ContainsAt(s, Marker(pat), p)
    ensures r.Some? && pat == BareId ==> p == 0 && r.value == s
  {
    match pat
    case WatchWithParams =>
      if ContainsAt(s, WatchQuery, p) then
        match LastParam(s, p + |WatchQuery|, |s|)
        case Some(q) => Some(IdFrom(s, q + |VParam|))
        case None => None
      else None
    case WatchSimple =>
      if ContainsAt(s, WatchV, p) && IdAt(s, p + |WatchV|) && EndsWatch(s, p + |WatchV| + IdLength)
      then Some(IdFrom(s, p + |WatchV|)) else None
    case ShortLink =>
      if ContainsAt(s, ShortPrefix, p) && IdAt(s, p + |ShortPrefix|) && EndsPath(s, p + |ShortPrefix| + IdLength)
      then Some(IdFrom(s, p + |ShortPrefix|)) else None
    case Embed =>
      if ContainsAt(s, EmbedPrefix, p) && IdAt(s, p + |EmbedPrefix|) && EndsPath(s, p + |EmbedPrefix| + IdLength)
      then Some(IdFrom(s, p + |EmbedPrefix|)) else None
    case BareId =>
      if p == 0 && IsVideoId(s) then
        assert ContainsAt(s, s, 0);
        Some(s)
      else None
  }

  /** No match of any pattern starts past the end of the text. */
  lemma NoMatchPastEnd(pat: Pattern, s: string, p: nat)
    requires p > |s|
    ensures MatchAt(pat, s, p).None?
  {
  }

  /** The leftmost start index at or after `p` where `pat` matches. */
  function LeftmostFrom(pat: Pattern, s: string, p: nat): (r: Option<nat>)
    ensures r.Some? ==> p <= r.value <= |s| && MatchAt(pat, s, r.value).Some?
    ensures r.Some? ==> forall k | p <= k < r.value :: MatchAt(pat, s, k).None?
    ensures r.None? ==> forall k | p <= k :: MatchAt(pat, s, k).None?
    decreases |s| + 1 - p
  {
    if p > |s| then
      assert forall k | p <= k :: MatchAt(pat, s, k).None? by {
        forall k | p <= k ensures MatchAt(pat, s, k).None? { NoMatchPastEnd(pat, s, k); }
      }
      None
    else if MatchAt(pat, s, p).Some? then Some(p)
    else LeftmostFrom(pat, s, p + 1)
  }

  /** `s.match(pat)`'s capture: the match at the leftmost index where one starts. */
  function Match(pat: Pattern, s: string): (r: Option<string>)
    ensures r.Some? ==> IsVideoId(r.value) && Contains(s, r.value)
  {
    match LeftmostFrom(pat, s, 0)
    case Some(k) => MatchAt(pat, s, k)
    case None => None
  }

  /** A pattern fails to match exactly when no match starts at any index. */
  lemma MatchNoneIff(pat: Pattern, s: string)
    ensures Match(pat, s).None? <==> forall k: nat :: MatchAt(pat, s, k).None?
  {
  }

  /** The first pattern of `pats[i..]` that matches decides the result. */
  function FirstMatchFrom(pats: seq<Pattern>, s: string, i: nat): (r: Option<string>)
    requires i <= |pats|
    ensures r.None? <==> forall k | i <= k < |pats| :: Match(pats[k], s).None?
    ensures r.Some? ==> IsVideoId(r.value) && Contains(s, r.value)
    decreases |pats| - i
  {
    if i == |pats| then None
    else
      match Match(pats[i], s)
      case Some(id) => Some(id)
      case None => FirstMatchFrom(pats, s, i + 1)
  }

  /**
   * `extractVideoId(url)`: `None` for a missing or blank input; otherwise
   * the first of the five patterns that matches the trimmed text decides.
   */
  function ExtractVideoId(url: Option<string>): (r: Option<string>)
    ensures url.None? || Blank(url.value) ==> r.None?
    ensures r.Some? ==> IsVideoId(r.value) && Contains(Trim(url.value), r.value)
    ensures url.Some? && !Blank(url.value) ==> r == FirstMatchFrom(Patterns, Trim(url.value), 0)
  {
    if url.None? || url.value == "" then
      None
    else
      var t := Trim(url.value);
      if t == "" then None else FirstMatchFrom(Patterns, t, 0)
  }

  // ---- Facts used to evaluate the extractor on concrete URL shapes ----

  /** A pattern cannot start inside a lead that lacks `y`, the first character of its marker. */
  lemma NoneInLead(pat: Pattern, s: string, k: nat)
    requires pat != BareId && k <= |s| && 'y' !in s[..k]
    ensures forall p: nat | p < k :: MatchAt(pat, s, p).None?
  {
    forall p: nat | p < k ensures !ContainsAt(s, Marker(pat), p) {
      if p + |Marker(pat)| <= |s| {
        assert s[p..p + |Marker(pat)|][0] == s[p] == s[..k][p];
      }
    }
  }

  /** A pattern whose marker does not occur never matches. */
  lemma NoneWithoutMarker(pat: Pattern, s: string)
    requires pat != BareId && !Contains(s, Marker(pat))
    ensures Match(pat, s).None?
  {
    assert forall k: nat :: !ContainsAt(s, Marker(pat), k);
    MatchNoneIff(pat, s);
  }

  /** A match at `k` with none before it is the leftmost one. */
  lemma LeftmostAt(pat: Pattern, s: string, k: nat)
    requires forall p: nat | p < k :: MatchAt(pat, s, p).None?
    requires MatchAt(pat, s, k).Some?
    ensures Match(pat, s) == MatchAt(pat, s, k)
  {
  }

  /** Text without `'/'` contains none of the four markers, since each has one. */
  lemma NoSlashNoMarker(s: string)
    requires '/' !in s
    ensures Match(WatchWithParams, s).None? && Match(WatchSimple, s).None?
    ensures Match(ShortLink, s).None? && Match(Embed, s).None?
  {
    assert !Contains(s, WatchQuery) by { NotContainsChar(s, WatchQuery, 11); }
    assert !Contains(s, WatchV) by { NotContainsChar(s, WatchV, 11); }
    assert !Contains(s, ShortPrefix) by { NotContainsChar(s, ShortPrefix, 8); }
    assert !Contains(s, EmbedPrefix) by { NotContainsChar(s, EmbedPrefix, 11); }
    NoneWithoutMarker(WatchWithParams, s);
    NoneWithoutMarker(WatchSimple, s);
    NoneWithoutMarker(ShortLink, s);
    NoneWithoutMarker(Embed, s);
  }

  /** Text without `'?'` matches neither watch pattern. */
  lemma NoQueryNoWatch(s: string)
    requires '?' !in s
    ensures Match(WatchWithParams, s).None? && Match(WatchSimple, s).None?
  {
    assert !Contains(s, WatchQuery) by { NotContainsChar(s, WatchQuery, 17); }
    assert !Contains(s, WatchV) by { NotContainsChar(s, WatchV, 17); }
    NoneWithoutMarker(WatchWithParams, s);
    NoneWithoutMarker(WatchSimple, s);
  }

  lemma IdHasNoPunctuation(id: string)
    requires IsVideoId(id)
    ensures '/' !in id && '?' !in id && '&' !in id && '.' !in id
    ensures !IsWhitespace(id[0]) && !IsWhitespace(id[|id| - 1])
  {
  }

  /** A URL that starts with a non-blank lead and ends with an id has nothing to trim. */
  lemma LeadAndIdUnpadded(s: string, lead: string, id: string)
    requires lead != [] && !IsWhitespace(lead[0]) && IsVideoId(id)
    requires |s| >= |lead| + |id| && s[..|lead|] == lead && s[|s| - |id|..] == id
    ensures Unpadded(s)
  {
    assert s[0] == lead[0];
    assert s[|s| - 1] == id[|id| - 1];
    IdHasNoPunctuation(id);
  }

  // ---- The URL shapes the extension promises to recognise ----

  const TimeParam := "&t=120"

  /**
   * The first pattern captures the id of `lead + "youtube.com/watch?v=" + id`,
   * optionally followed by `&t=120`.
   */
  lemma WatchCapture(lead: string, id: string, tail: string)
    requires 'y' !in lead && IsVideoId(id)
    requires tail == [] || tail == TimeParam
    ensures Match(WatchWithParams, lead + WatchV + id + tail) == Some(id)
  {
    var s := lead + WatchV + id + tail;
    var L := |lead|;
    var q0 := L + |WatchQuery|;
    assert s[..L] == lead;
    NoneInLead(WatchWithParams, s, L);
    assert s[L..L + |WatchQuery|] == WatchQuery;
    assert s[q0..q0 + 2] == VParam;
    assert s[q0 + 2..q0 + 13] == id;
    IdHasNoPunctuation(id);
    assert ParamAt(s, q0, q0);
    forall q | q0 < q <= |s| ensures !ParamAt(s, q0, q) {
      WatchNoLaterParam(lead, id, tail, q);
    }
    assert LastParam(s, q0, |s|) == Some(q0);
    LeftmostAt(WatchWithParams, s, L);
  }

  /** In a watch URL, no parameter ending after `v=` follows the query's `?`. */
  lemma WatchNoLaterParam(lead: string, id: string, tail: string, q: int)
    requires IsVideoId(id)
    requires tail == [] || tail == TimeParam
    requires |lead| + |WatchQuery| < q <= |lead + WatchV + id + tail|
    ensures !ParamAt(lead + WatchV + id + tail, |lead| + |WatchQuery|, q)
  {
    var s := lead + WatchV + id + tail;
    var q0 := |lead| + |WatchQuery|;
    assert s[q0..q0 + 2] == VParam;
    assert s[q0 + 2..q0 + 13] == id;
    IdHasNoPunctuation(id);
    if q - 1 < q0 + 2 {
      assert s[q - 1] == VParam[q - 1 - q0];
    } else if q - 1 < q0 + 13 {
      assert s[q - 1] == id[q - 1 - q0 - 2];
    } else if q - 1 == q0 + 13 {
      assert s[q] == tail[1] == 't';
    } else {
      assert s[q - 1] == tail[q - 1 - q0 - 13];
    }
  }

  /** `ShortLink` captures the id of `lead + "youtu.be/" + id`. */
  lemma ShortCapture(lead: string, id: string)
    requires 'y' !in lead && IsVideoId(id)
    ensures Match(ShortLink, lead + ShortPrefix + id) == Some(id)
  {
    var s := lead + ShortPrefix + id;
    var L := |lead|;
    assert s[..L] == lead;
    NoneInLead(ShortLink, s, L);
    assert s[L..L + |ShortPrefix|] == ShortPrefix;
    assert s[L + |ShortPrefix|..L + |ShortPrefix| + IdLength] == id;
    LeftmostAt(ShortLink, s, L);
  }

  /** `Embed` captures the id of `lead + "youtube.com/embed/" + id`. */
  lemma EmbedCapture(lead: string, id: string)
    requires 'y' !in lead && IsVideoId(id)
    ensures Match(Embed, lead + EmbedPrefix + id) == Some(id)
  {
    var s := lead + EmbedPrefix + id;
    var L := |lead|;
    assert s[..L] == lead;
    NoneInLead(Embed, s, L);
    assert s[L..L + |EmbedPrefix|] == EmbedPrefix;
    assert s[L + |EmbedPrefix|..L + |EmbedPrefix| + IdLength] == id;
    LeftmostAt(Embed, s, L);
  }

  /** An embed URL never contains `youtu.be/`. */
  lemma EmbedHasNoShortLink(lead: string, id: string)
    requires 'y' !in lead && IsVideoId(id)
    ensures !Contains(lead + EmbedPrefix + id, ShortPrefix)
  {
    var s := lead + EmbedPrefix + id;
    forall p | 0 <= p <= |s| - |ShortPrefix| ensures !ContainsAt(s, ShortPrefix, p) {
      EmbedHasNoShortLinkAt(lead, id, p);
    }
  }

  lemma EmbedHasNoShortLinkAt(lead: string, id: string, p: nat)
    requires 'y' !in lead && IsVideoId(id)
    ensures !ContainsAt(lead + EmbedPrefix + id, ShortPrefix, p)
  {
    var s := lead + EmbedPrefix + id;
    var L := |lead|;
    var rest := "outube.com/embed/";
    assert EmbedPrefix == "y" + rest;
    if p <= |s| - |ShortPrefix| {
      assert s[p..p + |ShortPrefix|][0] == s[p];
      if p < L {
        assert s[p] == lead[p];
      } else if p == L {
        assert s[p..p + |ShortPrefix|][5] == s[L + 5] == 'b';
      } else if p < L + |EmbedPrefix| {
        assert s[p] == rest[p - L - 1];
      } else {
        IdHasNoPunctuation(id);
        assert s[p..p + |ShortPrefix|][8] == s[p + 8] == id[p + 8 - L - |EmbedPrefix|];
      }
    }
  }

  /** A pattern that does not match passes the decision to the next one. */
  lemma Skip(pats: seq<Pattern>, s: string, i: nat)
    requires i < |pats| && Match(pats[i], s).None?
    ensures FirstMatchFrom(pats, s, i) == FirstMatchFrom(pats, s, i + 1)
  {
  }

  /** A pattern that matches decides the result. */
  lemma Hit(pats: seq<Pattern>, s: string, i: nat)
    requires i < |pats| && Match(pats[i], s).Some?
    ensures FirstMatchFrom(pats, s, i) == Match(pats[i], s)
  {
  }

  /** Non-empty text that neither starts nor ends with white space. */
  predicate Unpadded(s: string) {
    s != [] && !IsWhitespace(s[0]) && !IsWhitespace(s[|s| - 1])
  }

  /** Unpadded text is matched as it stands. */
  lemma ExtractUnpadded(url: string)
    requires Unpadded(url)
    ensures ExtractVideoId(Some(url)) == FirstMatchFrom(Patterns, url, 0)
  {
    calc {
      ExtractVideoId(Some(url));
      == { assert !Blank(url); }
      FirstMatchFrom(Patterns, Trim(url), 0);
      == { TrimNoop(url); }
      FirstMatchFrom(Patterns, url, 0);
    }
  }

  /** Unpadded text whose first matching pattern is the one at index `i` yields that pattern's capture. */
  lemma ExtractedAt(url: string, i: nat)
    requires Unpadded(url) && i < |Patterns|
    requires forall k | 0 <= k < i :: Match(Patterns[k], url).None?
    requires Match(Patterns[i], url).Some?
    ensures ExtractVideoId(Some(url)) == Match(Patterns[i], url)
  {
    ExtractUnpadded(url);
    FirstMatchDecides(Patterns, url, 0, i);
  }

  /** When the patterns from `j` up to `i` do not match and the one at `i` does, the one at `i` decides. */
  lemma {:induction false} FirstMatchDecides(pats: seq<Pattern>, s: string, j: nat, i: nat)
    requires j <= i < |pats|
    requires forall k | j <= k < i :: Match(pats[k], s).None?
    requires Match(pats[i], s).Some?
    ensures FirstMatchFrom(pats, s, j) == Match(pats[i], s)
    decreases i - j
  {
    if j < i {
      FirstMatchDecides(pats, s, j + 1, i);
    }
  }

  /** A trimmed, non-empty text whose first matching pattern is watch-with-parameters. */
  lemma ExtractedByWatch(url: string, id: string)
    requires Unpadded(url)
    requires Match(WatchWithParams, url) == Some(id)
    ensures ExtractVideoId(Some(url)) == Some(id)
  {
    calc {
      ExtractVideoId(Some(url));
      == { ExtractUnpadded(url); }
      FirstMatchFrom(Patterns, url, 0);
      == { Hit(Patterns, url, 0); }
      Match(WatchWithParams, url);
    }
  }

  /** A trimmed, non-empty text whose first matching pattern is the short link. */
  lemma ExtractedByShortLink(url: string, id: string)
    requires Unpadded(url)
    requires Match(WatchWithParams, url).None? && Match(WatchSimple, url).None?
    requires Match(ShortLink, url) == Some(id)
    ensures ExtractVideoId(Some(url)) == Some(id)
  {
    assert Patterns[..3] == [WatchWithParams, WatchSimple, ShortLink];
    assert forall k | 0 <= k < 2 :: Match(Patterns[k], url).None?;
    ExtractedAt(url, 2);
  }

  /** A trimmed, non-empty text whose first matching pattern is the embed link. */
  lemma ExtractedByEmbed(url: string, id: string)
    requires Unpadded(url)
    requires Match(WatchWithParams, url).None? && Match(WatchSimple, url).None?
    requires Match(ShortLink, url).None? && Match(Embed, url) == Some(id)
    ensures ExtractVideoId(Some(url)) == Some(id)
  {
    assert Patterns[..4] == [WatchWithParams, WatchSimple, ShortLink, Embed];
    assert forall k | 0 <= k < 3 :: Match(Patterns[k], url).None?;
    ExtractedAt(url, 3);
  }

  /** A trimmed, non-empty text that only the bare-id pattern matches. */
  lemma ExtractedByBareId(url: string, id: string)
    requires Unpadded(url)
    requires Match(WatchWithParams, url).None? && Match(WatchSimple, url).None?
    requires Match(ShortLink, url).None? && Match(Embed, url).None?
    requires Match(BareId, url) == Some(id)
    ensures ExtractVideoId(Some(url)) == Some(id)
  {
    assert Patterns[..5] == [WatchWithParams, WatchSimple, ShortLink, Embed, BareId];
    assert forall k | 0 <= k < 4 :: Match(Patterns[k], url).None?;
    ExtractedAt(url, 4);
  }

  /** Three pieces none of which holds `c`. */
  lemma AbsentFromAll(a: string, b: string, d: string, c: char)
    requires c !in a && c !in b && c !in d
    ensures c !in a + b + d
  {
  }

  const WwwLead := "https://www."
  const HttpsLead := "https://"

  /** `https://www.youtube.com/watch?v=ID` yields ID. */
  lemma WatchUrl(id: string)
    requires IsVideoId(id)
    ensures ExtractVideoId(Some(WwwLead + WatchV + id)) == Some(id)
  {
    var s := WwwLead + WatchV + id;
    assert s == WwwLead + WatchV + id + [];
    LeadAndIdUnpadded(s, WwwLead, id);
    WatchCapture(WwwLead, id, []);
    ExtractedByWatch(s, id);
  }

  /** `https://www.youtube.com/watch?v=ID&t=120` yields ID. */
  lemma WatchUrlWithTime(id: string)
    requires IsVideoId(id)
    ensures ExtractVideoId(Some(WwwLead + WatchV + id + TimeParam)) == Some(id)
  {
    var u := WwwLead + WatchV + id;
    var s := u + TimeParam;
    assert s[0] == u[0] == WwwLead[0] == 'h';
    assert s[|s| - 1] == TimeParam[|TimeParam| - 1] == '0';
    assert Unpadded(s);
    WatchCapture(WwwLead, id, TimeParam);
    ExtractedByWatch(s, id);
  }

  /** `https://youtu.be/ID` yields ID. */
  lemma ShortUrl(id: string)
    requires IsVideoId(id)
    ensures ExtractVideoId(Some(HttpsLead + ShortPrefix + id)) == Some(id)
  {
    var s := HttpsLead + ShortPrefix + id;
    LeadAndIdUnpadded(s, HttpsLead, id);
    IdHasNoPunctuation(id);
    AbsentFromAll(HttpsLead, ShortPrefix, id, '?');
    NoQueryNoWatch(s);
    ShortCapture(HttpsLead, id);
    ExtractedByShortLink(s, id);
  }

  /** `https://www.youtube.com/embed/ID` yields ID. */
  lemma EmbedUrl(id: string)
    requires IsVideoId(id)
    ensures ExtractVideoId(Some(WwwLead + EmbedPrefix + id)) == Some(id)
  {
    var s := WwwLead + EmbedPrefix + id;
    LeadAndIdUnpadded(s, WwwLead, id);
    IdHasNoPunctuation(id);
    AbsentFromAll(WwwLead, EmbedPrefix, id, '?');
    NoQueryNoWatch(s);
    EmbedHasNoShortLink(WwwLead, id);
    NoneWithoutMarker(ShortLink, s);
    EmbedCapture(WwwLead, id);
    ExtractedByEmbed(s, id);
  }

  /** A bare eleven-character id yields itself. */
  lemma BareIdUrl(id: string)
    requires IsVideoId(id)
    ensures ExtractVideoId(Some(id)) == Some(id)
  {
    IdHasNoPunctuation(id);
    NoSlashNoMarker(id);
    assert MatchAt(BareId, id, 0) == Some(id);
    LeftmostAt(BareId, id, 0);
    ExtractedByBareId(id, id);
  }

  /** The watch pattern with `v=` contains the plain watch-query marker. */
  lemma WatchVHasWatchQuery(s: string)
    requires Contains(s, WatchV)
    ensures Contains(s, WatchQuery)
  {
    var i :| 0 <= i <= |s| - |WatchV| && ContainsAt(s, WatchV, i);
    assert s[i..i + |WatchQuery|] == s[i..i + |WatchV|][..|WatchQuery|];
    assert ContainsAt(s, WatchQuery, i);
  }

  /**
   * Text that, once trimmed, contains none of `youtube.com/watch?`,
   * `youtu.be/` and `youtube.com/embed/` and is not itself an id yields `None`.
   */
  lemma NoYouTubeShape(url: string)
    requires !Contains(Trim(url), WatchQuery) && !Contains(Trim(url), ShortPrefix)
    requires !Contains(Trim(url), EmbedPrefix) && !IsVideoId(Trim(url))
    ensures ExtractVideoId(Some(url)) == None
  {
    var t := Trim(url);
    assert Match(WatchWithParams, t).None? && Match(WatchSimple, t).None? by {
      if Contains(t, WatchV) { WatchVHasWatchQuery(t); }
      NoneWithoutMarker(WatchWithParams, t);
      NoneWithoutMarker(WatchSimple, t);
    }
    assert Match(ShortLink, t).None? && Match(Embed, t).None? by {
      NoneWithoutMarker(ShortLink, t);
      NoneWithoutMarker(Embed, t);
    }
    assert Match(BareId, t).None? by {
      assert forall k: nat :: MatchAt(BareId, t, k).None?;
      MatchNoneIff(BareId, t);
    }
    NoPatternMatches(t);
  }

  /** A text no pattern matches yields nothing. */
  lemma NoPatternMatches(t: string)
    requires Match(WatchWithParams, t).None? && Match(WatchSimple, t).None?
    requires Match(ShortLink, t).None? && Match(Embed, t).None? && Match(BareId, t).None?
    ensures FirstMatchFrom(Patterns, t, 0).None?
  {
    assert forall k | 0 <= k < |Patterns| :: Match(Patterns[k], t).None?;
  }

  /** Trimming twice changes nothing. */
  lemma TrimIdempotent(s: string)
    ensures Trim(Trim(s)) == Trim(s)
  {
    TrimNoop(Trim(s));
  }

  /** Surrounding white space never changes the result: the input is trimmed before matching. */
  lemma ExtractIgnoresPadding(url: string)
    ensures ExtractVideoId(Some(url)) == ExtractVideoId(Some(Trim(url)))
  {
    TrimIdempotent(url);
  }

  /** `validateApiKey(key)`: a string with at least one non-white-space character. */
  function ValidateApiKey(key: Option<string>): (r: bool)
    ensures r <==> key.Some? && !Blank(key.value)
  {
    if key.None? || key.value == "" then false else |Trim(key.value)| > 0
  }

  const FilenamePrefix := "youtube-blog-"
  const FilenameSuffix := ".md"
  const UnknownFilename := "youtube-blog-unknown.md"

  /**
   * `generateFilename(videoId)`: the trimmed id between the prefix and
   * `.md`, or the `unknown` name for a missing, empty or blank id.
   */
  function GenerateFilename(videoId: Option<string>): (r: string)
    ensures videoId.None? || Blank(videoId.value) ==> r == UnknownFilename
    ensures videoId.Some? && !Blank(videoId.value) ==> r == FilenamePrefix + Trim(videoId.value) + FilenameSuffix
  {
    if videoId.None? || videoId.value == "" then UnknownFilename
    else FilenamePrefix + OrElse(Some(Trim(videoId.value)), "unknown") + FilenameSuffix
  }

  /** The id can be read back out of the file name, which ends in `.md`. */
  lemma FilenameHoldsId(id: string)
    requires !Blank(id)
    ensures var r := GenerateFilename(Some(id));
      r[|FilenamePrefix|..|r| - |FilenameSuffix|] == Trim(id) && r[|r| - |FilenameSuffix|..] == FilenameSuffix
      && ContainsAt(r, Trim(id), |FilenamePrefix|)
  {
    var r := GenerateFilename(Some(id));
    assert r == FilenamePrefix + Trim(id) + FilenameSuffix;
    assert r[|FilenamePrefix|..|r| - |FilenameSuffix|] == Trim(id);
  }
}
