/**
 * The page script (browser-extension/injected.js).  It watches YouTube's
 * own caption requests and player response and posts what it finds to the
 * content script, suppressing repeats of the last URL and the last track
 * list until the page navigates.
 *
 * The hooks on `fetch`, `XMLHttpRequest.open`, the `ytInitialPlayerResponse`
 * setter, `ytcfg.set` and the 500 ms navigation timer are the entry points
 * `OnRequest`, `ExtractCaptionTracks` and `CheckNavigation`; `JSON.stringify`
 * is the parameter `stringify`.
 */
module PageInterceptor {
  import opened Wrappers
  import opened JsString
  import opened CaptionTracks

  /** A message posted with `window.postMessage`. */
  datatype Posted = CaptionUrlPosted(url: string) | CaptionTracksPosted(tracks: seq<CaptionTrack>)

  /** The module-level variables, plus everything posted so far. */
  datatype State = State(
    lastCaptionUrl: Option<string>,
    captionTracks: Option<string>,
    lastUrl: string,
    posted: seq<Posted>)

  /** The part of a player response the script reads: `captions?.playerCaptionsTracklistRenderer?.captionTracks`. */
  datatype PlayerResponse = PlayerResponse(captionTracks: Option<seq<CaptionTrack>>)

  /** `sendCaptionUrl(url)`. */
  function SendCaptionUrl(st: State, url: string): State {
    if st.lastCaptionUrl == Some(url) then st
    else st.(lastCaptionUrl := Some(url), posted := st.posted + [CaptionUrlPosted(url)])
  }

  /** `sendCaptionTracks(tracks)`. */
  function SendCaptionTracks(st: State, tracks: Option<seq<CaptionTrack>>, stringify: seq<CaptionTrack> -> string): State {
    if tracks.None? || tracks.value == [] then st
    else if st.captionTracks == Some(stringify(tracks.value)) then st
    else st.(captionTracks := Some(stringify(tracks.value)), posted := st.posted + [CaptionTracksPosted(tracks.value)])
  }

  /** The URL the preferred track offers, when it has a non-empty `baseUrl`. */
  function PreferredUrl(tracks: seq<CaptionTrack>): (r: Option<string>)
    ensures r.Some? ==> r.value != "" && PreferredTrack(tracks).Some? && PreferredTrack(tracks).value.baseUrl == r
    ensures r.None? ==> PreferredTrack(tracks).None? || !Truthy(PreferredTrack(tracks).value.baseUrl)
  {
    match PreferredTrack(tracks)
    case Some(t) => if Truthy(t.baseUrl) then t.baseUrl else None
    case None => None
  }

  /** `extractCaptionTracks(playerResponse)`: post the list, then the preferred track's URL. */
  function ExtractTracks(st: State, pr: PlayerResponse, stringify: seq<CaptionTrack> -> string): State {
    if pr.captionTracks.None? || pr.captionTracks.value == [] then st
    else
      var tracks := pr.captionTracks.value;
      var st1 := SendCaptionTracks(st, Some(tracks), stringify);
      match PreferredUrl(tracks)
      case Some(u) => SendCaptionUrl(st1, u)
      case None => st1
  }

  const TimedtextPath := "/api/timedtext"

  /** The `fetch` / `XMLHttpRequest.open` hook: a string URL that names the timed-text API is reported. */
  function Request(st: State, url: Option<string>): State {
    if url.Some? && Contains(url.value, TimedtextPath) then SendCaptionUrl(st, url.value) else st
  }

  /** One tick of the navigation timer with the page at `href`: a new URL resets both de-duplication states and re-reads the player response. */
  function Navigate(st: State, href: string, pr: Option<PlayerResponse>, stringify: seq<CaptionTrack> -> string): State {
    if href == st.lastUrl then st
    else
      var st1 := st.(lastUrl := href, lastCaptionUrl := None, captionTracks := None);
      if pr.Some? then ExtractTracks(st1, pr.value, stringify) else st1
  }

  // ---- What has been posted ----

  function UrlOf(m: Posted): seq<string> {
    match m
    case CaptionUrlPosted(u) => [u]
    case CaptionTracksPosted(_) => []
  }

  function TracksOf(m: Posted, stringify: seq<CaptionTrack> -> string): seq<string> {
    match m
    case CaptionTracksPosted(ts) => [stringify(ts)]
    case CaptionUrlPosted(_) => []
  }

  /** The URLs posted, in order. */
  function UrlsPosted(posted: seq<Posted>): seq<string>
    decreases |posted|
  {
    if posted == [] then [] else UrlsPosted(posted[..|posted| - 1]) + UrlOf(posted[|posted| - 1])
  }

  /** The serialisations of the track lists posted, in order. */
  function TracksPosted(posted: seq<Posted>, stringify: seq<CaptionTrack> -> string): seq<string>
    decreases |posted|
  {
    if posted == [] then [] else TracksPosted(posted[..|posted| - 1], stringify) + TracksOf(posted[|posted| - 1], stringify)
  }

  function Last(s: seq<string>): Option<string> {
    if s == [] then None else Some(s[|s| - 1])
  }

  /**
   * The de-duplication variables remember the last URL and the last track
   * list actually posted (or are `null` after a reset).
   */
  predicate Consistent(st: State, stringify: seq<CaptionTrack> -> string) {
    (st.lastCaptionUrl.Some? ==> Last(UrlsPosted(st.posted)) == st.lastCaptionUrl)
    && (st.captionTracks.Some? ==> Last(TracksPosted(st.posted, stringify)) == st.captionTracks)
  }

  lemma PostUrl(posted: seq<Posted>, u: string, stringify: seq<CaptionTrack> -> string)
    ensures UrlsPosted(posted + [CaptionUrlPosted(u)]) == UrlsPosted(posted) + [u]
    ensures TracksPosted(posted + [CaptionUrlPosted(u)], stringify) == TracksPosted(posted, stringify)
  {
    assert (posted + [CaptionUrlPosted(u)])[..|posted|] == posted;
  }

  lemma PostTracks(posted: seq<Posted>, ts: seq<CaptionTrack>, stringify: seq<CaptionTrack> -> string)
    ensures UrlsPosted(posted + [CaptionTracksPosted(ts)]) == UrlsPosted(posted)
    ensures TracksPosted(posted + [CaptionTracksPosted(ts)], stringify) == TracksPosted(posted, stringify) + [stringify(ts)]
  {
    assert (posted + [CaptionTracksPosted(ts)])[..|posted|] == posted;
  }

  /** `sendCaptionUrl` posts `url` unless it was the last URL posted since the last reset, and keeps the state consistent. */
  lemma SendCaptionUrlPosts(st: State, url: string, stringify: seq<CaptionTrack> -> string)
    requires Consistent(st, stringify)
    ensures var st' := SendCaptionUrl(st, url);
      Consistent(st', stringify) && st'.lastCaptionUrl == Some(url)
      && UrlsPosted(st'.posted) == UrlsPosted(st.posted) + (if st.lastCaptionUrl == Some(url) then [] else [url])
      && TracksPosted(st'.posted, stringify) == TracksPosted(st.posted, stringify)
  {
    PostUrl(st.posted, url, stringify);
  }

  /** `sendCaptionTracks` posts a non-empty list unless it serialises like the last one, and keeps the state consistent. */
  lemma SendCaptionTracksPosts(st: State, tracks: Option<seq<CaptionTrack>>, stringify: seq<CaptionTrack> -> string)
    requires Consistent(st, stringify)
    ensures var st' := SendCaptionTracks(st, tracks, stringify);
      Consistent(st', stringify) && UrlsPosted(st'.posted) == UrlsPosted(st.posted)
      && TracksPosted(st'.posted, stringify) == TracksPosted(st.posted, stringify)
         + (if tracks.None? || tracks.value == [] || st.captionTracks == Some(stringify(tracks.value)) then [] else [stringify(tracks.value)])
  {
    if tracks.Some? && tracks.value != [] {
      PostTracks(st.posted, tracks.value, stringify);
    }
  }

  /** The same URL twice in a row is posted at most once. */
  lemma RepeatedUrlSuppressed(st: State, url: string)
    ensures SendCaptionUrl(SendCaptionUrl(st, url), url) == SendCaptionUrl(st, url)
  {
  }

  /** The same track list twice in a row is posted at most once. */
  lemma RepeatedTracksSuppressed(st: State, tracks: Option<seq<CaptionTrack>>, stringify: seq<CaptionTrack> -> string)
    ensures SendCaptionTracks(SendCaptionTracks(st, tracks, stringify), tracks, stringify) == SendCaptionTracks(st, tracks, stringify)
  {
  }

  /**
   * A player response posts its track list (unless a repeat) and then a URL
   * only when the preferred track has a `baseUrl`, which is the URL posted.
   */
  lemma ExtractTracksPosts(st: State, pr: PlayerResponse, stringify: seq<CaptionTrack> -> string)
    requires Consistent(st, stringify)
    ensures var st' := ExtractTracks(st, pr, stringify);
      Consistent(st', stringify)
      && (pr.captionTracks.None? || pr.captionTracks.value == [] ==> st' == st)
      && (pr.captionTracks.Some? && pr.captionTracks.value != [] ==>
            UrlsPosted(st'.posted) == UrlsPosted(st.posted)
              + (match PreferredUrl(pr.captionTracks.value)
                 case Some(u) => if st.lastCaptionUrl == Some(u) then [] else [u]
                 case None => []))
  {
    if pr.captionTracks.Some? && pr.captionTracks.value != [] {
      var tracks := pr.captionTracks.value;
      var st1 := SendCaptionTracks(st, Some(tracks), stringify);
      SendCaptionTracksPosts(st, Some(tracks), stringify);
      assert st1.lastCaptionUrl == st.lastCaptionUrl;
      match PreferredUrl(tracks)
      case Some(u) => SendCaptionUrlPosts(st1, u, stringify);
      case None =>
    }
  }

  /** Only timed-text requests are reported. */
  lemma RequestReportsTimedtext(st: State, url: Option<string>, stringify: seq<CaptionTrack> -> string)
    requires Consistent(st, stringify)
    ensures var st' := Request(st, url);
      Consistent(st', stringify)
      && (!(url.Some? && Contains(url.value, TimedtextPath)) ==> st' == st)
      && (url.Some? && Contains(url.value, TimedtextPath) ==> st'.lastCaptionUrl == url)
  {
    if url.Some? && Contains(url.value, TimedtextPath) {
      SendCaptionUrlPosts(st, url.value, stringify);
    }
  }

  /** Navigation clears both memories, so consistency survives it. */
  lemma NavigateConsistent(st: State, href: string, pr: Option<PlayerResponse>, stringify: seq<CaptionTrack> -> string)
    requires Consistent(st, stringify)
    ensures Consistent(Navigate(st, href, pr, stringify), stringify)
  {
    if href != st.lastUrl {
      var st1 := st.(lastUrl := href, lastCaptionUrl := None, captionTracks := None);
      if pr.Some? { ExtractTracksPosts(st1, pr.value, stringify); }
    }
  }

  /** After the page moves to a new URL, the URL that was just suppressed is posted again. */
  lemma NavigationAllowsRepost(st: State, href: string, url: string, stringify: seq<CaptionTrack> -> string)
    requires href != st.lastUrl && Consistent(st, stringify)
    ensures var st' := SendCaptionUrl(Navigate(st, href, None, stringify), url);
      UrlsPosted(st'.posted) == UrlsPosted(st.posted) + [url]
  {
    var st1 := Navigate(st, href, None, stringify);
    assert st1.lastCaptionUrl == None && st1.posted == st.posted;
    PostUrl(st1.posted, url, stringify);
  }

  /** The page script, with its module-level variables as fields. */
  class Interceptor {
    var lastCaptionUrl: Option<string>
    var captionTracks: Option<string>
    var lastUrl: string
    var posted: seq<Posted>

    function Current(): State
      reads this
    {
      State(lastCaptionUrl, captionTracks, lastUrl, posted)
    }

    /** The script starts with nothing remembered, at the page's URL. */
    constructor(href: string)
      ensures Current() == State(None, None, href, [])
    {
      lastCaptionUrl := None;
      captionTracks := None;
      lastUrl := href;
      posted := [];
    }

    method SendUrl(url: string)
      modifies this
      ensures Current() == SendCaptionUrl(old(Current()), url)
    {
      if lastCaptionUrl == Some(url) {
        return;
      }
      lastCaptionUrl := Some(url);
      posted := posted + [CaptionUrlPosted(url)];
    }

    method SendTracks(tracks: Option<seq<CaptionTrack>>, stringify: seq<CaptionTrack> -> string)
      modifies this
      ensures Current() == SendCaptionTracks(old(Current()), tracks, stringify)
    {
      if tracks.None? || tracks.value == [] {
        return;
      }
      var json := stringify(tracks.value);
      if captionTracks == Some(json) {
        return;
      }
      captionTracks := Some(json);
      posted := posted + [CaptionTracksPosted(tracks.value)];
    }

    method ExtractCaptionTracks(pr: PlayerResponse, stringify: seq<CaptionTrack> -> string)
      modifies this
      ensures Current() == ExtractTracks(old(Current()), pr, stringify)
    {
      if pr.captionTracks.Some? && pr.captionTracks.value != [] {
        var tracks := pr.captionTracks.value;
        SendTracks(Some(tracks), stringify);
        var preferred := PreferredTrack(tracks);
        if preferred.Some? && Truthy(preferred.value.baseUrl) {
          assert PreferredUrl(tracks) == preferred.value.baseUrl;
          SendUrl(preferred.value.baseUrl.value);
        }
      }
    }

    /** The `fetch` and `XMLHttpRequest.open` hooks; the request goes on unchanged. */
    method OnRequest(url: Option<string>) returns (forwarded: Option<string>)
      modifies this
      ensures forwarded == url
      ensures Current() == Request(old(Current()), url)
    {
      if url.Some? && Contains(url.value, TimedtextPath) {
        SendUrl(url.value);
      }
      forwarded := url;
    }

    /** One tick of the navigation timer. */
    method CheckNavigation(href: string, pr: Option<PlayerResponse>, stringify: seq<CaptionTrack> -> string)
      modifies this
      ensures Current() == Navigate(old(Current()), href, pr, stringify)
    {
      if href != lastUrl {
        lastUrl := href;
        lastCaptionUrl := None;
        captionTracks := None;
        if pr.Some? {
          ExtractCaptionTracks(pr.value, stringify);
        }
      }
    }
  }
}
