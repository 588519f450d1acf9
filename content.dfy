/**
 * The content script (browser-extension/content.js): it tracks the video of
 * the YouTube page it runs in, caches what the page script reports about
 * captions, and turns fetched captions into one normalised transcript.
 *
 * Fetching, `DOMParser` and `response.json()` are inputs: a caption
 * response is given as its status, its content type and the parts of its
 * body the code reads (the JSON3 `events`, the texts of the XML `<text>` and
 * `<p>` elements).
 */
module ContentScript {
  import opened Wrappers
  import opened JsString
  import opened CaptionTracks
  import Utils = ExtensionUtils

  // ---- Transcript normalisation ----

  /** The characters of `s` that are not white space, in order. */
  function StripWhitespace(s: string): string
    decreases |s|
  {
    if s == [] then [] else (if IsWhitespace(s[0]) then [] else [s[0]]) + StripWhitespace(s[1..])
  }

  lemma {:induction false} StripAppend(a: string, b: string)
    ensures StripWhitespace(a + b) == StripWhitespace(a) + StripWhitespace(b)
    decreases |a|
  {
    if a == [] {
      assert a + b == b;
    } else {
      assert (a + b)[0] == a[0];
      assert (a + b)[1..] == a[1..] + b;
      StripAppend(a[1..], b);
    }
  }

  lemma {:induction false} StripBlank(s: string)
    ensures Blank(s) <==> StripWhitespace(s) == []
    decreases |s|
  {
    if s != [] {
      StripBlank(s[1..]);
      if Blank(s) {
        assert Blank(s[1..]) by { forall i | 0 <= i < |s[1..]| ensures IsWhitespace(s[1..][i]) { assert s[1..][i] == s[i + 1]; } }
      } else if IsWhitespace(s[0]) {
        var i :| 0 <= i < |s| && !IsWhitespace(s[i]);
        assert s[1..][i - 1] == s[i];
      }
    }
  }

  /** Dropping leading white space keeps every other character. */
  lemma {:induction false} StripTrimStart(s: string)
    ensures StripWhitespace(TrimStart(s)) == StripWhitespace(s)
    decreases |s|
  {
    if |s| > 0 && IsWhitespace(s[0]) {
      StripTrimStart(s[1..]);
    }
  }

  /** `.replace(/\n/g, ' ')`. */
  function NewlinesToSpaces(s: string): (r: string)
    ensures |r| == |s| && '\n' !in r
    ensures forall i | 0 <= i < |s| && s[i] != '\n' :: r[i] == s[i]
    ensures StripWhitespace(r) == StripWhitespace(s)
    decreases |s|
  {
    if s == [] then []
    else
      var rest := NewlinesToSpaces(s[1..]);
      var r := [if s[0] == '\n' then ' ' else s[0]] + rest;
      assert r[1..] == rest;
      assert forall i | 1 <= i < |s| :: s[i] == s[1..][i - 1] && r[i] == rest[i - 1];
      r
  }

  /** No two neighbouring characters are both white space. */
  predicate NoDoubleWhitespace(s: string) {
    forall i, j | 0 <= i < |s| && 0 <= j < |s| && j == i + 1 :: !(IsWhitespace(s[i]) && IsWhitespace(s[j]))
  }

  /** The only white space left is the plain space. */
  predicate OnlySpaces(s: string) {
    forall i | 0 <= i < |s| :: IsWhitespace(s[i]) ==> s[i] == ' '
  }

  /** Putting `c` in front of a collapsed string keeps it collapsed, unless both are white space. */
  lemma ConsCollapsed(c: char, rest: string)
    requires OnlySpaces(rest) && NoDoubleWhitespace(rest)
    requires IsWhitespace(c) ==> c == ' ' && (rest == [] || !IsWhitespace(rest[0]))
    ensures OnlySpaces([c] + rest) && NoDoubleWhitespace([c] + rest)
    ensures StripWhitespace([c] + rest) == (if IsWhitespace(c) then [] else [c]) + StripWhitespace(rest)
  {
    var r := [c] + rest;
    assert r[1..] == rest;
    forall i | 1 <= i < |r| ensures r[i] == rest[i - 1] { }
    forall i, j | 0 <= i && j == i + 1 && j < |r| ensures !(IsWhitespace(r[i]) && IsWhitespace(r[j])) {
      if i > 0 {
        assert r[i] == rest[i - 1] && r[j] == rest[j - 1];
      }
    }
  }

  /** `.replace(/\s+/g, ' ')`: every maximal run of white space becomes one space. */
  function CollapseWhitespace(s: string): (r: string)
    ensures (r == []) <==> (s == [])
    ensures s != [] ==> r[0] == (if IsWhitespace(s[0]) then ' ' else s[0])
    ensures OnlySpaces(r) && NoDoubleWhitespace(r)
    ensures StripWhitespace(r) == StripWhitespace(s)
    decreases |s|
  {
    if s == [] then []
    else if IsWhitespace(s[0]) then
      var t := TrimStart(s);
      TrimStartShrinks(s);
      var rest := CollapseWhitespace(t);
      ConsCollapsed(' ', rest);
      StripTrimStart(s);
      [' '] + rest
    else
      var rest := CollapseWhitespace(s[1..]);
      ConsCollapsed(s[0], rest);
      [s[0]] + rest
  }

  /** The normalisation applied to every joined caption text. */
  function Normalize(s: string): string {
    Trim(CollapseWhitespace(NewlinesToSpaces(s)))
  }

  /** Trimming keeps the absence of newlines and of doubled white space, since it takes a slice. */
  lemma TrimKeepsShape(c: string)
    requires '\n' !in c && NoDoubleWhitespace(c)
    ensures '\n' !in Trim(c) && NoDoubleWhitespace(Trim(c))
  {
    var a, r := TrimSlice(c);
    SliceKeepsShape(c, a, r);
  }

  /** A slice keeps the absence of newlines and of doubled white space. */
  lemma SliceKeepsShape(c: string, a: nat, r: string)
    requires a + |r| <= |c| && r == c[a..a + |r|]
    requires '\n' !in c && NoDoubleWhitespace(c)
    ensures '\n' !in r && NoDoubleWhitespace(r)
  {
    forall i | 0 <= i < |r| ensures r[i] != '\n' {
      assert r[i] == c[a + i];
    }
    forall i, j | 0 <= i && j == i + 1 && j < |r| ensures !(IsWhitespace(r[i]) && IsWhitespace(r[j])) {
      assert r[i] == c[a + i] && r[j] == c[a + j];
    }
  }

  /** Blank text around `y` contributes nothing. */
  lemma StripAround(x: string, y: string, z: string)
    requires Blank(x) && Blank(z)
    ensures StripWhitespace(x + y + z) == StripWhitespace(y)
  {
    StripAppend(x + y, z);
    StripAppend(x, y);
    StripBlank(x);
    StripBlank(z);
  }

  /** Trimming removes white space only. */
  lemma TrimKeepsText(c: string)
    ensures StripWhitespace(Trim(c)) == StripWhitespace(c)
  {
    var a, r := TrimSlice(c);
    BlankAroundSlice(c, a, r);
  }

  /** A slice with only white space around it keeps all the other characters. */
  lemma BlankAroundSlice(c: string, a: nat, r: string)
    requires a + |r| <= |c| && r == c[a..a + |r|]
    requires Blank(c[..a]) && Blank(c[a + |r|..])
    ensures StripWhitespace(r) == StripWhitespace(c)
  {
    var b := a + |r|;
    assert c == c[..a] + r + c[b..];
    StripAround(c[..a], r, c[b..]);
  }

  /** Only spaces inside a collapsed string are not newlines. */
  lemma OnlySpacesNoNewline(c: string)
    requires OnlySpaces(c)
    ensures '\n' !in c
  {
    forall i | 0 <= i < |c| ensures c[i] != '\n' {
      if c[i] == '\n' { assert IsWhitespace(c[i]); }
    }
  }

  /**
   * A normalised transcript has no newline, no two neighbouring white-space
   * characters and no white space at either end; it keeps every other
   * character in order, so it is empty exactly when the input was blank.
   */
  lemma NormalizedShape(s: string)
    ensures var r := Normalize(s);
      '\n' !in r && NoDoubleWhitespace(r) && (r == [] || (!IsWhitespace(r[0]) && !IsWhitespace(r[|r| - 1])))
      && StripWhitespace(r) == StripWhitespace(s)
      && (r == [] <==> Blank(s))
  {
    var c := CollapseWhitespace(NewlinesToSpaces(s));
    var r := Normalize(s);
    assert r == [] || (!IsWhitespace(r[0]) && !IsWhitespace(r[|r| - 1])) by {
      assert r == Trim(c);
    }
    assert '\n' !in r && NoDoubleWhitespace(r) by {
      OnlySpacesNoNewline(c);
      TrimKeepsShape(c);
    }
    assert StripWhitespace(r) == StripWhitespace(s) by {
      TrimKeepsText(c);
    }
    SameTextBlank(r, s);
  }

  /** Two strings with the same non-white-space characters are blank together. */
  lemma SameTextBlank(r: string, s: string)
    requires StripWhitespace(r) == StripWhitespace(s)
    ensures Blank(r) <==> Blank(s)
  {
    StripBlank(r);
    StripBlank(s);
  }

  // ---- Caption documents ----

  /** One segment of a JSON3 caption event; `utf8` may be missing. */
  datatype Segment = Segment(utf8: Option<string>)

  /** One JSON3 caption event; `segs` may be missing. */
  datatype Json3Event = Json3Event(segs: Option<seq<Segment>>)

  /** `event.segs.map(seg => seg.utf8 || '').join('')`. */
  function SegmentsText(segs: seq<Segment>): (r: string)
    decreases |segs|
  {
    if segs == [] then "" else SegmentsText(segs[..|segs| - 1]) + OrElse(segs[|segs| - 1].utf8, "")
  }

  /** `events.filter(event => event.segs).map(...)`: one text per event that has segments. */
  function EventTexts(events: seq<Json3Event>): (r: seq<string>)
    ensures |r| <= |events|
    decreases |events|
  {
    if events == [] then []
    else
      (match events[0].segs case Some(segs) => [SegmentsText(segs)] case None => [])
      + EventTexts(events[1..])
  }

  /** Events without segments contribute nothing, wherever they sit. */
  lemma {:induction false} EventTextsSkipsBare(a: seq<Json3Event>, b: seq<Json3Event>)
    ensures EventTexts(a + [Json3Event(None)] + b) == EventTexts(a + b)
    decreases |a|
  {
    if a == [] {
      var e := [Json3Event(None)] + b;
      assert a + [Json3Event(None)] + b == e;
      assert e[0].segs.None? && e[1..] == b;
      assert a + b == b;
    } else {
      assert (a + [Json3Event(None)] + b)[1..] == a[1..] + [Json3Event(None)] + b;
      assert (a + b)[1..] == a[1..] + b;
      EventTextsSkipsBare(a[1..], b);
    }
  }

  const NoJsonTranscript := "No transcript data in JSON format"
  const NoTextFound := "No text found in captions"
  const FetchFailed := "Failed to fetch caption data"

  /**
   * The JSON3 branch: event texts joined with a space and normalised; a
   * missing `events` field, or a transcript that normalises to nothing, is
   * an error.
   */
  function Json3Transcript(events: Option<seq<Json3Event>>): (r: Result<string, string>)
    ensures events.None? ==> r == Err(NoJsonTranscript)
    ensures events.Some? ==> (r.Ok? <==> !Blank(Join(EventTexts(events.value), " ")))
    ensures r.Ok? ==> r.value == Normalize(Join(EventTexts(events.value), " ")) && r.value != ""
    ensures r.Err? ==> r.error == NoJsonTranscript
  {
    match events
    case None => Err(NoJsonTranscript)
    case Some(evs) =>
      var joined := Join(EventTexts(evs), " ");
      NormalizedShape(joined);
      var t := Normalize(joined);
      if t != "" then Ok(t) else Err(NoJsonTranscript)
  }

  /**
   * The XML branch: the `<text>` elements' contents joined and normalised;
   * when there are none, the `<p>` elements' contents if that fallback is
   * taken and there are some, and otherwise an error.  Neither branch
   * rejects a transcript that normalises to nothing.
   */
  function XmlTranscript(texts: seq<string>, paragraphs: seq<string>, paragraphFallback: bool): (r: Result<string, string>)
    ensures texts != [] ==> r == Ok(Normalize(Join(texts, " ")))
    ensures texts == [] && paragraphFallback && paragraphs != [] ==> r == Ok(Normalize(Join(paragraphs, " ")))
    ensures texts == [] && !(paragraphFallback && paragraphs != []) ==> r == Err(NoTextFound)
  {
    if texts == [] then
      if paragraphFallback && paragraphs != [] then Ok(Normalize(Join(paragraphs, " "))) else Err(NoTextFound)
    else Ok(Normalize(Join(texts, " ")))
  }

  /**
   * What `await response.json()` and the read of `jsonData.events` give: the
   * `events` field (`None` when missing), or the message of what they throw,
   * a `SyntaxError` for a body that is not JSON or a `TypeError` for `null`.
   */
  datatype JsonBody = Parsed(events: Option<seq<Json3Event>>) | Throws(message: string)

  /** What `fetch` yields for a caption URL, as far as the script reads it. */
  datatype CaptionResponse = CaptionResponse(
    ok: bool,
    contentType: Option<string>,
    json: JsonBody,
    xmlTexts: seq<string>,
    xmlParagraphs: seq<string>)

  const JsonContentType := "application/json"

  /** A caption URL the page script intercepted: JSON3 when the content type says JSON, otherwise XML with the `<p>` fallback. */
  function FromInterceptedUrl(resp: CaptionResponse): (r: Result<string, string>)
    ensures !resp.ok ==> r == Err(FetchFailed)
    ensures resp.ok && Truthy(resp.contentType) && Contains(resp.contentType.value, JsonContentType) && resp.json.Parsed?
      ==> r == Json3Transcript(resp.json.events)
    ensures resp.ok && Truthy(resp.contentType) && Contains(resp.contentType.value, JsonContentType) && resp.json.Throws?
      ==> r == Err(resp.json.message)
    ensures resp.ok && !(Truthy(resp.contentType) && Contains(resp.contentType.value, JsonContentType))
      ==> r == XmlTranscript(resp.xmlTexts, resp.xmlParagraphs, true)
  {
    if !resp.ok then Err(FetchFailed)
    else if Truthy(resp.contentType) && Contains(resp.contentType.value, JsonContentType) then
      match resp.json
      case Parsed(events) => Json3Transcript(events)
      case Throws(m) => Err(m)
    else XmlTranscript(resp.xmlTexts, resp.xmlParagraphs, true)
  }

  /** A cached track's `baseUrl`: always read as XML, without the `<p>` fallback. */
  function FromTrack(resp: CaptionResponse): (r: Result<string, string>)
    ensures !resp.ok ==> r == Err(FetchFailed)
    ensures resp.ok ==> r == XmlTranscript(resp.xmlTexts, resp.xmlParagraphs, false)
  {
    if !resp.ok then Err(FetchFailed) else XmlTranscript(resp.xmlTexts, resp.xmlParagraphs, false)
  }

  // ---- The caption cache ----

  /** `cachedCaptionData`; every field may be absent. */
  datatype CaptionCache = CaptionCache(
    videoId: Option<string>,
    captionUrl: Option<string>,
    captionTracks: Option<seq<CaptionTrack>>,
    timestamp: Option<int>)

  /** `{ ...null }`. */
  const EmptyCache := CaptionCache(None, None, None, None)

  function Base(cache: Option<CaptionCache>): CaptionCache {
    if cache.Some? then cache.value else EmptyCache
  }

  /** `{ ...cachedCaptionData, videoId, captionUrl, timestamp }`. */
  function MergeUrl(cache: Option<CaptionCache>, videoId: string, url: string, now: int): (r: CaptionCache)
    ensures r.videoId == Some(videoId) && r.captionUrl == Some(url) && r.timestamp == Some(now)
    ensures r.captionTracks == Base(cache).captionTracks
  {
    Base(cache).(videoId := Some(videoId), captionUrl := Some(url), timestamp := Some(now))
  }

  /** `{ ...cachedCaptionData, videoId, captionTracks, timestamp }`. */
  function MergeTracks(cache: Option<CaptionCache>, videoId: string, tracks: seq<CaptionTrack>, now: int): (r: CaptionCache)
    ensures r.videoId == Some(videoId) && r.captionTracks == Some(tracks) && r.timestamp == Some(now)
    ensures r.captionUrl == Base(cache).captionUrl
  {
    Base(cache).(videoId := Some(videoId), captionTracks := Some(tracks), timestamp := Some(now))
  }

  const NoCaptionHead := "No caption data available - "
  const PleaseWait := "please wait"
  const NoCaptionData := NoCaptionHead + PleaseWait + " for captions to load or play the video"
  /** The `message` of the TypeError that reading `languageCode` of the `undefined` first track of an empty list throws. */
  const NoTrackError := "Cannot read properties of undefined (reading 'languageCode')"

  /** The URL `fetch` is given for a track; `undefined` becomes the text "undefined". */
  function TrackUrl(t: CaptionTrack): string {
    match t.baseUrl case Some(u) => u case None => "undefined"
  }

  /** The cache entry is usable for `videoId` only when it was recorded for that video. */
  predicate CachedFor(cache: Option<CaptionCache>, videoId: Option<string>) {
    cache.Some? && cache.value.videoId == videoId
  }

  /**
   * `extractCaptionsFromPage(videoId)`: the intercepted URL first, then the
   * preferred cached track, both only when the cache belongs to `videoId`;
   * otherwise the "please wait" error.
   */
  function ExtractCaptionsFromPage(videoId: Option<string>, cache: Option<CaptionCache>, fetch: string -> CaptionResponse): (r: Result<string, string>)
    ensures CachedFor(cache, videoId) && Truthy(cache.value.captionUrl)
      ==> r == FromInterceptedUrl(fetch(cache.value.captionUrl.value))
    ensures CachedFor(cache, videoId) && !Truthy(cache.value.captionUrl) && cache.value.captionTracks.Some?
      ==> r == (match PreferredTrack(cache.value.captionTracks.value)
                case Some(t) => FromTrack(fetch(TrackUrl(t)))
                case None => Err(NoTrackError))
    ensures !(CachedFor(cache, videoId) && (Truthy(cache.value.captionUrl) || cache.value.captionTracks.Some?))
      ==> r == Err(NoCaptionData)
  {
    if CachedFor(cache, videoId) && Truthy(cache.value.captionUrl) then
      FromInterceptedUrl(fetch(cache.value.captionUrl.value))
    else if CachedFor(cache, videoId) && cache.value.captionTracks.Some? then
      match PreferredTrack(cache.value.captionTracks.value)
      case Some(t) => FromTrack(fetch(TrackUrl(t)))
      case None => Err(NoTrackError)
    else Err(NoCaptionData)
  }

  /** An empty track list cached for the video, with no URL beside it, fails with the TypeError of reading its missing first track. */
  lemma EmptyTracksThrow(cache: CaptionCache, videoId: Option<string>, fetch: string -> CaptionResponse)
    requires cache.videoId == videoId && !Truthy(cache.captionUrl) && cache.captionTracks == Some([])
    ensures ExtractCaptionsFromPage(videoId, Some(cache), fetch) == Err(NoTrackError)
  {
    assert PreferredTrack([]).None?;
  }

  /** A JSON caption body that `response.json()` cannot read is reported with that error's message, not as a missing transcript. */
  lemma UnreadableJsonReported(cache: CaptionCache, videoId: Option<string>, fetch: string -> CaptionResponse, message: string)
    requires cache.videoId == videoId && Truthy(cache.captionUrl)
    requires var resp := fetch(cache.captionUrl.value);
      resp.ok && Truthy(resp.contentType) && Contains(resp.contentType.value, JsonContentType) && resp.json == Throws(message)
    ensures ExtractCaptionsFromPage(videoId, Some(cache), fetch) == Err(message)
  {
  }

  /** The missing-cache error tells the user to wait. */
  lemma NoCaptionDataSaysWait()
    ensures Contains(NoCaptionData, PleaseWait)
  {
    ContainsBetween(NoCaptionHead, PleaseWait, " for captions to load or play the video");
  }

  /** A URL cached for one video serves that video's request, whatever else the cache held. */
  lemma CachedUrlServes(cache: Option<CaptionCache>, v: string, url: string, now: int, fetch: string -> CaptionResponse)
    requires url != ""
    ensures ExtractCaptionsFromPage(Some(v), Some(MergeUrl(cache, v, url, now)), fetch) == FromInterceptedUrl(fetch(url))
  {
  }

  /** Caching tracks later does not displace a cached URL. */
  lemma TracksKeepCachedUrl(cache: Option<CaptionCache>, v: string, url: string, tracks: seq<CaptionTrack>, t1: int, t2: int, fetch: string -> CaptionResponse)
    requires url != ""
    ensures var c := MergeTracks(Some(MergeUrl(cache, v, url, t1)), v, tracks, t2);
      ExtractCaptionsFromPage(Some(v), Some(c), fetch) == FromInterceptedUrl(fetch(url))
  {
  }

  /** A cache recorded for another video is never used. */
  lemma OtherVideoWaits(cache: Option<CaptionCache>, v: string, w: string, url: string, now: int, fetch: string -> CaptionResponse)
    requires v != w
    ensures ExtractCaptionsFromPage(Some(w), Some(MergeUrl(cache, v, url, now)), fetch) == Err(NoCaptionData)
  {
  }

  // ---- Messages ----

  /** The `VIDEO_DETECTED` message sent to the service worker. */
  datatype VideoDetected = VideoDetected(videoId: Option<string>, videoUrl: string)

  /** The reply to `GET_CURRENT_VIDEO`. */
  datatype CurrentVideo = CurrentVideo(videoId: Option<string>, videoUrl: Option<string>)

  /** The `GET_CURRENT_VIDEO` reply: the page URL is given only alongside a detected id. */
  function CurrentVideoReply(href: string): (r: CurrentVideo)
    ensures r.videoId == Utils.ExtractVideoId(Some(href))
    ensures r.videoUrl.None? <==> r.videoId.None?
    ensures r.videoUrl.Some? ==> r.videoUrl.value == href
  {
    var id := Utils.ExtractVideoId(Some(href));
    CurrentVideo(id, if id.Some? then Some(href) else None)
  }

  /** A `window.postMessage` event as the listener reads it. */
  datatype PageMessage = PageMessage(
    fromThisWindow: bool,
    messageType: string,
    source: string,
    url: Option<string>,
    tracks: Option<seq<CaptionTrack>>)

  const CaptionUrlType := "YOUTUBE_CAPTION_URL"
  const CaptionTracksType := "YOUTUBE_CAPTION_TRACKS"
  const InjectedSource := "youtube-to-blog-injected"

  /** The cache after one page message, seen while the page is at `href`. */
  function CacheAfter(cache: Option<CaptionCache>, msg: PageMessage, href: string, now: int): Option<CaptionCache> {
    var id := Utils.ExtractVideoId(Some(href));
    if !msg.fromThisWindow || msg.source != InjectedSource || id.None? then cache
    else if msg.messageType == CaptionUrlType && Truthy(msg.url) then Some(MergeUrl(cache, id.value, msg.url.value, now))
    else if msg.messageType == CaptionTracksType && msg.tracks.Some? then Some(MergeTracks(cache, id.value, msg.tracks.value, now))
    else cache
  }

  /** Only a caption message from the page script, on a video page, touches the cache, and then only for the current video. */
  lemma CacheFollowsPage(cache: Option<CaptionCache>, msg: PageMessage, href: string, now: int)
    ensures var c := CacheAfter(cache, msg, href, now);
      c != cache ==> (msg.fromThisWindow && msg.source == InjectedSource
        && c.Some? && c.value.videoId == Utils.ExtractVideoId(Some(href)) && c.value.videoId.Some?)
  {
  }

  /** The content script's module-level state and the messages it has sent. */
  class ContentState {
    var currentVideoId: Option<string>
    var cachedCaptionData: Option<CaptionCache>
    var sent: seq<VideoDetected>

    constructor()
      ensures currentVideoId == None && cachedCaptionData == None && sent == []
    {
      currentVideoId := None;
      cachedCaptionData := None;
      sent := [];
    }

    /**
     * `detectAndSendVideoInfo()` with the page at `href`: a newly detected
     * id is recorded and announced; losing the id clears it and the cache
     * and announces a null id; otherwise nothing happens.
     */
    method DetectAndSendVideoInfo(href: string)
      modifies this
      ensures var id := Utils.ExtractVideoId(Some(href));
        if id.Some? && id != old(currentVideoId) then
          currentVideoId == id && cachedCaptionData == old(cachedCaptionData)
          && sent == old(sent) + [VideoDetected(id, href)]
        else if id.None? && old(currentVideoId).Some? then
          currentVideoId == None && cachedCaptionData == None
          && sent == old(sent) + [VideoDetected(None, href)]
        else
          currentVideoId == old(currentVideoId) && cachedCaptionData == old(cachedCaptionData) && sent == old(sent)
      ensures currentVideoId == Utils.ExtractVideoId(Some(href))
    {
      var id := Utils.ExtractVideoId(Some(href));
      if id.Some? && id != currentVideoId {
        currentVideoId := id;
        sent := sent + [VideoDetected(id, href)];
      } else if id.None? && currentVideoId.Some? {
        currentVideoId := None;
        cachedCaptionData := None;
        sent := sent + [VideoDetected(None, href)];
      }
    }

    /** The page-message listener: caches what the page script reports about the current video. */
    method OnPageMessage(msg: PageMessage, href: string, now: int)
      modifies this
      ensures cachedCaptionData == CacheAfter(old(cachedCaptionData), msg, href, now)
      ensures currentVideoId == old(currentVideoId) && sent == old(sent)
    {
      var id := Utils.ExtractVideoId(Some(href));
      if msg.fromThisWindow && msg.source == InjectedSource && id.Some? {
        if msg.messageType == CaptionUrlType && Truthy(msg.url) {
          cachedCaptionData := Some(MergeUrl(cachedCaptionData, id.value, msg.url.value, now));
        }
        if msg.messageType == CaptionTracksType && msg.tracks.Some? {
          cachedCaptionData := Some(MergeTracks(cachedCaptionData, id.value, msg.tracks.value, now));
        }
      }
    }

    /** The `EXTRACT_CAPTIONS` request, answered from the current cache. */
    function ExtractCaptions(videoId: Option<string>, fetch: string -> CaptionResponse): (r: Result<string, string>)
      reads this
      ensures !CachedFor(cachedCaptionData, videoId) ==> r == Err(NoCaptionData)
    {
      ExtractCaptionsFromPage(videoId, cachedCaptionData, fetch)
    }
  }
}
