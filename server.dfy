/**
 * The Express server (server.js): its loose video-id extractor, the
 * `/api/transcript` decision chain, and the `/api/generate` handler with its
 * validation order and its event-stream framing of the adapter's output.
 */
module Server {
  import opened Wrappers
  import opened JsString
  import AIProviderBase
  import ProviderRegistry
  import ServerSentEvents

  // ---------------------------------------------------------------------
  // extractVideoId (loose)

  const WatchMarker := "youtube.com/watch?v="
  const ShortMarker := "youtu.be/"
  const EmbedMarker := "youtube.com/embed/"

  /** `[^\&\n?#]`: the characters the capture group takes. */
  predicate CaptureChar(c: char) {
    c != '&' && c != '\n' && c != '?' && c != '#'
  }

  /** `[a-zA-Z0-9_-]`. */
  predicate IdChar(c: char) {
    'a' <= c <= 'z' || 'A' <= c <= 'Z' || '0' <= c <= '9' || c == '_' || c == '-'
  }

  /** The length of the marker alternative that matches at `p`, or 0 when none does. */
  function MarkerLength(s: string, p: nat): (n: nat)
    ensures n == 0 || (n == |WatchMarker| && ContainsAt(s, WatchMarker, p))
                   || (n == |ShortMarker| && ContainsAt(s, ShortMarker, p))
                   || (n == |EmbedMarker| && ContainsAt(s, EmbedMarker, p))
    ensures n == 0 ==> !ContainsAt(s, WatchMarker, p) && !ContainsAt(s, ShortMarker, p) && !ContainsAt(s, EmbedMarker, p)
  {
    if ContainsAt(s, WatchMarker, p) then |WatchMarker|
    else if ContainsAt(s, ShortMarker, p) then |ShortMarker|
    else if ContainsAt(s, EmbedMarker, p) then |EmbedMarker|
    else 0
  }

  /** The first pattern matches at `p`: a marker followed by at least one capture character. */
  predicate MatchesAt(s: string, p: nat) {
    var n := MarkerLength(s, p);
    n > 0 && p + n < |s| && CaptureChar(s[p + n])
  }

  /** `([^\&\n?#]+)` from `i`: the longest run of capture characters. */
  function Capture(s: string, i: nat): (r: string)
    requires i <= |s|
    ensures i + |r| <= |s| && r == s[i..i + |r|]
    ensures forall k | 0 <= k < |r| :: CaptureChar(r[k])
    ensures i + |r| == |s| || !CaptureChar(s[i + |r|])
    decreases |s| - i
  {
    if i < |s| && CaptureChar(s[i]) then [s[i]] + Capture(s, i + 1) else []
  }

  /** The leftmost match of the first pattern at or after `p`, as its capture. */
  function SearchFrom(s: string, p: nat): (r: Option<string>)
    requires p <= |s|
    ensures r.None? <==> forall q | p <= q < |s| :: !MatchesAt(s, q)
    ensures r.Some? ==> r.value != [] && forall k | 0 <= k < |r.value| :: CaptureChar(r.value[k])
    decreases |s| - p
  {
    if p == |s| then None
    else if MatchesAt(s, p) then
      var n := MarkerLength(s, p);
      Some(Capture(s, p + n))
    else SearchFrom(s, p + 1)
  }

  /** The second pattern, `^([a-zA-Z0-9_-]{11})$`. */
  predicate IsBareId(s: string) {
    |s| == 11 && forall k | 0 <= k < |s| :: IdChar(s[k])
  }

  /**
   * `extractVideoId(url)`: the first pattern anywhere in the text, else the
   * whole text when it is exactly an 11-character id. The capture has no
   * length limit.
   */
  function ExtractVideoId(url: string): (r: Option<string>)
    ensures r.Some? ==> r.value != [] && forall k | 0 <= k < |r.value| :: CaptureChar(r.value[k])
    ensures r.None? <==> (forall q | 0 <= q < |url| :: !MatchesAt(url, q)) && !IsBareId(url)
    ensures (forall q | 0 <= q < |url| :: !MatchesAt(url, q)) && IsBareId(url) ==> r == Some(url)
  {
    match SearchFrom(url, 0)
    case Some(id) => Some(id)
    case None => if IsBareId(url) then Some(url) else None
  }

  /** A short link captures everything after `youtu.be/`, whatever its length, up to the first `&`, `?`, `#` or newline. */
  lemma ShortLinkCapture(id: string, rest: string)
    requires id != [] && forall k | 0 <= k < |id| :: CaptureChar(id[k])
    requires rest == [] || !CaptureChar(rest[0])
    ensures ExtractVideoId(ShortMarker + id + rest) == Some(id)
  {
    var s := ShortMarker + id + rest;
    assert ContainsAt(s, ShortMarker, 0) by {
      assert s[..|ShortMarker|] == ShortMarker;
    }
    assert !ContainsAt(s, WatchMarker, 0) by {
      assert s[5] == '.' && WatchMarker[5] == 'b';
    }
    assert s[|ShortMarker|] == id[0];
    assert MatchesAt(s, 0);
    CaptureIs(s, |ShortMarker|, id);
  }

  /** The capture from `i` is `id` when `id` sits there and is not followed by a capture character. */
  lemma {:induction false} CaptureIs(s: string, i: nat, id: string)
    requires i + |id| <= |s| && s[i..i + |id|] == id
    requires forall k | 0 <= k < |id| :: CaptureChar(id[k])
    requires i + |id| == |s| || !CaptureChar(s[i + |id|])
    ensures Capture(s, i) == id
    decreases |id|
  {
    if id == [] {
    } else {
      assert s[i] == id[0];
      assert s[i + 1..i + 1 + |id[1..]|] == id[1..];
      CaptureIs(s, i + 1, id[1..]);
    }
  }

  // ---------------------------------------------------------------------
  // /api/transcript

  /** One transcript segment; `offset` is a JSON number. */
  datatype Segment = Segment(text: string, offset: real)

  /** What `YoutubeTranscript.fetchTranscript` gave: the segments, or the message of the error it threw. */
  datatype TranscriptFetch = Fetched(segments: seq<Segment>) | FetchThrew(message: string)

  /** The arguments of the transcript fetch: the id and `{ lang }` only when a language was asked for. */
  datatype TranscriptQuery = TranscriptQuery(videoId: string, lang: Option<string>)

  datatype TranscriptReply =
    | TranscriptOk(videoId: string, transcript: string, segments: seq<Segment>, duration: real)
    | TranscriptFailed(status: nat, error: string, message: string)

  const MissingIdError := "缺少視頻 ID"
  const MissingIdMessage := "請提供有效的 YouTube 視頻 ID 或 URL"
  const InvalidUrlError := "無效的 YouTube URL"
  const InvalidUrlMessage := "無法從提供的 URL 中提取視頻 ID"
  const NoTranscriptError := "未找到文字稿"
  const NoTranscriptMessage := "此視頻沒有可用的文字稿"
  const DisabledError := "文字稿已停用"
  const DisabledMessage := "此視頻的文字稿功能已被停用"
  const ServerError := "服務器錯誤"
  const UnknownTranscriptError := "獲取文字稿時發生未知錯誤"

  /** `transcript.map(item => item.text)`. */
  function Texts(segments: seq<Segment>): (r: seq<string>)
    ensures |r| == |segments| && forall k | 0 <= k < |r| :: r[k] == segments[k].text
  {
    seq(|segments|, k requires 0 <= k < |segments| => segments[k].text)
  }

  /**
   * The `/api/transcript` handler: the query it fetches with, if it gets that
   * far, and its reply. `fetched` is what the fetch would give.
   */
  function TranscriptRoute(videoId: Option<string>, language: Option<string>, fetched: TranscriptFetch): (r: (Option<TranscriptQuery>, TranscriptReply))
    ensures !Truthy(videoId) ==> r == (None, TranscriptFailed(400, MissingIdError, MissingIdMessage))
    ensures Truthy(videoId) && ExtractVideoId(videoId.value).None? ==> r == (None, TranscriptFailed(400, InvalidUrlError, InvalidUrlMessage))
    ensures r.0.Some? <==> Truthy(videoId) && ExtractVideoId(videoId.value).Some?
    ensures r.0.Some? ==> r.0.value == TranscriptQuery(ExtractVideoId(videoId.value).value, if Truthy(language) then language else None)
    ensures r.0.Some? && fetched == Fetched([]) ==> r.1 == TranscriptFailed(404, NoTranscriptError, NoTranscriptMessage)
    ensures r.0.Some? && fetched.Fetched? && fetched.segments != [] ==>
      r.1 == TranscriptOk(r.0.value.videoId, Join(Texts(fetched.segments), " "), fetched.segments, fetched.segments[|fetched.segments| - 1].offset)
    ensures r.0.Some? && fetched.FetchThrew? ==>
      r.1 == if Contains(fetched.message, "disabled") then TranscriptFailed(403, DisabledError, DisabledMessage)
             else TranscriptFailed(500, ServerError, OrElse(Some(fetched.message), UnknownTranscriptError))
    ensures r.1.TranscriptFailed? ==> r.1.status in {400, 403, 404, 500}
  {
    if !Truthy(videoId) then (None, TranscriptFailed(400, MissingIdError, MissingIdMessage))
    else match ExtractVideoId(videoId.value)
      case None => (None, TranscriptFailed(400, InvalidUrlError, InvalidUrlMessage))
      case Some(id) =>
        var query := TranscriptQuery(id, if Truthy(language) then language else None);
        match fetched
        case FetchThrew(m) =>
          if Contains(m, "disabled") then (Some(query), TranscriptFailed(403, DisabledError, DisabledMessage))
          else (Some(query), TranscriptFailed(500, ServerError, OrElse(Some(m), UnknownTranscriptError)))
        case Fetched(segments) =>
          if |segments| == 0 then (Some(query), TranscriptFailed(404, NoTranscriptError, NoTranscriptMessage))
          else (Some(query), TranscriptOk(id, Join(Texts(segments), " "), segments, segments[|segments| - 1].offset))
  }

  /** The joined transcript splits back into the segment texts when none of them holds a space. */
  lemma TranscriptSplitsBack(segments: seq<Segment>)
    requires forall k | 0 <= k < |segments| :: ' ' !in segments[k].text
    ensures |segments| > 0 ==> Split(Join(Texts(segments), " "), ' ') == Texts(segments)
  {
    if |segments| > 0 {
      SplitJoin(Texts(segments), ' ');
    }
  }

  /** Splitting a join on its separator gives back the parts, when no part holds the separator. */
  lemma {:induction false} SplitJoin(parts: seq<string>, sep: char)
    requires |parts| > 0 && forall k | 0 <= k < |parts| :: sep !in parts[k]
    ensures Split(Join(parts, [sep]), sep) == parts
    decreases |parts|, |parts[0]|
  {
    if |parts[0]| == 0 {
      if |parts| > 1 {
        var rest := parts[1..];
        JoinEmptyHead(parts, sep);
        SplitAfterSeparator(Join(rest, [sep]), sep);
        SplitJoin(rest, sep);
        assert [""] + rest == parts;
      }
    } else {
      var c := parts[0][0];
      var parts' := [parts[0][1..]] + parts[1..];
      JoinHeadChar(parts, sep);
      PeeledHasNoSeparator(parts, sep);
      SplitJoin(parts', sep);
      SplitAfterChar(c, Join(parts', [sep]), sep);
      assert [[c] + parts'[0]] + parts'[1..] == parts by {
        assert [c] + parts'[0] == parts[0];
      }
    }
  }

  /** A join whose first part is empty starts with the separator. */
  lemma JoinEmptyHead(parts: seq<string>, sep: char)
    requires |parts| > 1 && parts[0] == ""
    ensures Join(parts, [sep]) == [sep] + Join(parts[1..], [sep])
  {
  }

  /** A join whose first part is not empty starts with that part's first character. */
  lemma JoinHeadChar(parts: seq<string>, sep: char)
    requires |parts| > 0 && |parts[0]| > 0
    ensures Join(parts, [sep]) == [parts[0][0]] + Join([parts[0][1..]] + parts[1..], [sep])
  {
    var parts' := [parts[0][1..]] + parts[1..];
    assert parts'[1..] == parts[1..];
    assert parts[0] == [parts[0][0]] + parts[0][1..];
    if |parts| > 1 {
      assert Join(parts', [sep]) == parts[0][1..] + [sep] + Join(parts[1..], [sep]);
    }
  }

  /** Dropping the first character of the first part keeps every part free of the separator. */
  lemma PeeledHasNoSeparator(parts: seq<string>, sep: char)
    requires |parts| > 0 && |parts[0]| > 0 && forall k | 0 <= k < |parts| :: sep !in parts[k]
    ensures forall k | 0 <= k < |[parts[0][1..]] + parts[1..]| :: sep !in ([parts[0][1..]] + parts[1..])[k]
  {
    var parts' := [parts[0][1..]] + parts[1..];
    assert parts'[0] == parts[0][1..];
    assert forall k | 1 <= k < |parts'| :: parts'[k] == parts[k];
  }

  /** Splitting text that starts with the separator gives an empty first piece. */
  lemma SplitAfterSeparator(s: string, sep: char)
    ensures Split([sep] + s, sep) == [""] + Split(s, sep)
  {
    assert ([sep] + s)[1..] == s;
  }

  /** Splitting text that starts with another character puts it in front of the first piece. */
  lemma SplitAfterChar(c: char, s: string, sep: char)
    requires c != sep
    ensures Split([c] + s, sep) == [[c] + Split(s, sep)[0]] + Split(s, sep)[1..]
  {
    assert ([c] + s)[1..] == s;
  }

  // ---------------------------------------------------------------------
  // /api/generate

  /** The JSON bodies the handler sends with `res.json`. */
  datatype Reply =
    | ErrorReply(error: string, message: Option<string>)
    | ArticleReply(article: string, provider: string, model: string)

  /** The three events of the stream; `encode` stands for `JSON.stringify` of each. */
  datatype ServerEvent = ChunkEvent(chunk: string) | DoneEvent(result: string) | ErrorEvent(message: string)

  /** `data: ${JSON.stringify(event)}\n\n`. */
  function Frame(json: string): string {
    ServerSentEvents.DataPrefix + json + "\n\n"
  }

  /** The frames of a run of events, in order. */
  function Frames(events: seq<ServerEvent>, encode: ServerEvent -> string): (r: seq<string>)
    ensures |r| == |events| && forall k | 0 <= k < |r| :: r[k] == Frame(encode(events[k]))
  {
    seq(|events|, k requires 0 <= k < |events| => Frame(encode(events[k])))
  }

  /** The chunk events of the `onStream` calls, in order. */
  function ChunkEvents(calls: seq<string>): (r: seq<ServerEvent>)
    ensures |r| == |calls| && forall k | 0 <= k < |r| :: r[k] == ChunkEvent(calls[k])
  {
    seq(|calls|, k requires 0 <= k < |calls| => ChunkEvent(calls[k]))
  }

  /**
   * The Express response the handler writes to: its status, whether headers
   * went out, the pieces written with `res.write`, the JSON body, and whether
   * it has ended.
   */
  class Response {
    var statusCode: nat
    var headersSent: bool
    var written: seq<string>
    var body: Option<Reply>
    var ended: bool

    constructor ()
      ensures statusCode == 200 && !headersSent && written == [] && body.None? && !ended
    {
      statusCode, headersSent, written, body, ended := 200, false, [], None, false;
    }

    /** `res.write(piece)`: the first write also sends the headers. */
    method Write(piece: string)
      modifies this
      ensures written == old(written) + [piece] && headersSent
      ensures statusCode == old(statusCode) && body == old(body) && ended == old(ended)
    {
      written := written + [piece];
      headersSent := true;
    }

    /** `res.end()`. */
    method End()
      modifies this
      ensures ended && headersSent
      ensures statusCode == old(statusCode) && written == old(written) && body == old(body)
    {
      ended, headersSent := true, true;
    }

    /** `res.status(status).json(reply)`. */
    method Send(status: nat, reply: Reply)
      modifies this
      ensures statusCode == status && body == Some(reply) && headersSent && ended
      ensures written == old(written)
    {
      statusCode, body, headersSent, ended := status, Some(reply), true, true;
    }
  }

  /** `req.body`; `None` is a field that is absent. */
  datatype GenerateBody = GenerateBody(
    transcript: Option<string>, provider: Option<string>, apiKey: Option<string>, modelName: Option<string>,
    language: Option<string>, style: Option<string>, stream: bool)

  /** What the adapter did: the arguments it passed to `onStream`, and what it returned or threw. */
  datatype AdapterRun = AdapterRun(calls: seq<string>, result: Result<string, string>)

  const MissingTranscript := "缺少文字稿內容"
  const MissingApiKey := "缺少 API 密鑰"
  const GenerateFailed := "生成失敗"
  const DefaultProvider := "gemini"

  /** A destructuring default: it applies only to an absent field. */
  function Default(field: Option<string>, d: string): (r: string)
    ensures field.Some? ==> r == field.value
    ensures field.None? ==> r == d
  {
    if field.Some? then field.value else d
  }

  /**
   * The events of a stream that got under way: one chunk event per callback,
   * then exactly one done or error event.
   */
  function StreamEvents(calls: seq<string>, result: Result<string, string>): (r: seq<ServerEvent>)
    ensures |r| == |calls| + 1
    ensures r[..|calls|] == ChunkEvents(calls)
    ensures result.Ok? ==> r[|calls|] == DoneEvent(result.value)
    ensures result.Err? ==> r[|calls|] == ErrorEvent(result.error)
  {
    ChunkEvents(calls) + [if result.Ok? then DoneEvent(result.value) else ErrorEvent(result.error)]
  }

  /** A stream carries exactly one closing event, and it comes last. */
  lemma StreamClosesOnce(calls: seq<string>, result: Result<string, string>)
    ensures var events := StreamEvents(calls, result);
      && (forall k | 0 <= k < |events| - 1 :: events[k].ChunkEvent?)
      && !events[|events| - 1].ChunkEvent?
  {
    var events := StreamEvents(calls, result);
    forall k | 0 <= k < |events| - 1 ensures events[k].ChunkEvent? {
      assert events[k] == events[..|calls|][k];
    }
  }

  /**
   * The `/api/generate` handler. It checks the transcript, the key and the
   * provider in that order, constructs the adapter only after all three pass,
   * and then either streams the adapter's output as events or sends one JSON
   * reply. `run` is what the adapter's `generateBlogPost` did.
   */
  method HandleGenerate(req: GenerateBody, run: AdapterRun, encode: ServerEvent -> string)
    returns (res: Response, created: Option<ProviderRegistry.Provider>, options: AIProviderBase.GenerateOptions)
    ensures fresh(res)
    ensures !Truthy(req.transcript) ==> created.None? && res.statusCode == 400 && res.body == Some(ErrorReply(MissingTranscript, None))
    ensures Truthy(req.transcript) && !Truthy(req.apiKey) ==>
      created.None? && res.statusCode == 400 && res.body == Some(ErrorReply(MissingApiKey, None))
    ensures Truthy(req.transcript) && Truthy(req.apiKey) && !ProviderRegistry.IsValidProvider(Default(req.provider, DefaultProvider)) ==>
      created.None? && res.statusCode == 400 && res.body == Some(ErrorReply(ProviderRegistry.UnsupportedPrefix + Default(req.provider, DefaultProvider), None))
    ensures created.Some? <==> Truthy(req.transcript) && Truthy(req.apiKey) && ProviderRegistry.IsValidProvider(Default(req.provider, DefaultProvider))
    ensures created.Some? ==>
      && ProviderRegistry.CreateProvider(Default(req.provider, DefaultProvider), req.apiKey, req.modelName) == Ok(created.value)
      && options == AIProviderBase.GenerateOptions(Some(Default(req.language, AIProviderBase.DefaultLanguage)),
                                                  Some(Default(req.style, AIProviderBase.DefaultStyle)), req.stream)
    ensures created.Some? && req.stream && (run.result.Ok? || run.calls != []) ==>
      res.written == Frames(StreamEvents(run.calls, run.result), encode) && res.statusCode == 200 && res.body.None?
    ensures created.Some? && (!req.stream || run.calls == []) && run.result.Err? ==>
      res.statusCode == 500 && res.body == Some(ErrorReply(GenerateFailed, Some(run.result.error)))
    ensures created.Some? && !req.stream && run.result.Ok? ==>
      res.statusCode == 200 && res.body == Some(ArticleReply(run.result.value, Default(req.provider, DefaultProvider),
                                                             OrElse(req.modelName, created.value.config.modelName)))
    ensures !req.stream || created.None? ==> res.written == []
    ensures res.ended
  {
    res := new Response();
    created := None;
    options := AIProviderBase.GenerateOptions(None, None, false);
    var provider := Default(req.provider, DefaultProvider);
    if !Truthy(req.transcript) {
      res.Send(400, ErrorReply(MissingTranscript, None));
      return;
    }
    if !Truthy(req.apiKey) {
      res.Send(400, ErrorReply(MissingApiKey, None));
      return;
    }
    if !ProviderRegistry.IsValidProvider(provider) {
      res.Send(400, ErrorReply(ProviderRegistry.UnsupportedPrefix + provider, None));
      return;
    }
    var made := ProviderRegistry.CreateProvider(provider, req.apiKey, req.modelName);
    created := Some(made.value);
    options := AIProviderBase.GenerateOptions(Some(Default(req.language, AIProviderBase.DefaultLanguage)),
                                              Some(Default(req.style, AIProviderBase.DefaultStyle)), req.stream);
    if req.stream {
      WriteChunks(res, run.calls, encode);
      if run.result.Ok? {
        res.Write(Frame(encode(DoneEvent(run.result.value))));
        res.End();
      } else if res.headersSent {
        res.Write(Frame(encode(ErrorEvent(run.result.error))));
        res.End();
      } else {
        res.Send(500, ErrorReply(GenerateFailed, Some(run.result.error)));
      }
      if run.result.Ok? || run.calls != [] {
        assert res.written == Frames(ChunkEvents(run.calls), encode) + [Frame(encode(StreamEvents(run.calls, run.result)[|run.calls|]))];
        assert StreamEvents(run.calls, run.result) == ChunkEvents(run.calls) + [StreamEvents(run.calls, run.result)[|run.calls|]];
        FramesAppend(ChunkEvents(run.calls), StreamEvents(run.calls, run.result)[|run.calls|], encode);
      }
    } else {
      match run.result {
        case Ok(article) =>
          res.Send(200, ArticleReply(article, provider, OrElse(req.modelName, made.value.config.modelName)));
        case Err(m) =>
          res.Send(500, ErrorReply(GenerateFailed, Some(m)));
      }
    }
  }

  lemma FramesAppend(events: seq<ServerEvent>, e: ServerEvent, encode: ServerEvent -> string)
    ensures Frames(events + [e], encode) == Frames(events, encode) + [Frame(encode(e))]
  {
  }

  /** The `onStream` callback, called once per chunk: each call writes one chunk frame. */
  method WriteChunks(res: Response, calls: seq<string>, encode: ServerEvent -> string)
    requires res.written == [] && !res.headersSent && res.statusCode == 200 && res.body.None? && !res.ended
    modifies res
    ensures res.written == Frames(ChunkEvents(calls), encode)
    ensures res.headersSent <==> calls != []
    ensures res.statusCode == 200 && res.body.None? && !res.ended
  {
    for i := 0 to |calls|
      invariant res.written == Frames(ChunkEvents(calls[..i]), encode)
      invariant res.headersSent <==> i > 0
      invariant res.statusCode == 200 && res.body.None? && !res.ended
    {
      res.Write(Frame(encode(ChunkEvent(calls[i]))));
      assert ChunkEvents(calls[..i + 1]) == ChunkEvents(calls[..i]) + [ChunkEvent(calls[i])];
      FramesAppend(ChunkEvents(calls[..i]), ChunkEvent(calls[i]), encode);
    }
    assert calls[..|calls|] == calls;
  }

  /**
   * A frame is one data line and a blank line: split on newlines, its data
   * line carries the encoded event, which has no newline of its own.
   */
  lemma FrameIsOneDataLine(json: string)
    requires json != [] && '\n' !in json && !IsWhitespace(json[|json| - 1])
    ensures Split(Frame(json), '\n') == [ServerSentEvents.DataPrefix + json, "", ""]
    ensures ServerSentEvents.IsDataLine(ServerSentEvents.DataPrefix + json)
    ensures ServerSentEvents.Payload(ServerSentEvents.DataPrefix + json) == json
  {
    var line := ServerSentEvents.DataPrefix + json;
    assert '\n' !in line by {
      assert forall k | 0 <= k < |line| :: line[k] != '\n' by {
        forall k | 0 <= k < |line| ensures line[k] != '\n' {
          if k >= |ServerSentEvents.DataPrefix| {
            assert line[k] == json[k - |ServerSentEvents.DataPrefix|];
          }
        }
      }
    }
    assert Join([""], "\n") == "";
    assert ["", ""][1..] == [""];
    assert Join(["", ""], "\n") == "\n";
    assert [line, "", ""][1..] == ["", ""];
    assert Frame(json) == Join([line, "", ""], "\n");
    SplitJoin([line, "", ""], '\n');
    ServerSentEvents.PrefixedLine(json);
  }
}
