/**
 * The web client's API service (api-service.js): its own translator of raw
 * errors, the shaping of every failure into an `APIError` with a status, and
 * the listener that folds the server's streamed events into the article.
 */
module WebApiService {
  import opened Wrappers
  import opened JsString
  import opened FriendlyErrors

  /** `APIError`: a translated message and an HTTP status, 0 when no response arrived. */
  datatype ApiError = ApiError(message: string, status: nat)

  const UnknownError := "發生未知錯誤"

  predicate QuotaSignal(lower: string) {
    Contains(lower, "429") || Contains(lower, "quota") || Contains(lower, "rate limit") || Contains(lower, "resource has been exhausted")
  }

  predicate AuthSignal(lower: string) {
    Contains(lower, "401") || Contains(lower, "403")
    || (Contains(lower, "api key") && (Contains(lower, "invalid") || Contains(lower, "incorrect")))
    || Contains(lower, "unauthorized")
  }

  predicate ModelSignal(lower: string) {
    Contains(lower, "model") && Contains(lower, "not found")
  }

  predicate OverloadSignal(lower: string) {
    Contains(lower, "overloaded") || Contains(lower, "503")
  }

  predicate SafetySignal(lower: string) {
    Contains(lower, "safety") || Contains(lower, "harmful") || Contains(lower, "blocked")
  }

  /** Network failures: `fetch`, `network` or `connection`; the extension's `security` is not among them. */
  predicate NetworkSignal(lower: string) {
    Contains(lower, "fetch") || Contains(lower, "network") || Contains(lower, "connection")
  }

  /** No `Error:` test here, unlike the extension. */
  predicate TechnicalSignal(raw: string) {
    |raw| > 150 || StartsWith(Trim(raw), "{")
  }

  /** Whether a category's rule fires; every rule but the technical one looks at the lower-cased text. */
  predicate Fires(c: Category, raw: string) {
    match c
    case Quota => QuotaSignal(Lower(raw))
    case Auth => AuthSignal(Lower(raw))
    case ModelMissing => ModelSignal(Lower(raw))
    case Overloaded => OverloadSignal(Lower(raw))
    case Network => NetworkSignal(Lower(raw))
    case Safety => SafetySignal(Lower(raw))
    case Technical => TechnicalSignal(raw)
    case Verbatim => true
  }

  /** The position of each rule in this translator's chain: safety before network. */
  function Rank(c: Category): nat {
    match c
    case Quota => 0
    case Auth => 1
    case ModelMissing => 2
    case Overloaded => 3
    case Safety => 4
    case Network => 5
    case Technical => 6
    case Verbatim => 7
  }

  /** The rule chain: the category is the first rule, in chain order, that fires. */
  function Classify(raw: string): (c: Category)
    ensures Fires(c, raw)
    ensures forall d: Category :: Rank(d) < Rank(c) ==> !Fires(d, raw)
  {
    var lower := Lower(raw);
    if QuotaSignal(lower) then Quota
    else if AuthSignal(lower) then Auth
    else if ModelSignal(lower) then ModelMissing
    else if OverloadSignal(lower) then Overloaded
    else if SafetySignal(lower) then Safety
    else if NetworkSignal(lower) then Network
    else if TechnicalSignal(raw) then Technical
    else Verbatim
  }

  /** Conversely, a rule that fires with no earlier rule firing is the category. */
  lemma ClassifiedAs(raw: string, c: Category)
    requires Fires(c, raw)
    requires forall d: Category :: Rank(d) < Rank(c) ==> !Fires(d, raw)
    ensures Classify(raw) == c
  {
  }

  const QuotaHeadline := "❌ AI 服務配額已達上限 (429)"
  const QuotaMessage := QuotaHeadline + "\n\n原因可能是：\n1. 免費版額度已用完\n2. 請求過於頻繁\n\n建議：\n• 稍等幾分鐘後再試\n• 切換到其他 AI 供應商"
  const AuthMessage := "❌ API Key 無效或權限不足\n\n請檢查您的 API Key 是否正確。"
  const ModelMessage := "❌ 找不到指定的模型\n\n該模型可能已下架或您的帳號無權使用。\n請嘗試切換其他模型。"
  const OverloadMessage := "❌ AI 服務系統繁忙\n\n伺服器負載過高，暫時無法回應。\n請稍後重試。"
  const SafetyMessage := "❌ 內容被安全機制攔截\n\nAI 判定內容可能涉及敏感議題，拒絕生成。"
  const NetworkMessage := "❌ 網路連線錯誤\n\n無法連接到伺服器。"
  const TechnicalHead := "❌ 發生未預期的錯誤\n\n(系統錯誤: "
  const TechnicalTail := "...)"

  /** The fixed message of each rule that has one. */
  function FixedMessage(c: Category): string {
    match c
    case Quota => QuotaMessage
    case Auth => AuthMessage
    case ModelMissing => ModelMessage
    case Overloaded => OverloadMessage
    case Safety => SafetyMessage
    case Network => NetworkMessage
    case _ => ""
  }

  /** The fixed messages are pairwise different, so the message tells the category. */
  lemma FixedMessagesDistinct(c: Category, d: Category)
    requires c in {Quota, Auth, ModelMissing, Overloaded, Safety, Network}
    requires d in {Quota, Auth, ModelMissing, Overloaded, Safety, Network}
    requires c != d
    ensures FixedMessage(c) != FixedMessage(d)
  {
    assert QuotaMessage[..|QuotaHeadline|] == QuotaHeadline;
    assert QuotaHeadline[2] == 'A';
    assert AuthMessage[2] == 'A';
    assert OverloadMessage[2] == 'A';
    assert ModelMessage[2] == '找';
    assert SafetyMessage[2] == '內';
    assert NetworkMessage[2] == '網';
    assert QuotaHeadline[3] == 'I';
    assert AuthMessage[3] == 'P';
    assert OverloadMessage[3] == 'I';
    assert QuotaHeadline[7] == '配';
    assert OverloadMessage[7] == '系';
  }

  /**
   * `getFriendlyErrorMessage(rawMessage)`: a falsy message is the unknown
   * error; a message no rule matches comes back exactly as it was.
   */
  function FriendlyErrorMessage(raw: Option<string>): (r: string)
    ensures !Truthy(raw) ==> r == UnknownError
    ensures Truthy(raw) && Classify(raw.value) in {Quota, Auth, ModelMissing, Overloaded, Safety, Network} ==>
      r == FixedMessage(Classify(raw.value))
    ensures Truthy(raw) && Classify(raw.value) == Technical ==> r == TechnicalHead + Excerpt(raw.value) + TechnicalTail
    ensures Truthy(raw) && Classify(raw.value) == Verbatim ==> r == raw.value
  {
    if !Truthy(raw) then UnknownError
    else
      var c := Classify(raw.value);
      if c == Technical then TechnicalHead + Excerpt(raw.value) + TechnicalTail
      else if c == Verbatim then raw.value
      else FixedMessage(c)
  }

  /** A response's parsed body: its `message` and `error` fields. */
  datatype ResponseData = ResponseData(message: Option<string>, error: Option<string>)

  /**
   * What `fetch` and `response.json()` gave: a response with its status and
   * parsed body, or the message of whatever threw on the way.
   */
  datatype FetchJsonInput = Responded(ok: bool, status: nat, data: ResponseData) | Threw(message: string)

  const RequestFailed := "Request failed"

  /** `data.message || data.error || 'Request failed'`. */
  function ResponseRawMessage(data: ResponseData): (r: string)
    ensures Truthy(data.message) ==> r == data.message.value
    ensures !Truthy(data.message) && Truthy(data.error) ==> r == data.error.value
    ensures !Truthy(data.message) && !Truthy(data.error) ==> r == RequestFailed
  {
    OrElse(data.message, OrElse(data.error, RequestFailed))
  }

  /**
   * `fetchJSON`: the parsed body of an ok response, else an `APIError` with
   * the translated message and the response's status; a failure before any
   * response is an `APIError` with status 0.
   */
  function FetchJson(input: FetchJsonInput): (r: Result<ResponseData, ApiError>)
    ensures input.Responded? && input.ok ==> r == Ok(input.data)
    ensures input.Responded? && !input.ok ==>
      r == Err(ApiError(FriendlyErrorMessage(Some(ResponseRawMessage(input.data))), input.status))
    ensures input.Threw? ==> r == Err(ApiError(FriendlyErrorMessage(Some(input.message)), 0))
  {
    match input
    case Responded(ok, status, data) =>
      if ok then Ok(data) else Err(ApiError(FriendlyErrorMessage(Some(ResponseRawMessage(data))), status))
    case Threw(m) => Err(ApiError(FriendlyErrorMessage(Some(m)), 0))
  }

  const RequestFailedLowered := "request failed"

  lemma RequestFailedLower()
    ensures Lower(RequestFailed) == RequestFailedLowered
  {
    assert RequestFailed == "R" + "equest failed";
    LowerAppend("R", "equest failed");
    LowerNoCapitals("equest failed");
  }

  lemma RequestFailedNoQuotaSignal()
    ensures !QuotaSignal(RequestFailedLowered)
  {
    RequestFailedNoQuotaMarker();
    assert !Contains(RequestFailedLowered, "resource has been exhausted") by { NotContainsChar(RequestFailedLowered, "resource has been exhausted", 3); }
  }

  lemma RequestFailedNoQuotaMarker()
    ensures !Contains(RequestFailedLowered, "429") && !Contains(RequestFailedLowered, "quota") && !Contains(RequestFailedLowered, "rate limit")
  {
    assert !Contains(RequestFailedLowered, "429") by { NotContainsChar(RequestFailedLowered, "429", 0); }
    assert !Contains(RequestFailedLowered, "quota") by { NotContainsChar(RequestFailedLowered, "quota", 2); }
    assert !Contains(RequestFailedLowered, "rate limit") by { NotContainsChar(RequestFailedLowered, "rate limit", 7); }
  }

  lemma RequestFailedNoAuthSignal()
    ensures !AuthSignal(RequestFailedLowered)
  {
    assert !Contains(RequestFailedLowered, "401") by { NotContainsChar(RequestFailedLowered, "401", 0); }
    assert !Contains(RequestFailedLowered, "403") by { NotContainsChar(RequestFailedLowered, "403", 0); }
    assert !Contains(RequestFailedLowered, "api key") by { NotContainsChar(RequestFailedLowered, "api key", 1); }
    assert !Contains(RequestFailedLowered, "unauthorized") by { NotContainsChar(RequestFailedLowered, "unauthorized", 1); }
  }

  lemma RequestFailedNoModelSignal()
    ensures !ModelSignal(RequestFailedLowered)
  {
    assert !Contains(RequestFailedLowered, "model") by { NotContainsChar(RequestFailedLowered, "model", 0); }
  }

  lemma RequestFailedNoOverloadSignal()
    ensures !OverloadSignal(RequestFailedLowered)
  {
    assert !Contains(RequestFailedLowered, "overloaded") by { NotContainsChar(RequestFailedLowered, "overloaded", 0); }
    assert !Contains(RequestFailedLowered, "503") by { NotContainsChar(RequestFailedLowered, "503", 0); }
  }

  lemma RequestFailedNoSafetySignal()
    ensures !SafetySignal(RequestFailedLowered)
  {
    assert !Contains(RequestFailedLowered, "safety") by { NotContainsChar(RequestFailedLowered, "safety", 5); }
    assert !Contains(RequestFailedLowered, "harmful") by { NotContainsChar(RequestFailedLowered, "harmful", 0); }
    assert !Contains(RequestFailedLowered, "blocked") by { NotContainsChar(RequestFailedLowered, "blocked", 0); }
  }

  lemma RequestFailedNoNetworkSignal()
    ensures !NetworkSignal(RequestFailedLowered)
  {
    assert !Contains(RequestFailedLowered, "fetch") by { NotContainsChar(RequestFailedLowered, "fetch", 3); }
    assert !Contains(RequestFailedLowered, "network") by { NotContainsChar(RequestFailedLowered, "network", 0); }
    assert !Contains(RequestFailedLowered, "connection") by { NotContainsChar(RequestFailedLowered, "connection", 0); }
  }

  /** A failed response whose body names no error shows `Request failed` as it is: no rule matches it. */
  lemma FailedResponseWithoutReason(input: FetchJsonInput)
    requires input.Responded? && !input.ok
    requires !Truthy(input.data.message) && !Truthy(input.data.error)
    ensures FetchJson(input) == Err(ApiError(RequestFailed, input.status))
  {
    assert ResponseRawMessage(input.data) == RequestFailed;
    assert FriendlyErrorMessage(Some(RequestFailed)) == RequestFailed by {
      RequestFailedVerbatim();
    }
  }

  /** `Request failed` matches no rule. */
  lemma RequestFailedVerbatim()
    ensures Classify(RequestFailed) == Verbatim
  {
    RequestFailedLower();
    RequestFailedNoQuotaSignal();
    RequestFailedNoAuthSignal();
    RequestFailedNoModelSignal();
    RequestFailedNoOverloadSignal();
    RequestFailedNoSafetySignal();
    RequestFailedNoNetworkSignal();
    TrimNoop(RequestFailed);
    ClassifiedAs(RequestFailed, Verbatim);
  }

  /** The fields of one streamed event's JSON. */
  datatype EventData = EventData(error: Option<string>, done: bool, result: Option<string>, chunk: Option<string>)

  /** What the `EventSource` delivers: a `message` event's text, or a connection error. */
  datatype StreamEvent = MessageEvent(data: string) | ConnectionError

  /** The state of the promise `generateBlogPost` returns. */
  datatype Settlement = Pending | Resolved(result: Option<string>) | Rejected(error: ApiError)

  /** What the listener does with one event. */
  datatype Effect = Settle(settlement: Settlement) | Deliver(chunk: string) | Ignore

  /** `onStream(chunk, fullResult)`. */
  datatype StreamCall = StreamCall(chunk: string, accumulated: string)

  const StreamConnectionFailed := "Stream connection failed"

  /**
   * The listener's reaction to one event. Data that does not parse makes the
   * listener throw, which the `EventSource` ignores, so the stream goes on.
   */
  function EventEffect(e: StreamEvent, parse: string -> Option<EventData>): (r: Effect)
    ensures e.ConnectionError? ==> r == Settle(Rejected(ApiError(StreamConnectionFailed, 0)))
    ensures e.MessageEvent? && parse(e.data).None? ==> r == Ignore
    ensures e.MessageEvent? && parse(e.data).Some? && Truthy(parse(e.data).value.error) ==>
      r == Settle(Rejected(ApiError(FriendlyErrorMessage(parse(e.data).value.error), 500)))
    ensures r.Deliver? ==> r.chunk != ""
  {
    match e
    case ConnectionError => Settle(Rejected(ApiError(StreamConnectionFailed, 0)))
    case MessageEvent(text) =>
      match parse(text)
      case None => Ignore
      case Some(d) =>
        if Truthy(d.error) then Settle(Rejected(ApiError(FriendlyErrorMessage(d.error), 500)))
        else if d.done then Settle(Resolved(d.result))
        else if Truthy(d.chunk) then Deliver(d.chunk.value)
        else Ignore
  }

  /** The listener's reaction to each event, in order. */
  function Effects(events: seq<StreamEvent>, parse: string -> Option<EventData>): (r: seq<Effect>)
    ensures |r| == |events|
    decreases |events|
  {
    if |events| == 0 then [] else [EventEffect(events[0], parse)] + Effects(events[1..], parse)
  }

  /** The reactions to two runs of events one after the other. */
  lemma {:induction false} EffectsAppend(a: seq<StreamEvent>, b: seq<StreamEvent>, parse: string -> Option<EventData>)
    ensures Effects(a + b, parse) == Effects(a, parse) + Effects(b, parse)
    decreases |a|
  {
    if |a| > 0 {
      assert (a + b)[0] == a[0] && (a + b)[1..] == a[1..] + b;
      EffectsAppend(a[1..], b, parse);
    } else {
      assert a + b == b;
    }
  }

  /** Whether no event of `events` settles the promise. */
  predicate NoSettle(events: seq<StreamEvent>, parse: string -> Option<EventData>) {
    forall i | 0 <= i < |events| :: !EventEffect(events[i], parse).Settle?
  }

  /** The chunks delivered by a run of reactions, up to the first that settles. */
  function DeliveredBy(effects: seq<Effect>): seq<string>
    decreases |effects|
  {
    if |effects| == 0 then []
    else match effects[0]
      case Settle(_) => []
      case Deliver(c) => [c] + DeliveredBy(effects[1..])
      case Ignore => DeliveredBy(effects[1..])
  }

  /** The settlement a run of reactions reaches: the first settling one decides; with none it stays pending. */
  function SettledBy(effects: seq<Effect>): Settlement
    decreases |effects|
  {
    if |effects| == 0 then Pending
    else match effects[0]
      case Settle(s) => s
      case _ => SettledBy(effects[1..])
  }

  /** The chunks the listener delivers, up to the event that settles the promise. */
  function Delivered(events: seq<StreamEvent>, parse: string -> Option<EventData>): seq<string> {
    DeliveredBy(Effects(events, parse))
  }

  /** How the promise ends. */
  function Outcome(events: seq<StreamEvent>, parse: string -> Option<EventData>): Settlement {
    SettledBy(Effects(events, parse))
  }

  /** The calls `onStream` receives for delivered chunks: each with the text accumulated so far. */
  predicate Accumulates(calls: seq<StreamCall>, chunks: seq<string>) {
    |calls| == |chunks| && forall i | 0 <= i < |calls| :: calls[i] == StreamCall(chunks[i], Concat(chunks[..i + 1]))
  }

  /**
   * The `message` and `error` listeners, run over the events the
   * `EventSource` delivers until the promise settles and the source is closed.
   */
  method Listen(events: seq<StreamEvent>, parse: string -> Option<EventData>) returns (outcome: Settlement, calls: seq<StreamCall>)
    ensures outcome == Outcome(events, parse)
    ensures Accumulates(calls, Delivered(events, parse))
    ensures forall i | 0 <= i < |calls| :: calls[i].chunk != ""
  {
    outcome, calls := Pending, [];
    var fullResult := "";
    ghost var chunks: seq<string> := [];
    var i := 0;
    while i < |events| && outcome.Pending?
      invariant 0 <= i <= |events|
      invariant Accumulates(calls, chunks)
      invariant fullResult == Concat(chunks)
      invariant forall k | 0 <= k < |calls| :: calls[k].chunk != ""
      invariant ListenInv(events, parse, i, outcome, chunks)
    {
      ListenAdvance(events, parse, i, chunks);
      var effect := EventEffect(events[i], parse);
      if effect.Settle? {
        outcome := effect.settlement;
      } else if effect.Deliver? {
        AccumulatesSnoc(calls, chunks, effect.chunk);
        chunks := chunks + [effect.chunk];
        fullResult := fullResult + effect.chunk;
        calls := calls + [StreamCall(effect.chunk, fullResult)];
      }
      i := i + 1;
    }
    ListenDone(events, parse, i, outcome, chunks);
  }

  /**
   * What `Listen` knows after the first `i` events: while pending, the rest
   * of the events decide the outcome and add to what was delivered so far;
   * once settled, the outcome and the deliveries are final.
   */
  ghost predicate ListenInv(events: seq<StreamEvent>, parse: string -> Option<EventData>, i: nat, outcome: Settlement, chunks: seq<string>)
    requires i <= |events|
  {
    && (outcome.Pending? ==> Outcome(events, parse) == Outcome(events[i..], parse)
                             && Delivered(events, parse) == chunks + Delivered(events[i..], parse))
    && (!outcome.Pending? ==> outcome == Outcome(events, parse) && Delivered(events, parse) == chunks)
  }

  /** Handling event `i` while pending keeps the invariant. */
  lemma ListenAdvance(events: seq<StreamEvent>, parse: string -> Option<EventData>, i: nat, chunks: seq<string>)
    requires i < |events| && ListenInv(events, parse, i, Pending, chunks)
    ensures var effect := EventEffect(events[i], parse);
      && (effect.Settle? ==> ListenInv(events, parse, i + 1, effect.settlement, chunks))
      && (effect.Deliver? ==> ListenInv(events, parse, i + 1, Pending, chunks + [effect.chunk]))
      && (effect.Ignore? ==> ListenInv(events, parse, i + 1, Pending, chunks))
  {
    ListenStep(events[i..], parse);
    assert events[i..][0] == events[i] && events[i..][1..] == events[i + 1..];
    var effect := EventEffect(events[i], parse);
    if effect.Deliver? {
      AppendAssoc(chunks, [effect.chunk], Delivered(events[i + 1..], parse));
    }
  }

  /** When the loop stops, the invariant gives the outcome and the deliveries outright. */
  lemma ListenDone(events: seq<StreamEvent>, parse: string -> Option<EventData>, i: nat, outcome: Settlement, chunks: seq<string>)
    requires i <= |events| && ListenInv(events, parse, i, outcome, chunks)
    requires i == |events| || !outcome.Pending?
    ensures outcome == Outcome(events, parse) && Delivered(events, parse) == chunks
  {
    if outcome.Pending? {
      assert events[i..] == [];
      assert chunks + Delivered(events[i..], parse) == chunks;
    }
  }

  lemma AppendAssoc<T>(x: seq<T>, y: seq<T>, z: seq<T>)
    ensures x + y + z == x + (y + z)
  {
  }

  /** One step of the specification functions on a non-empty event sequence. */
  lemma ListenStep(events: seq<StreamEvent>, parse: string -> Option<EventData>)
    requires |events| > 0
    ensures var effect := EventEffect(events[0], parse);
      && (effect.Settle? ==> Outcome(events, parse) == effect.settlement && Delivered(events, parse) == [])
      && (effect.Deliver? ==> Outcome(events, parse) == Outcome(events[1..], parse)
                              && Delivered(events, parse) == [effect.chunk] + Delivered(events[1..], parse))
      && (effect.Ignore? ==> Outcome(events, parse) == Outcome(events[1..], parse)
                             && Delivered(events, parse) == Delivered(events[1..], parse))
  {
    var effects := Effects(events, parse);
    assert effects[0] == EventEffect(events[0], parse);
    assert effects[1..] == Effects(events[1..], parse);
  }

  /** Delivering one more chunk extends the calls by that chunk and the new accumulated text. */
  lemma AccumulatesSnoc(calls: seq<StreamCall>, chunks: seq<string>, c: string)
    requires Accumulates(calls, chunks)
    ensures Concat(chunks + [c]) == Concat(chunks) + c
    ensures Accumulates(calls + [StreamCall(c, Concat(chunks) + c)], chunks + [c])
  {
    ConcatAppend(chunks, [c]);
    var chunks' := chunks + [c];
    assert chunks'[..|chunks| + 1] == chunks';
    forall i | 0 <= i < |chunks|
      ensures calls[i] == StreamCall(chunks'[i], Concat(chunks'[..i + 1]))
    {
      assert chunks'[..i + 1] == chunks[..i + 1];
    }
  }

  /**
   * The first settling event decides the promise, whatever came before it or
   * after it: a `done` event resolves with its own `result`, not with the
   * accumulated text, and nothing after it is delivered.
   */
  lemma FirstSettlementDecides(before: seq<StreamEvent>, e: StreamEvent, after: seq<StreamEvent>, parse: string -> Option<EventData>)
    requires NoSettle(before, parse) && EventEffect(e, parse).Settle?
    ensures Outcome(before + [e] + after, parse) == EventEffect(e, parse).settlement
    ensures Delivered(before + [e] + after, parse) == Delivered(before, parse)
  {
    var pre, post := Effects(before, parse), Effects(after, parse);
    EffectsAppend(before, [e], parse);
    EffectsAppend(before + [e], after, parse);
    assert Effects([e], parse) == [EventEffect(e, parse)];
    assert forall i | 0 <= i < |pre| :: pre[i] == EventEffect(before[i], parse) by {
      EffectsAt(before, parse);
    }
    FirstSettleDecides(pre, EventEffect(e, parse), post);
  }

  /** Each reaction is the listener's reaction to the event at the same place. */
  lemma {:induction false} EffectsAt(events: seq<StreamEvent>, parse: string -> Option<EventData>)
    ensures forall i | 0 <= i < |events| :: Effects(events, parse)[i] == EventEffect(events[i], parse)
    decreases |events|
  {
    if |events| > 0 {
      EffectsAt(events[1..], parse);
      var effects := Effects(events, parse);
      forall i | 1 <= i < |events| ensures effects[i] == EventEffect(events[i], parse) {
        assert effects[i] == Effects(events[1..], parse)[i - 1];
        assert events[1..][i - 1] == events[i];
      }
    }
  }

  /** Over reactions: the first settling one decides, and nothing after it is delivered. */
  lemma {:induction false} FirstSettleDecides(before: seq<Effect>, s: Effect, after: seq<Effect>)
    requires forall i | 0 <= i < |before| :: !before[i].Settle?
    requires s.Settle?
    ensures SettledBy(before + [s] + after) == s.settlement
    ensures DeliveredBy(before + [s] + after) == DeliveredBy(before)
    decreases |before|
  {
    var all := before + [s] + after;
    if |before| == 0 {
      assert all[0] == s;
    } else {
      assert all[0] == before[0];
      assert all[1..] == before[1..] + [s] + after;
      assert !before[0].Settle?;
      FirstSettleDecides(before[1..], s, after);
    }
  }
}
