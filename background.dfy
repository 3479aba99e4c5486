/**
 * The MV3 service worker: the config store, the read-through fingerprint cache and the
 * message router. Storage is a `Storage.StorageArea`; the current time is a parameter; each
 * `fetch` is a `Protocol.Outcome` supplied by the caller, and the request the worker would
 * have sent is returned, so "no network call" is `fetched == None`.
 *
 * `Route` is the router as a function of the storage content; `HandleMessage` performs it
 * step by step (read, check, call, store, respond) and is proved equal to it.
 */
module Background {
  import opened Wrappers
  import opened Config
  import opened Protocol
  import opened Storage
  import Text

  /** `CACHE_TTL_MS`: 24 hours in milliseconds. */
  const CACHE_TTL_MS: int := 24 * 60 * 60 * 1000

  /** The storage key of the configuration record. */
  const CFG_KEY: string := "cfg"

  /** The storage key of the cache entry for a fingerprint: `cache:${hash}`. */
  function CacheKey(hash: string): (k: string)
    ensures |k| == 6 + |hash| && k[..6] == "cache:" && k[6..] == hash
    ensures k != CFG_KEY
  {
    "cache:" + hash
  }

  /** What `getConfig()` resolves to: `{ ...DEFAULT_CONFIG, ...(cfg || {}) }`. */
  function EffectiveConfig(items: map<string, StoredValue>): Config {
    if CFG_KEY in items && items[CFG_KEY].CfgRecord? then Overlay(DEFAULT_CONFIG, items[CFG_KEY].cfg)
    else DEFAULT_CONFIG
  }

  /**
   * What `getCache(hash)` resolves to at time `now`: the entry's data unless the entry is
   * missing or `now - ts > CACHE_TTL_MS`. A value under the key that is not a cache entry
   * has no `data`, which the router reads as a miss.
   */
  function CacheLookup(items: map<string, StoredValue>, hash: string, now: int): Option<CachedData> {
    var key := CacheKey(hash);
    if key in items && items[key].CacheRecord? && now - items[key].ts <= CACHE_TTL_MS then
      Some(items[key].data)
    else None
  }

  /** `${cfg.apiBaseUrl.replace(/\/+$/, "")}${path}`. */
  function Endpoint(base: string, path: string): (url: string)
    ensures |url| >= |path| && url[|url| - |path|..] == path
    ensures var host := url[..|url| - |path|]; host == [] || host[|host| - 1] != '/'
  {
    Text.StripTrailingSlashes(base) + path
  }

  /** The `Authorization` header: present exactly when the API key is non-empty. */
  function Authorization(cfg: Config): (h: Option<string>)
    ensures h.Some? <==> cfg.apiKey != ""
    ensures h.Some? ==> |h.value| > 7 && h.value[..7] == "Bearer " && h.value[7..] == cfg.apiKey
  {
    if cfg.apiKey != "" then Some("Bearer " + cfg.apiKey) else None
  }

  /** One message's effect: the single reply, the request sent (if any) and the new storage. */
  datatype Step = Step(reply: Reply, fetched: Option<Request>, items: map<string, StoredValue>)

  /** The `predict` branch. */
  function PredictStep(items: map<string, StoredValue>, p: PredictPayload, now: int, net: Outcome): Step {
    var text := p.text.GetOr("");
    var hash := p.hash.GetOr("");
    if text == "" then Step(Failure(NO_TEXT_ERROR), None, items)
    else
      var cached := if hash != "" then CacheLookup(items, hash, now) else None;
      if cached.Some? then Step(PredictOk(true, cached.value.result, cached.value.cfg), None, items)
      else
        var cfg := EffectiveConfig(items);
        var req := Some(Request(Endpoint(cfg.apiBaseUrl, "/predict"), Authorization(cfg),
                                PredictBody(text, cfg.threshold)));
        match net
        case TransportError(e) => Step(Failure(e), req, items)
        case Response(status, t, body) =>
          if !IsOk(status) then Step(Failure(PredictFailedError(status, t)), req, items)
          else
            match body
            case Unparseable(e) => Step(Failure(e), req, items)
            case Parsed(data) =>
              var stored := if hash != "" then items[CacheKey(hash) := CacheRecord(now, CachedData(data, cfg))]
                            else items;
              Step(PredictOk(false, data, cfg), req, stored)
  }

  /** The `feedback` branch. */
  function FeedbackStep(items: map<string, StoredValue>, p: FeedbackPayload, now: int, net: Outcome): Step {
    var cfg := EffectiveConfig(items);
    var req := Some(Request(Endpoint(cfg.apiBaseUrl, "/feedback"), Authorization(cfg), FeedbackBody(p, now)));
    match net
    case TransportError(e) => Step(Failure(e), req, items)
    case Response(status, _, body) =>
      if !IsOk(status) then Step(FeedbackOk(QueuedLocal), req, items)
      else
        match body
        case Unparseable(e) => Step(Failure(e), req, items)
        case Parsed(data) => Step(FeedbackOk(ServerData(data)), req, items)
  }

  /** The message router, as a function of the storage content before the message. */
  function Route(items: map<string, StoredValue>, msg: Message, now: int, net: Outcome): Step {
    match msg
    case GetConfigMsg => Step(ConfigOk(EffectiveConfig(items)), None, items)
    case SetConfigMsg(p) =>
      var merged := Overlay(EffectiveConfig(items), p.GetOr(EMPTY_PATCH));
      Step(ConfigOk(merged), None, items[CFG_KEY := CfgRecord(Full(merged))])
    case PredictMsg(p) => PredictStep(items, p.GetOr(PredictPayload(None, None)), now, net)
    case FeedbackMsg(p) =>
      FeedbackStep(items, p.GetOr(FeedbackPayload(None, None, None, None, None, None)), now, net)
    case UnknownMsg => Step(Failure(UNKNOWN_TYPE_ERROR), None, items)
  }

  /** The `sendResponse` callback of one `onMessage` event, recording every call made to it. */
  class ResponseChannel {
    var responses: seq<Reply>

    constructor()
      ensures responses == []
    {
      responses := [];
    }

    method SendResponse(r: Reply)
      modifies this
      ensures responses == old(responses) + [r]
    {
      responses := responses + [r];
    }
  }

  /** `getConfig()`. */
  method GetConfig(st: StorageArea) returns (cfg: Config)
    ensures cfg == EffectiveConfig(st.items)
  {
    var v := st.Get(CFG_KEY);
    if v.Some? && v.value.CfgRecord? {
      cfg := Overlay(DEFAULT_CONFIG, v.value.cfg);
    } else {
      cfg := DEFAULT_CONFIG;
    }
  }

  /** `setConfig(partial)`: persists and returns the current config with `partial` merged over it. */
  method SetConfig(st: StorageArea, partial: PartialConfig) returns (merged: Config)
    modifies st
    ensures merged == Overlay(old(EffectiveConfig(st.items)), partial)
    ensures st.items == old(st.items)[CFG_KEY := CfgRecord(Full(merged))]
  {
    var current := GetConfig(st);
    merged := Overlay(current, partial);
    st.Set(CFG_KEY, CfgRecord(Full(merged)));
  }

  /** `getCache(hash)` at time `now`; it only reads. */
  method GetCache(st: StorageArea, hash: string, now: int) returns (r: Option<CachedData>)
    ensures r == CacheLookup(st.items, hash, now)
  {
    var item := st.Get(CacheKey(hash));
    if item.None? || !item.value.CacheRecord? {
      return None;
    }
    if now - item.value.ts > CACHE_TTL_MS {
      return None;
    }
    r := Some(item.value.data);
  }

  /** `setCache(hash, data)` at time `now`: overwrites that one entry. */
  method SetCache(st: StorageArea, hash: string, data: CachedData, now: int)
    modifies st
    ensures st.items == old(st.items)[CacheKey(hash) := CacheRecord(now, data)]
  {
    st.Set(CacheKey(hash), CacheRecord(now, data));
  }

  /** The `onInstalled` listener: `setConfig({})`. */
  method OnInstalled(st: StorageArea)
    modifies st
    ensures EffectiveConfig(st.items) == old(EffectiveConfig(st.items))
    ensures st.items == old(st.items)[CFG_KEY := CfgRecord(Full(old(EffectiveConfig(st.items))))]
  {
    var _ := SetConfig(st, EMPTY_PATCH);
  }

  method HandlePredict(st: StorageArea, port: ResponseChannel, p: PredictPayload, now: int, net: Outcome)
    returns (fetched: Option<Request>)
    modifies st, port
    ensures port.responses == old(port.responses) + [PredictStep(old(st.items), p, now, net).reply]
    ensures st.items == PredictStep(old(st.items), p, now, net).items
    ensures fetched == PredictStep(old(st.items), p, now, net).fetched
  {
    var text := p.text.GetOr("");
    if text == "" {
      port.SendResponse(Failure(NO_TEXT_ERROR));
      return None;
    }
    var hash := p.hash.GetOr("");
    var cached: Option<CachedData> := None;
    if hash != "" {
      cached := GetCache(st, hash, now);
    }
    if cached.Some? {
      port.SendResponse(PredictOk(true, cached.value.result, cached.value.cfg));
      return None;
    }
    var cfg := GetConfig(st);
    fetched := Some(Request(Endpoint(cfg.apiBaseUrl, "/predict"), Authorization(cfg), PredictBody(text, cfg.threshold)));
    match net
    case TransportError(e) =>
      port.SendResponse(Failure(e));
    case Response(status, t, body) =>
      if !IsOk(status) {
        port.SendResponse(Failure(PredictFailedError(status, t)));
        return;
      }
      match body
      case Unparseable(e) =>
        port.SendResponse(Failure(e));
      case Parsed(data) =>
        if hash != "" {
          SetCache(st, hash, CachedData(data, cfg), now);
        }
        port.SendResponse(PredictOk(false, data, cfg));
  }

  method HandleFeedback(st: StorageArea, port: ResponseChannel, p: FeedbackPayload, now: int, net: Outcome)
    returns (fetched: Option<Request>)
    modifies port
    ensures port.responses == old(port.responses) + [FeedbackStep(st.items, p, now, net).reply]
    ensures st.items == FeedbackStep(st.items, p, now, net).items
    ensures fetched == FeedbackStep(st.items, p, now, net).fetched
  {
    var cfg := GetConfig(st);
    fetched := Some(Request(Endpoint(cfg.apiBaseUrl, "/feedback"), Authorization(cfg), FeedbackBody(p, now)));
    match net
    case TransportError(e) =>
      port.SendResponse(Failure(e));
    case Response(status, _, body) =>
      if !IsOk(status) {
        port.SendResponse(FeedbackOk(QueuedLocal));
        return;
      }
      match body
      case Unparseable(e) =>
        port.SendResponse(Failure(e));
      case Parsed(data) =>
        port.SendResponse(FeedbackOk(ServerData(data)));
  }

  /**
   * One `onMessage` event: dispatches on the message type and calls `sendResponse` exactly
   * once, with the reply `Route` gives, leaving storage as `Route` says.
   */
  method HandleMessage(st: StorageArea, port: ResponseChannel, msg: Message, now: int, net: Outcome)
    returns (fetched: Option<Request>)
    modifies st, port
    ensures port.responses == old(port.responses) + [Route(old(st.items), msg, now, net).reply]
    ensures st.items == Route(old(st.items), msg, now, net).items
    ensures fetched == Route(old(st.items), msg, now, net).fetched
  {
    match msg
    case GetConfigMsg =>
      var cfg := GetConfig(st);
      port.SendResponse(ConfigOk(cfg));
      fetched := None;
    case SetConfigMsg(p) =>
      var cfg := SetConfig(st, p.GetOr(EMPTY_PATCH));
      port.SendResponse(ConfigOk(cfg));
      fetched := None;
    case PredictMsg(p) =>
      fetched := HandlePredict(st, port, p.GetOr(PredictPayload(None, None)), now, net);
    case FeedbackMsg(p) =>
      fetched := HandleFeedback(st, port, p.GetOr(FeedbackPayload(None, None, None, None, None, None)), now, net);
    case UnknownMsg =>
      port.SendResponse(Failure(UNKNOWN_TYPE_ERROR));
      fetched := None;
  }
}
