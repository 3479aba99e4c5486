/**
 * Properties of the service worker's config store, cache and router, stated about the
 * functions `Background.HandleMessage` is proved to perform.
 */
module BackgroundProps {
  import opened Wrappers
  import opened Config
  import opened Protocol
  import opened Storage
  import opened Background
  import Text

  // ----- Config store -----

  /** With no persisted record, `getConfig` gives the defaults. */
  lemma EffectiveConfigWithoutRecord(items: map<string, StoredValue>)
    requires CFG_KEY !in items
    ensures EffectiveConfig(items) == DEFAULT_CONFIG
    ensures EffectiveConfig(items) == Config("http://localhost:8000", 0.5, "")
  {
  }

  /** Every persisted field overrides its default; an absent field keeps the default. */
  lemma EffectiveConfigOverrides(items: map<string, StoredValue>, p: PartialConfig)
    requires CFG_KEY in items && items[CFG_KEY] == CfgRecord(p)
    ensures EffectiveConfig(items).apiBaseUrl == p.apiBaseUrl.GetOr("http://localhost:8000")
    ensures EffectiveConfig(items).threshold == p.threshold.GetOr(0.5)
    ensures EffectiveConfig(items).apiKey == p.apiKey.GetOr("")
  {
  }

  /**
   * `setConfig(partial)` replies with the current config with `partial` merged over it, makes
   * no request, rewrites only the "cfg" key, and a later `getConfig` sees the merged record.
   */
  lemma SetConfigMerges(items: map<string, StoredValue>, p: PartialConfig, now: int, net: Outcome)
    ensures var s := Route(items, SetConfigMsg(Some(p)), now, net);
      && s.reply == ConfigOk(Overlay(EffectiveConfig(items), p))
      && s.fetched == None
      && s.items - {CFG_KEY} == items - {CFG_KEY}
      && EffectiveConfig(s.items) == Overlay(EffectiveConfig(items), p)
  {
    var s := Route(items, SetConfigMsg(Some(p)), now, net);
    OverlayFull(DEFAULT_CONFIG, Overlay(EffectiveConfig(items), p));
    assert s.items - {CFG_KEY} == items - {CFG_KEY};
  }

  /** `setConfig({})`, or a `setConfig` without payload, leaves the effective config as it was. */
  lemma SetConfigEmptyKeepsConfig(items: map<string, StoredValue>, payload: Option<PartialConfig>, now: int, net: Outcome)
    requires payload == None || payload == Some(EMPTY_PATCH)
    ensures var s := Route(items, SetConfigMsg(payload), now, net);
      && s.reply == ConfigOk(EffectiveConfig(items))
      && EffectiveConfig(s.items) == EffectiveConfig(items)
  {
    SetConfigMerges(items, EMPTY_PATCH, now, net);
    OverlayEmpty(EffectiveConfig(items));
  }

  /** `setConfig({threshold: 0.7})` then `getConfig()`: URL and key unchanged, threshold updated. */
  lemma ThresholdUpdateKeepsOtherFields(items: map<string, StoredValue>, now: int, net: Outcome)
    ensures var s1 := Route(items, SetConfigMsg(Some(PartialConfig(None, Some(0.7), None))), now, net);
      var s2 := Route(s1.items, GetConfigMsg, now, net);
      && s2.reply.ConfigOk?
      && s2.reply.cfg.threshold == 0.7
      && s2.reply.cfg.apiBaseUrl == EffectiveConfig(items).apiBaseUrl
      && s2.reply.cfg.apiKey == EffectiveConfig(items).apiKey
  {
    SetConfigMerges(items, PartialConfig(None, Some(0.7), None), now, net);
  }

  // ----- Cache store -----

  /** Cache keys of different fingerprints differ, and no cache key is the "cfg" key. */
  lemma CacheKeysDistinct(h1: string, h2: string)
    ensures CacheKey(h1) == CacheKey(h2) ==> h1 == h2
    ensures CacheKey(h1) != CFG_KEY
  {
    if CacheKey(h1) == CacheKey(h2) {
      assert h1 == CacheKey(h1)[6..];
      assert h2 == CacheKey(h2)[6..];
    }
    assert CacheKey(h1)[1] != CFG_KEY[1];
  }

  /** A fingerprint with no entry misses. */
  lemma CacheMissWithoutEntry(items: map<string, StoredValue>, hash: string, now: int)
    requires CacheKey(hash) !in items
    ensures CacheLookup(items, hash, now) == None
  {
  }

  /**
   * An entry stored at `ts` is returned exactly while `now - ts <= CACHE_TTL_MS`: one aged
   * exactly 24 h still hits, one a millisecond older misses, and the entry stays stored.
   */
  lemma CacheValidWindow(items: map<string, StoredValue>, hash: string, ts: int, d: CachedData, now: int)
    requires CacheKey(hash) in items && items[CacheKey(hash)] == CacheRecord(ts, d)
    ensures CacheLookup(items, hash, now) == (if now - ts <= CACHE_TTL_MS then Some(d) else None)
    ensures CacheLookup(items, hash, ts + 86400000) == Some(d)
    ensures CacheLookup(items, hash, ts + 86400001) == None
  {
  }

  /** `setCache(h, d)` then `getCache(h)` at the same time returns `d`. */
  lemma SetCacheThenGet(items: map<string, StoredValue>, hash: string, d: CachedData, now: int)
    ensures CacheLookup(items[CacheKey(hash) := CacheRecord(now, d)], hash, now) == Some(d)
  {
  }

  /** `setCache(h, d)` leaves every other fingerprint's lookup and the config untouched. */
  lemma SetCacheIsolated(items: map<string, StoredValue>, hash: string, d: CachedData, now: int, other: string, at: int)
    requires other != hash
    ensures CacheLookup(items[CacheKey(hash) := CacheRecord(now, d)], other, at) == CacheLookup(items, other, at)
    ensures EffectiveConfig(items[CacheKey(hash) := CacheRecord(now, d)]) == EffectiveConfig(items)
  {
    CacheKeysDistinct(other, hash);
  }

  // ----- predict -----

  /** Empty or missing text: "No text", no cache access, no request. */
  lemma PredictWithoutText(items: map<string, StoredValue>, hash: Option<string>, text: Option<string>, now: int, net: Outcome)
    requires text == None || text == Some("")
    ensures Route(items, PredictMsg(Some(PredictPayload(text, hash))), now, net) == Step(Failure(NO_TEXT_ERROR), None, items)
    ensures Route(items, PredictMsg(None), now, net) == Step(Failure(NO_TEXT_ERROR), None, items)
  {
  }

  /** A valid cache entry is answered from the cache, with no request and no write. */
  lemma PredictCacheHit(items: map<string, StoredValue>, text: string, hash: string, now: int, net: Outcome)
    requires text != "" && hash != ""
    requires CacheLookup(items, hash, now).Some?
    ensures var d := CacheLookup(items, hash, now).value;
      Route(items, PredictMsg(Some(PredictPayload(Some(text), Some(hash)))), now, net)
        == Step(PredictOk(true, d.result, d.cfg), None, items)
  {
  }

  /**
   * Without a fingerprint the cache is neither read nor written: storage is unchanged and the
   * step depends on storage only through the effective config.
   */
  lemma PredictWithoutHashIgnoresCache(items: map<string, StoredValue>, items': map<string, StoredValue>,
                                       p: PredictPayload, now: int, net: Outcome)
    requires p.hash == None || p.hash == Some("")
    requires EffectiveConfig(items') == EffectiveConfig(items)
    ensures Route(items, PredictMsg(Some(p)), now, net).items == items
    ensures Route(items', PredictMsg(Some(p)), now, net).reply == Route(items, PredictMsg(Some(p)), now, net).reply
    ensures Route(items', PredictMsg(Some(p)), now, net).fetched == Route(items, PredictMsg(Some(p)), now, net).fetched
  {
  }

  /**
   * When the request fails (transport failure, non-2xx status or an unreadable body) nothing
   * is cached, and the reply is `ok:false` unless it was answered from the cache without a request.
   */
  lemma PredictFailureCachesNothing(items: map<string, StoredValue>, p: PredictPayload, now: int, net: Outcome)
    requires net.TransportError? || !IsOk(net.status) || net.body.Unparseable?
    ensures var s := Route(items, PredictMsg(Some(p)), now, net);
      && s.items == items
      && (s.reply.Ok() ==> s.reply.PredictOk? && s.reply.fromCache && s.fetched == None)
      && (s.fetched.Some? ==> !s.reply.Ok())
    ensures var s := Route(items, PredictMsg(Some(p)), now, net);
      var cfg := EffectiveConfig(items);
      var text := p.text.GetOr("");
      text != "" && (p.hash.GetOr("") == "" || CacheLookup(items, p.hash.value, now).None?) ==>
        && s.fetched == Some(Request(Text.StripTrailingSlashes(cfg.apiBaseUrl) + "/predict",
                                     Authorization(cfg), PredictBody(text, cfg.threshold)))
        && (net.TransportError? ==> s.reply == Failure(net.error))
        && (net.Response? && IsOk(net.status) ==> s.reply == Failure(net.body.error))
  {
  }

  /** A non-2xx reply carries `Predict failed <status>: <body text>`. */
  lemma PredictRejectionMessage(items: map<string, StoredValue>, p: PredictPayload, now: int,
                                status: nat, t: string, body: JsonBody)
    requires p.text.GetOr("") != ""
    requires p.hash.GetOr("") == "" || CacheLookup(items, p.hash.value, now).None?
    requires !IsOk(status)
    ensures Route(items, PredictMsg(Some(p)), now, Response(status, t, body)).reply
      == Failure("Error: Predict failed " + Text.NatToString(status) + ": " + t)
  {
  }

  /**
   * On a cache miss the worker posts `{text, threshold}` of the current config to
   * `<base without trailing slashes>/predict`; on a 2xx JSON reply it caches `{result, cfg}`
   * under the fingerprint (if there is one) and replies with `fromCache` false.
   */
  lemma PredictSuccess(items: map<string, StoredValue>, text: string, hash: Option<string>, now: int,
                       status: nat, t: string, data: ServerJson)
    requires text != ""
    requires hash.GetOr("") == "" || CacheLookup(items, hash.value, now).None?
    requires IsOk(status)
    ensures var cfg := EffectiveConfig(items);
      var s := Route(items, PredictMsg(Some(PredictPayload(Some(text), hash))), now, Response(status, t, Parsed(data)));
      && s.reply == PredictOk(false, data, cfg)
      && s.fetched == Some(Request(Text.StripTrailingSlashes(cfg.apiBaseUrl) + "/predict",
                                   Authorization(cfg), PredictBody(text, cfg.threshold)))
      && (hash.GetOr("") != "" ==> CacheLookup(s.items, hash.value, now) == Some(CachedData(data, cfg)))
      && (hash.GetOr("") != "" ==> s.items == items[CacheKey(hash.value) := CacheRecord(now, CachedData(data, cfg))])
      && (hash.GetOr("") == "" ==> s.items == items)
  {
  }

  /**
   * The same post scanned twice within the TTL: the second reply comes from the cache, with
   * the first result and config, and no second request is made.
   */
  lemma RepeatScanHitsCache(items: map<string, StoredValue>, text: string, hash: string,
                            t1: int, t2: int, net1: Outcome, net2: Outcome)
    requires text != "" && hash != ""
    requires CacheLookup(items, hash, t1).None?
    requires net1.Response? && IsOk(net1.status) && net1.body.Parsed?
    requires t2 - t1 <= CACHE_TTL_MS
    ensures var msg := PredictMsg(Some(PredictPayload(Some(text), Some(hash))));
      var s1 := Route(items, msg, t1, net1);
      var s2 := Route(s1.items, msg, t2, net2);
      && s1.reply == PredictOk(false, net1.body.json, EffectiveConfig(items))
      && s2.reply == PredictOk(true, net1.body.json, EffectiveConfig(items))
      && s2.fetched == None
      && s2.items == s1.items
  {
  }

  // ----- feedback and unknown messages -----

  /** Feedback always posts to `/feedback` and never writes storage. */
  lemma FeedbackPostsAndKeepsStorage(items: map<string, StoredValue>, p: FeedbackPayload, now: int, net: Outcome)
    ensures var cfg := EffectiveConfig(items);
      var s := Route(items, FeedbackMsg(Some(p)), now, net);
      && s.items == items
      && s.fetched == Some(Request(Text.StripTrailingSlashes(cfg.apiBaseUrl) + "/feedback",
                                   Authorization(cfg), FeedbackBody(p, now)))
  {
    var s := Route(items, FeedbackMsg(Some(p)), now, net);
    assert s == FeedbackStep(items, p, now, net);
  }

  /**
   * A non-2xx feedback reply is acknowledged as queued locally; a 2xx JSON reply is passed on;
   * a transport failure or an unreadable body is reported as `ok:false`.
   */
  lemma FeedbackOutcomes(items: map<string, StoredValue>, p: FeedbackPayload, now: int, net: Outcome)
    ensures var r := Route(items, FeedbackMsg(Some(p)), now, net).reply;
      && (net.Response? && !IsOk(net.status) ==> r == FeedbackOk(QueuedLocal))
      && (net.Response? && IsOk(net.status) && net.body.Parsed? ==> r == FeedbackOk(ServerData(net.body.json)))
      && (net.TransportError? ==> r == Failure(net.error))
      && (net.Response? && IsOk(net.status) && net.body.Unparseable? ==> r == Failure(net.body.error))
  {
  }

  /** `getConfig` replies with the effective config, makes no request and writes nothing. */
  lemma GetConfigReplies(items: map<string, StoredValue>, now: int, net: Outcome)
    ensures Route(items, GetConfigMsg, now, net) == Step(ConfigOk(EffectiveConfig(items)), None, items)
  {
  }

  /** Any other message type: "Unknown message type", nothing else happens. */
  lemma UnknownMessageRejected(items: map<string, StoredValue>, now: int, net: Outcome)
    ensures Route(items, UnknownMsg, now, net) == Step(Failure(UNKNOWN_TYPE_ERROR), None, items)
  {
  }

  /** `getConfig`, `feedback` and unknown messages write nothing: only `predict` and `setConfig` can change storage. */
  lemma OnlyPredictAndSetConfigWrite(items: map<string, StoredValue>, msg: Message, now: int, net: Outcome)
    requires !msg.PredictMsg? && !msg.SetConfigMsg?
    ensures Route(items, msg, now, net).items == items
  {
  }

  // ----- endpoint URL -----

  /**
   * The endpoint is the base with its whole run of trailing slashes removed, then the path:
   * the base is that stripped prefix followed only by slashes.
   */
  lemma EndpointShape(base: string, path: string)
    ensures var stripped := Text.StripTrailingSlashes(base);
      && Endpoint(base, path) == stripped + path
      && |stripped| <= |base|
      && (stripped == [] || stripped[|stripped| - 1] != '/')
      && base == stripped + Text.Slashes(|base| - |stripped|)
  {
    Text.StripTrailingSlashesSplits(base);
  }

  /** Adding trailing slashes to the base URL does not change the endpoint. */
  lemma {:induction false} EndpointIgnoresTrailingSlashes(base: string, n: nat, path: string)
    ensures Endpoint(base + Text.Slashes(n), path) == Endpoint(base, path)
  {
    if n > 0 {
      var longer := base + Text.Slashes(n);
      assert longer[..|longer| - 1] == base + Text.Slashes(n - 1);
      EndpointIgnoresTrailingSlashes(base, n - 1, path);
    } else {
      assert base + Text.Slashes(0) == base;
    }
  }
}
