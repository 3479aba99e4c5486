# LinkedIn faux-post detector — a Dafny model

This project models the decision logic of a browser extension. The extension puts a "Scan"
bar under each LinkedIn post and sends the post's text to a classifier server. It then shows
the verdict as a "Fake • n%" or "Real • n%" chip, and lets the reader report a wrong verdict.

Three parts are modelled:

- **The service worker** (`background.js`). It holds the configuration record in
  `chrome.storage.local`, merged over built-in defaults. It keeps a read-through cache of
  verdicts keyed by a fingerprint of the post, with a 24-hour lifetime. It routes the five
  kinds of message (`getConfig`, `setConfig`, `predict`, `feedback`, anything else), and
  every message gets exactly one response.
- **The content script** (`contentScript.js`). It covers what is extracted from a post and
  hashed into the fingerprint, and the per-post UI: the flag attribute that stops a second
  injection, and the Scan button / chip / "Wrong?" state machine. It also covers how a
  verdict is rendered, the single feedback dialog with the payload it sends, and the union
  of the three post selectors.
- **The settings page** (`options.js`). It covers its own read of the configuration, the
  Save validation, and the wholesale write of the record.

Files:

- `wrappers.dfy`: `Option`.
- `text.dfy`: JavaScript `trim`, `join`, the trailing-slash regex and `String(n)`.
- `config.dfy`: the configuration record and the object-spread merge.
- `protocol.dfy`: messages, replies, HTTP requests and fetch outcomes.
- `storage.dfy`: `chrome.storage.local`, as a class over a map.
- `background.dfy`: the worker, as methods, plus the function `Route` they are proved equal to.
- `background_props.dfy`: properties of `Route`.
- `content_script.dfy`: the content script; the post and its bar are classes.
- `options.dfy`: the settings page.
- `scenarios.dfy`: end-to-end walk-throughs that combine the page and the worker.

Time is an integer parameter (milliseconds). The outcome of each `fetch` is a parameter of
type `Protocol.Outcome`: a transport failure, or a response with a status, a body text and
a JSON body that may fail to parse. The worker returns the request it would have sent, so
"no network call" is stated as `fetched == None`. SHA-256 is a function parameter of the
click handler.

### Behaviour worth noting

Three consequences of the code as written:

- **Cache lifetime.** An entry counts as expired only when `now - ts > 24 h`. An entry aged
  exactly 24 h is therefore still a hit (`BackgroundProps.CacheValidWindow`).
- **Feedback transport failure.** When the feedback request fails in transport, the reply
  is `{ok:false, error}`, not a soft acknowledgement (`BackgroundProps.FeedbackOutcomes`).
  Only a non-2xx status gives `{ok:true, data:{status:"queued_local"}}`.
- **Fingerprint collisions.** The fingerprint input `text + "\n" + hrefs.join("\n")` tells
  posts apart only when the text and the hrefs contain no newline
  (`ContentScript.HashInputInjective`). A text containing a newline can collide with a
  different text and link list (`ContentScript.HashInputCollision`).

## Model

| member | source | states |
|---|---|---|
| Config.Overlay | linkedin-faux-post-detector/background.js:14 | `{...base, ...patch}` on the three fields; its meaning is stated by `OverlayFields` and the merge laws after it |
| Config.OverlayFields | linkedin-faux-post-detector/background.js:14 | In `{...base, ...patch}` every field present in the patch wins and every absent field keeps the base value |
| Config.OverlayEmpty | linkedin-faux-post-detector/background.js:46 | Merging `{}` leaves a configuration unchanged |
| Config.OverlayFull | linkedin-faux-post-detector/options.js:17 | Merging a complete record gives exactly that record, whatever the base |
| Config.OverlayTwice | linkedin-faux-post-detector/background.js:19-21 | Two successive merges equal one merge of the combined patch |
| Config.OverlayIdempotent | linkedin-faux-post-detector/background.js:19-21 | Merging the same patch twice changes nothing more |
| Storage.StorageArea.constructor | linkedin-faux-post-detector/background.js:13 | Storage starts empty |
| Storage.StorageArea.Get | linkedin-faux-post-detector/background.js:29-30 | A read returns the value under the key, or nothing when the key is absent |
| Storage.StorageArea.Set | linkedin-faux-post-detector/background.js:40 | A write replaces the value under that one key and leaves every other key as it was |
| Background.EffectiveConfig | linkedin-faux-post-detector/background.js:11-17 | What `getConfig` resolves to for a storage content; `BackgroundProps.EffectiveConfigWithoutRecord` and `EffectiveConfigOverrides` state its meaning |
| Background.CacheLookup | linkedin-faux-post-detector/background.js:27-36 | What `getCache` resolves to; `BackgroundProps.CacheValidWindow` and `CacheMissWithoutEntry` state when it hits |
| Background.CacheKey | linkedin-faux-post-detector/background.js:29 | The key is "cache:" followed by the fingerprint, and never the config key "cfg" |
| Background.Endpoint | linkedin-faux-post-detector/background.js:75 | The URL ends with the path, and what precedes the path does not end with '/' |
| Background.Authorization | linkedin-faux-post-detector/background.js:78 | The header is present exactly when the API key is non-empty, and then reads "Bearer " followed by the key |
| Background.PredictStep | linkedin-faux-post-detector/background.js:64-95 | The predict branch as a function of storage, time and fetch outcome; the `BackgroundProps.Predict*` lemmas and `RepeatScanHitsCache` state its properties |
| Background.FeedbackStep | linkedin-faux-post-detector/background.js:97-120 | The feedback branch as a function; `BackgroundProps.FeedbackPostsAndKeepsStorage` and `FeedbackOutcomes` state its properties |
| Background.Route | linkedin-faux-post-detector/background.js:51-133 | The router as a function giving one reply, the request sent and the new storage per message; `HandleMessage` is proved to perform it and `BackgroundProps` states its properties |
| Background.GetConfig | linkedin-faux-post-detector/background.js:11-17 | Returns the defaults overlaid with the persisted "cfg" record, or the defaults when there is none |
| Background.SetConfig | linkedin-faux-post-detector/background.js:19-25 | Returns the current config with the partial merged over it; persists exactly that under "cfg" and nothing else |
| Background.GetCache | linkedin-faux-post-detector/background.js:27-36 | Returns the entry's data when it exists and `now - ts <= 24 h`, else nothing; changes no storage |
| Background.SetCache | linkedin-faux-post-detector/background.js:38-42 | Overwrites the fingerprint's entry with `{ts: now, data}` and touches no other key |
| Background.OnInstalled | linkedin-faux-post-detector/background.js:45-48 | Installation persists the current effective config and leaves it unchanged |
| Background.HandlePredict | linkedin-faux-post-detector/background.js:64-95 | The predict branch sends exactly one response, the one `PredictStep` gives, with the storage and the request `PredictStep` gives |
| Background.HandleFeedback | linkedin-faux-post-detector/background.js:97-120 | The feedback branch sends exactly one response, the one `FeedbackStep` gives; its only storage access is reading the config |
| Background.HandleMessage | linkedin-faux-post-detector/background.js:51-133 | Every message gets exactly one `sendResponse` call, with the reply `Route` gives; the new storage and the request sent are `Route`'s |
| Background.ResponseChannel.SendResponse | linkedin-faux-post-detector/background.js:56 | Each call appends exactly one reply to the responses sent on the channel |
| BackgroundProps.EffectiveConfigWithoutRecord | linkedin-faux-post-detector/background.js:3-7 | With nothing persisted, `getConfig` gives `DEFAULT_CONFIG`, which is `http://localhost:8000`, 0.5 and "" |
| BackgroundProps.EffectiveConfigOverrides | linkedin-faux-post-detector/background.js:11-17 | Each persisted field overrides its default; each absent field keeps its default |
| BackgroundProps.SetConfigMerges | linkedin-faux-post-detector/background.js:59-62 | `setConfig` replies with the merged config, makes no request, rewrites only "cfg", and a later read sees the merge |
| BackgroundProps.SetConfigEmptyKeepsConfig | linkedin-faux-post-detector/background.js:60 | `setConfig` with `{}` or no payload leaves the effective config as it was and replies with it |
| BackgroundProps.ThresholdUpdateKeepsOtherFields | linkedin-faux-post-detector/background.js:19-25 | Setting only the threshold and reading back gives the new threshold with the URL and key unchanged |
| BackgroundProps.CacheKeysDistinct | linkedin-faux-post-detector/background.js:29 | Different fingerprints have different `cache:` keys, and no cache key is "cfg" |
| BackgroundProps.CacheMissWithoutEntry | linkedin-faux-post-detector/background.js:31 | A fingerprint with no entry misses |
| BackgroundProps.CacheValidWindow | linkedin-faux-post-detector/background.js:32 | An entry hits exactly while `now - ts <= 24 h`: at exactly 24 h it hits, 1 ms later it misses |
| BackgroundProps.SetCacheThenGet | linkedin-faux-post-detector/background.js:38-42 | A read at the time of a write returns the data just written |
| BackgroundProps.SetCacheIsolated | linkedin-faux-post-detector/background.js:40 | A write under one fingerprint changes no other fingerprint's lookup and not the config |
| BackgroundProps.PredictWithoutText | linkedin-faux-post-detector/background.js:65-66 | Empty or missing text, or a missing payload, replies "No text" with no cache read, no write and no request |
| BackgroundProps.PredictCacheHit | linkedin-faux-post-detector/background.js:69-72 | A valid cache entry is answered `fromCache: true` with its result and config, with no request and no write |
| BackgroundProps.PredictWithoutHashIgnoresCache | linkedin-faux-post-detector/background.js:69 | Without a fingerprint, storage is unchanged and the reply and request depend only on the effective config |
| BackgroundProps.PredictFailureCachesNothing | linkedin-faux-post-detector/background.js:86-91 | A transport failure, non-2xx status or unreadable body caches nothing and a request made then always ends in `ok:false`; on a miss with text the request is the one to `/predict`, a transport failure replies with its error and an unreadable 2xx body with the parse error |
| BackgroundProps.PredictRejectionMessage | linkedin-faux-post-detector/background.js:86-89 | A non-2xx reply reports "Error: Predict failed <status>: <body text>" |
| BackgroundProps.PredictSuccess | linkedin-faux-post-detector/background.js:74-94 | On a miss the worker posts `{text, threshold}` to the `/predict` endpoint; a 2xx JSON reply is returned with `fromCache` false and, with a fingerprint, the new storage is the old one plus exactly `cache:<hash>` = `{ts: now, data: {result, cfg}}`; without one storage is unchanged |
| BackgroundProps.RepeatScanHitsCache | linkedin-faux-post-detector/background.js:69-93 | The same post scanned again within 24 h is answered from the cache with the first result and config and no second request |
| BackgroundProps.FeedbackPostsAndKeepsStorage | linkedin-faux-post-detector/background.js:99-113 | Feedback posts the six fields and the time to the `/feedback` endpoint and never writes storage |
| BackgroundProps.FeedbackOutcomes | linkedin-faux-post-detector/background.js:105-119 | Non-2xx gives `queued_local`; 2xx JSON is passed on; a transport failure or unreadable body gives `ok:false` |
| BackgroundProps.UnknownMessageRejected | linkedin-faux-post-detector/background.js:122-124 | Any other message type replies "Unknown message type" and does nothing else |
| BackgroundProps.GetConfigReplies | linkedin-faux-post-detector/background.js:54-57 | `getConfig` replies with the effective config, makes no request and writes nothing |
| BackgroundProps.OnlyPredictAndSetConfigWrite | linkedin-faux-post-detector/background.js:54-124 | `getConfig`, `feedback` and unknown messages leave storage unchanged |
| BackgroundProps.EndpointShape | linkedin-faux-post-detector/background.js:75 | The endpoint is the base without its whole run of trailing slashes, then the path; what was removed is only slashes |
| BackgroundProps.EndpointIgnoresTrailingSlashes | linkedin-faux-post-detector/background.js:100 | Any number of trailing slashes on the base URL gives the same endpoint |
| Text.Trim | linkedin-faux-post-detector/options.js:29 | `trim()`: `TrimShape` states that it cuts only white space from the ends and leaves none there |
| Text.Join | linkedin-faux-post-detector/contentScript.js:37 | `Array.prototype.join`; `ContentScript.JoinInjective` shows joining newline-free hrefs with "\n" loses nothing |
| Text.TrimStartShape | linkedin-faux-post-detector/contentScript.js:30 | The result is a suffix of the input; what was cut is all white space and the result does not start with white space |
| Text.TrimEndShape | linkedin-faux-post-detector/contentScript.js:30 | The result is a prefix of the input; what was cut is all white space and the result does not end with white space |
| Text.TrimShape | linkedin-faux-post-detector/options.js:29 | `trim()` gives a slice of the input with only white space cut from each end, and no white space at either end of the result |
| Text.TrimIdempotent | linkedin-faux-post-detector/options.js:31 | Trimming twice equals trimming once |
| Text.TrimUntrimmed | linkedin-faux-post-detector/contentScript.js:30 | A non-empty string without white space at its ends is its own trimming |
| Text.StripTrailingSlashes | linkedin-faux-post-detector/background.js:75 | The result of `replace(/\/+$/, "")` does not end with '/' |
| Text.StripTrailingSlashesSplits | linkedin-faux-post-detector/background.js:100 | The input is the stripped string followed by a run of slashes |
| Text.StripTrailingSlashesIdempotent | linkedin-faux-post-detector/background.js:75 | Stripping twice equals stripping once |
| Text.NatToString | linkedin-faux-post-detector/background.js:88 | The status renders as decimal digits with no leading zero |
| Text.NatToStringRoundTrip | linkedin-faux-post-detector/background.js:88 | Reading the rendered digits back gives the status |
| Text.NatToStringInjective | linkedin-faux-post-detector/background.js:88 | Distinct statuses render as distinct digit strings |
| Text.IntToString | linkedin-faux-post-detector/contentScript.js:127-130 | `${conf}` for an integer: a '-' exactly for negatives, then at least one decimal digit |
| Text.IntToStringInjective | linkedin-faux-post-detector/contentScript.js:127-130 | Distinct percentages render as distinct strings |
| Protocol.PredictFailedError | linkedin-faux-post-detector/background.js:88 | `String(new Error(...))` for a rejected predict: "Error: Predict failed ", the status in decimal, ": ", the response text; `PredictFailedErrorInjective` shows the message determines status and text |
| Protocol.PredictFailedErrorInjective | linkedin-faux-post-detector/background.js:88 | Equal rejection messages come from the same status and the same response text, so distinct statuses give distinct error messages |
| Protocol.OkIsSuccessClass | linkedin-faux-post-detector/background.js:86 | `resp.ok` holds exactly for the 2xx statuses |
| ContentScript.Hrefs | linkedin-faux-post-detector/contentScript.js:32-35 | An href is kept exactly when it is non-empty and its anchor lies outside the injected bar and dialog |
| ContentScript.HrefsSingle | linkedin-faux-post-detector/contentScript.js:33-35 | One anchor yields its href exactly when it is outside the injected UI and the href is non-empty, and nothing otherwise |
| ContentScript.HrefsAppend | linkedin-faux-post-detector/contentScript.js:32-35 | The filter distributes over concatenation: hrefs keep document order and appear once per qualifying anchor |
| ContentScript.ExtractPostData | linkedin-faux-post-detector/contentScript.js:18-38 | `extractPostData` on an abstracted post; `ExtractPostDataShape` states what it returns |
| ContentScript.ExtractPostDataShape | linkedin-faux-post-detector/contentScript.js:30-37 | The text is the chosen rendering with only white space cut from its ends and none left there; the hrefs are exactly the non-empty ones outside the injected UI; the hrefs are `Hrefs` of the anchors and the fingerprint input is the text, a newline, then the hrefs joined by newlines |
| ContentScript.HashInput | linkedin-faux-post-detector/contentScript.js:37 | `text + "\n" + hrefs.join("\n")`; `HashInputInjective` and `HashInputCollision` state when it tells posts apart |
| ContentScript.ExtractKeepsCleanText | linkedin-faux-post-detector/contentScript.js:30-37 | A post whose text has no outer white space and no links extracts that text, no hrefs, and `text + "\n"` as fingerprint input |
| ContentScript.HashInputInjective | linkedin-faux-post-detector/contentScript.js:37 | For newline-free text and hrefs, equal fingerprint inputs mean equal text and equal href lists |
| ContentScript.HashInputCollision | linkedin-faux-post-detector/contentScript.js:37 | Text "a\nb" with link "c" and text "a" with links "b", "c" have the same fingerprint input |
| ContentScript.JoinInjective | linkedin-faux-post-detector/contentScript.js:37 | Joining non-empty, newline-free hrefs with "\n" is injective |
| ContentScript.LabelOf | linkedin-faux-post-detector/contentScript.js:121 | `result?.label ?? result?.result?.label ?? ""`; `FieldFallback` states the fallback |
| ContentScript.ProbFakeOf | linkedin-faux-post-detector/contentScript.js:122 | `result?.prob_fake ?? result?.result?.prob_fake ?? 0`; `FieldFallback` states the fallback |
| ContentScript.Percent | linkedin-faux-post-detector/contentScript.js:123 | `Math.round(x * 100)`: the integer nearest to `x * 100`, halves rounded up |
| ContentScript.PercentInRange | linkedin-faux-post-detector/contentScript.js:123 | A probability in [0, 1] rounds to a percentage in 0..100 |
| ContentScript.Confidence | linkedin-faux-post-detector/contentScript.js:123 | `label === "fake" ? probFake : 1 - probFake`; `ConfidenceOfLabel` states which probability is shown |
| ContentScript.RenderResult | linkedin-faux-post-detector/contentScript.js:120-135 | "fake" gets the fake class and `probFake` as percent; "real" gets the real class and `1 - probFake`; any other label gives "Unknown"; never a state chip |
| ContentScript.RenderFallsBackToNested | linkedin-faux-post-detector/contentScript.js:121-122 | With no top-level label or probability, the nested `result` object decides the chip |
| ContentScript.FieldFallback | linkedin-faux-post-detector/contentScript.js:121-122 | Label and probability each fall back on their own: top-level value, else the nested `result`'s, else "" and 0 |
| ContentScript.RenderWithoutLabel | linkedin-faux-post-detector/contentScript.js:132-134 | With a label nowhere the chip is "Unknown" |
| ContentScript.ConfidenceOfLabel | linkedin-faux-post-detector/contentScript.js:123 | The shown probability is `probFake` for "fake" and `1 - probFake` for anything else; it stays in [0, 1] when `probFake` does |
| ContentScript.RenderFakeExample | linkedin-faux-post-detector/contentScript.js:125-127 | `{label:"fake", prob_fake:0.92}` renders as "Fake • 92%" |
| ContentScript.FeedbackPayloadFor | linkedin-faux-post-detector/contentScript.js:162-170 | The payload carries the text, our label and the user's label; `prob_fake` defaults to 0, `model_version` is passed on when non-empty and is "v1" otherwise, `signals` to [] |
| ContentScript.Distinct | linkedin-faux-post-detector/contentScript.js:181-182 | `Array.from(new Set(s))` holds exactly the elements of `s`, each once |
| ContentScript.DistinctKeepsFirstOrder | linkedin-faux-post-detector/contentScript.js:181-182 | The set keeps the order of first occurrences |
| ContentScript.AllPosts | linkedin-faux-post-detector/contentScript.js:177-183 | The posts found are exactly the union of the three selector results, each once |
| ContentScript.Post.constructor | linkedin-faux-post-detector/contentScript.js:42 | An untouched post has no flag, no bar and no dialog |
| ContentScript.Post.OpenFeedbackDialog | linkedin-faux-post-detector/contentScript.js:138-160 | The existing dialog is removed before the new one is appended, so the post holds exactly the new dialog |
| ContentScript.Post.CloseDialog | linkedin-faux-post-detector/contentScript.js:155 | The "×" button removes the dialog and nothing else |
| ContentScript.Post.AnswerDialog | linkedin-faux-post-detector/contentScript.js:156-157 | An answer sends one feedback message with the payload for the captured verdict and text, then removes the dialog |
| ContentScript.Bar.constructor | linkedin-faux-post-detector/contentScript.js:45-63 | A new bar shows "Scan", chip "—" and a hidden "Wrong?" |
| ContentScript.Bar.Click | linkedin-faux-post-detector/contentScript.js:75-116 | The click disables the button and hides "Wrong?"; a text under 5 characters gives "No text" with no message; an exception gives "Error"; else it sends `predict` with the text and the hash, stays scanning and leaves the extracted text to the reply callback; a disabled button does nothing |
| ContentScript.Bar.OnPredictReply | linkedin-faux-post-detector/contentScript.js:93-108 | A missing or `ok:false` reply gives "Error" with "Wrong?" hidden; an ok reply renders the result and shows "Wrong?" bound to it and to the text the click sent; the button ends enabled as "Scan" |
| ContentScript.Bar.ClickWrong | linkedin-faux-post-detector/contentScript.js:105 | "Wrong?" opens the single dialog for the verdict and text of the last scan |
| ContentScript.InjectUi | linkedin-faux-post-detector/contentScript.js:41-72 | A missing or already flagged post is left as it is; otherwise the flag becomes "1" and exactly one fresh bar in its initial state is appended |
| Options.PageConfig | linkedin-faux-post-detector/options.js:1-13 | What the page's `getConfig` resolves to; `PageConfigAgreesWithWorker` shows it equals the worker's |
| Options.PageConfigAgreesWithWorker | linkedin-faux-post-detector/options.js:1-13 | The page's defaults and merge give the same configuration as the worker's for any storage |
| Options.GetConfig | linkedin-faux-post-detector/options.js:1-13 | Returns `http://localhost:8000`, 0.5 and "" overridden field by field by the persisted record |
| Options.ValidateSave | linkedin-faux-post-detector/options.js:28-38 | Accepted exactly when the trimmed URL is non-empty and the threshold is a number in [0, 1]; the URL error comes first; the record is the trimmed URL, the threshold and the trimmed key |
| Options.SavedRecordIsWellFormed | linkedin-faux-post-detector/options.js:29-36 | A saved record has a non-empty URL without outer white space, a threshold in [0, 1] and a trimmed key |
| Options.Save | linkedin-faux-post-detector/options.js:28-38 | A refused form shows its error and writes nothing; an accepted one replaces "cfg" with exactly the three fields and shows "Saved " |
| Options.SaveThenReadBack | linkedin-faux-post-detector/options.js:15-19 | After a save, both the page and the worker read back exactly the saved record, whatever was stored before |

## Left out

- SHA-256 (`sha256Hex`, `crypto.subtle`, `TextEncoder`): a function parameter of `Bar.Click`. It is deterministic, and nothing else is assumed about it.
- DOM plumbing is not modelled. A post's content is given as its `innerText`, its `textContent` and its anchors, each anchor marked with whether it lies inside the injected bar or dialog (`Hrefs` drops those). This leaves out the content-block and insertion-point selector heuristics, `cloneNode`, `createElement`/`appendChild`, the dialog's HTML and all styling.
- `observeFeed`, its `MutationObserver` and the `init` poll loop are not modelled. They approach the DOM for posts and call `injectUi`, which is modelled.
- `chrome.runtime` messaging, the callbacks and promises, `fetch` and JSON parsing and serialisation are modelled by value. Messages, replies, requests and fetch outcomes are datatypes. A JSON body is modelled only by the fields the extension reads. A body that parses to something other than an object is not distinguished.
- Concurrency: overlapping scans, racing `predict` calls and interleaved storage callbacks. Each message is handled to completion with one clock value.
- Floating point: `Math.round(x * 100)` is `floor(x * 100 + 0.5)` on exact reals.
- `parseFloat` is modelled only by its outcome, NaN or a number. An infinite threshold is refused like any other number above 1 (or below 0).
- The health-check button, `showStatus` and the page's `init` that fills the form are left out. Save returns the status it would show instead.
- `LinkedInScanExtension/content.js` is an early prototype and is not part of this model.
- Configuration fields other than `apiBaseUrl`, `threshold` and `apiKey` are not modelled, nor fields persisted with an explicit `undefined`. A persisted field always has a value of the expected type.
- `Bar.Click`: "shorter than 5 characters" is counted in Unicode characters. JavaScript counts UTF-16 code units, so texts with characters outside the Basic Multilingual Plane can differ.
- `Bar.Click`: the `throws` flag covers an exception from hashing or from `sendMessage`. An exception thrown inside `extractPostData` itself is not modelled.
- `Bar.OnPredictReply` is only called while its bar is scanning, because the callback is registered by a click. An ok reply without `result` renders as an object with no fields.
- `ContentScript.FeedbackPayloadFor` reads the verdict's top-level fields only, as `sendFeedback` does.
- ContentScript.Post.AnswerDialog: after an ok reply that has no `result`, the dialog's verdict is `undefined`. In the browser, answering "Correct is REAL" or "Correct is FAKE" then throws at `result.label` inside `sendFeedback`, so no message is sent and the dialog is not removed. The model reads such a verdict as an object with no fields, so it sends a message and removes the dialog.
- Background.PredictStep: a fresh successful reply `{ok:true, result, cfg}` has no `fromCache` key. `PredictOk(false, ...)` stands for that absent key.
- Console logging is left out.
