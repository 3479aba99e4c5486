/**
 * The values that travel between the page, the service worker and the classifier: the
 * internal message protocol, the worker's replies, the outbound HTTP requests and what a
 * `fetch` can come to. JSON is modelled by the fields the extension reads, each of them
 * possibly absent.
 */
module Protocol {
  import opened Wrappers
  import opened Config
  import Text

  /** The classifier fields of a JSON object (`label`, `prob_fake`, `model_version`, `top_signals`); any may be missing. */
  datatype Verdict = Verdict(labelText: Option<string>, probFake: Option<real>,
                             modelVersion: Option<string>, topSignals: Option<seq<string>>)

  /** A JSON object from the classifier: its own fields and an optional nested `result` object. */
  datatype ServerJson = ServerJson(fields: Verdict, result: Option<Verdict>)

  /** An object with none of the fields (also what `undefined?.x` reads as). */
  const EMPTY_JSON: ServerJson := ServerJson(Verdict(None, None, None, None), None)

  /** What `await resp.json()` produces: an object, or the message of the error it throws. */
  datatype JsonBody = Parsed(json: ServerJson) | Unparseable(error: string)

  /**
   * What one `fetch` comes to: a rejected promise (carrying `String(e)`), or a response with
   * its status, the text `resp.text()` yields ("" when reading it fails) and its JSON body.
   */
  datatype Outcome = TransportError(error: string) | Response(status: nat, text: string, body: JsonBody)

  /** `resp.ok`. */
  predicate IsOk(status: nat) {
    200 <= status <= 299
  }

  /** `resp.ok` holds exactly for the statuses of the 2xx class. */
  lemma OkIsSuccessClass(status: nat)
    ensures IsOk(status) <==> status / 100 == 2
  {
  }

  /** `{ text, hash }` of a `predict` message. */
  datatype PredictPayload = PredictPayload(text: Option<string>, hash: Option<string>)

  /** The six fields of a `feedback` message the worker forwards. */
  datatype FeedbackPayload = FeedbackPayload(text: Option<string>, ourLabel: Option<string>,
                                             userLabel: Option<string>, probFake: Option<real>,
                                             modelVersion: Option<string>, signals: Option<seq<string>>)

  /**
   * A message to the worker, by its `type`. A missing `payload` is `None`. `UnknownMsg` stands
   * for any message whose `type` is none of the four (including no message at all).
   */
  datatype Message =
    | GetConfigMsg
    | SetConfigMsg(partial: Option<PartialConfig>)
    | PredictMsg(predict: Option<PredictPayload>)
    | FeedbackMsg(feedback: Option<FeedbackPayload>)
    | UnknownMsg

  /** The `data` of a successful feedback reply. */
  datatype FeedbackData = QueuedLocal | ServerData(json: ServerJson)

  /**
   * The worker's replies: `{ok:true, cfg}`, `{ok:true, fromCache?, result, cfg}`,
   * `{ok:true, data}` and `{ok:false, error}`.
   */
  datatype Reply =
    | ConfigOk(cfg: Config)
    | PredictOk(fromCache: bool, result: ServerJson, cfg: Config)
    | FeedbackOk(data: FeedbackData)
    | Failure(error: string)
  {
    /** The reply's `ok` field. */
    predicate Ok() {
      !Failure?
    }
  }

  /** The JSON body of an outbound POST. */
  datatype RequestBody =
    | PredictBody(text: string, threshold: real)
    | FeedbackBody(payload: FeedbackPayload, ts: int)

  /** An outbound POST: its URL, its `Authorization` header if any, and its body. */
  datatype Request = Request(url: string, authorization: Option<string>, body: RequestBody)

  /** The value cached per fingerprint: `{ result, cfg }`. */
  datatype CachedData = CachedData(result: ServerJson, cfg: Config)

  const NO_TEXT_ERROR: string := "No text"
  const UNKNOWN_TYPE_ERROR: string := "Unknown message type"

  /** `String(new Error(`Predict failed ${status}: ${t}`))`. */
  function PredictFailedError(status: nat, text: string): string {
    "Error: Predict failed " + Text.NatToString(status) + ": " + text
  }

  /** The rejection message determines both the HTTP status and the response text it reports. */
  lemma PredictFailedErrorInjective(s1: nat, t1: string, s2: nat, t2: string)
    requires PredictFailedError(s1, t1) == PredictFailedError(s2, t2)
    ensures s1 == s2 && t1 == t2
  {
    var prefix := "Error: Predict failed ";
    var d1, d2 := Text.NatToString(s1), Text.NatToString(s2);
    var r1, r2 := ": " + t1, ": " + t2;
    var e := PredictFailedError(s1, t1);
    assert e == prefix + (d1 + r1) && e == prefix + (d2 + r2);
    assert e[|prefix|..] == d1 + r1 && e[|prefix|..] == d2 + r2;
    Text.DigitsThenRestSplit(d1, r1, d2, r2);
    assert t1 == r1[2..] && t2 == r2[2..];
    Text.NatToStringInjective(s1, s2);
  }
}
