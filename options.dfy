/**
 * The settings page: it reads the configuration with its own copy of the defaults and, on
 * Save, validates the form and writes the "cfg" record wholesale (no merge).
 */
module Options {
  import opened Wrappers
  import opened Config
  import opened Storage
  import Text
  import Background

  /** What `parseFloat` returned for the threshold field. */
  datatype ParsedNumber = NaN | Finite(value: real)

  /** The status line `showStatus(msg, isErr)` displays. */
  datatype Status = Status(message: string, isError: bool)

  const MISSING_URL_STATUS: Status := Status("Please enter API Base URL", true)
  const BAD_THRESHOLD_STATUS: Status := Status("Invalid threshold", true)
  const SAVED_STATUS: Status := Status("Saved ", false)

  /** The page's own defaults. */
  const PAGE_DEFAULTS: Config := Config("http://localhost:8000", 0.5, "")

  /** What the page's `getConfig()` resolves to. */
  function PageConfig(items: map<string, StoredValue>): Config {
    if Background.CFG_KEY in items && items[Background.CFG_KEY].CfgRecord? then
      Overlay(PAGE_DEFAULTS, items[Background.CFG_KEY].cfg)
    else PAGE_DEFAULTS
  }

  /** The settings page and the service worker resolve the stored record to the same configuration. */
  lemma PageConfigAgreesWithWorker(items: map<string, StoredValue>)
    ensures PageConfig(items) == Background.EffectiveConfig(items)
  {
  }

  /** The page's `getConfig()`. */
  method GetConfig(st: StorageArea) returns (cfg: Config)
    ensures cfg == PageConfig(st.items)
  {
    var v := st.Get(Background.CFG_KEY);
    if v.Some? && v.value.CfgRecord? {
      cfg := Overlay(PAGE_DEFAULTS, v.value.cfg);
    } else {
      cfg := PAGE_DEFAULTS;
    }
  }

  /** What Save decides for the raw form fields: the record to store, or the error to show. */
  datatype SaveDecision = Store(cfg: Config) | Reject(status: Status)

  /**
   * The Save handler's checks, in order: an empty trimmed URL is refused first, then a NaN
   * threshold or one outside [0, 1]; otherwise the trimmed URL, the threshold and the trimmed
   * key form the record.
   */
  function ValidateSave(urlField: string, threshold: ParsedNumber, keyField: string): (d: SaveDecision)
    ensures d.Store? <==> Text.Trim(urlField) != "" && threshold.Finite? && 0.0 <= threshold.value <= 1.0
    ensures Text.Trim(urlField) == "" ==> d == Reject(MISSING_URL_STATUS)
    ensures Text.Trim(urlField) != "" && d.Reject? ==> d == Reject(BAD_THRESHOLD_STATUS)
    ensures d.Store? ==> d.cfg == Config(Text.Trim(urlField), threshold.value, Text.Trim(keyField))
  {
    var url := Text.Trim(urlField);
    var key := Text.Trim(keyField);
    if url == "" then Reject(MISSING_URL_STATUS)
    else if threshold.NaN? || threshold.value < 0.0 || threshold.value > 1.0 then Reject(BAD_THRESHOLD_STATUS)
    else Store(Config(url, threshold.value, key))
  }

  /** Every stored record has a non-empty URL with no white space at its ends and a threshold in [0, 1]. */
  lemma SavedRecordIsWellFormed(urlField: string, threshold: ParsedNumber, keyField: string)
    requires ValidateSave(urlField, threshold, keyField).Store?
    ensures var c := ValidateSave(urlField, threshold, keyField).cfg;
      && c.apiBaseUrl != "" && !Text.IsJsSpace(c.apiBaseUrl[0]) && !Text.IsJsSpace(c.apiBaseUrl[|c.apiBaseUrl| - 1])
      && 0.0 <= c.threshold <= 1.0
      && Text.Trim(c.apiKey) == c.apiKey
  {
    Text.TrimShape(urlField);
    Text.TrimIdempotent(keyField);
  }

  /**
   * The Save button. A refused form shows the error and writes nothing; an accepted one
   * replaces the "cfg" record with exactly the three validated fields and shows "Saved ".
   */
  method Save(st: StorageArea, urlField: string, threshold: ParsedNumber, keyField: string) returns (status: Status)
    modifies st
    ensures ValidateSave(urlField, threshold, keyField).Reject? ==>
      status == ValidateSave(urlField, threshold, keyField).status && st.items == old(st.items)
    ensures ValidateSave(urlField, threshold, keyField).Store? ==>
      && status == SAVED_STATUS
      && st.items == old(st.items)[Background.CFG_KEY := CfgRecord(Full(ValidateSave(urlField, threshold, keyField).cfg))]
  {
    var apiBaseUrl := Text.Trim(urlField);
    var apiKey := Text.Trim(keyField);
    if apiBaseUrl == "" {
      return MISSING_URL_STATUS;
    }
    if threshold.NaN? || threshold.value < 0.0 || threshold.value > 1.0 {
      return BAD_THRESHOLD_STATUS;
    }
    st.Set(Background.CFG_KEY, CfgRecord(Full(Config(apiBaseUrl, threshold.value, apiKey))));
    status := SAVED_STATUS;
  }

  /**
   * After a successful save both the page and the worker read back exactly the saved record,
   * whatever was stored before: the write replaces, it does not merge.
   */
  lemma SaveThenReadBack(items: map<string, StoredValue>, urlField: string, threshold: ParsedNumber, keyField: string)
    requires ValidateSave(urlField, threshold, keyField).Store?
    ensures var c := ValidateSave(urlField, threshold, keyField).cfg;
      var after := items[Background.CFG_KEY := CfgRecord(Full(c))];
      PageConfig(after) == c && Background.EffectiveConfig(after) == c
  {
    OverlayFull(PAGE_DEFAULTS, ValidateSave(urlField, threshold, keyField).cfg);
  }
}
