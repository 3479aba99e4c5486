/**
 * The extension's configuration record and the object-spread merge that both the service
 * worker and the settings page apply to it.
 */
module Config {
  import opened Wrappers

  /** An effective configuration: classifier base URL, decision threshold, optional API key. */
  datatype Config = Config(apiBaseUrl: string, threshold: real, apiKey: string)

  /**
   * A configuration object in which any field may be absent: the record persisted under
   * the "cfg" key, or the partial update a `setConfig` message carries.
   */
  datatype PartialConfig = PartialConfig(apiBaseUrl: Option<string>, threshold: Option<real>, apiKey: Option<string>)

  /** The worker's `DEFAULT_CONFIG`. */
  const DEFAULT_CONFIG: Config := Config("http://localhost:8000", 0.5, "")

  /** The object `{}`. */
  const EMPTY_PATCH: PartialConfig := PartialConfig(None, None, None)

  /** A complete record viewed as an object that has all three fields. */
  function Full(c: Config): PartialConfig {
    PartialConfig(Some(c.apiBaseUrl), Some(c.threshold), Some(c.apiKey))
  }

  /** `{ ...base, ...patch }`. */
  function Overlay(base: Config, patch: PartialConfig): Config {
    Config(patch.apiBaseUrl.GetOr(base.apiBaseUrl),
           patch.threshold.GetOr(base.threshold),
           patch.apiKey.GetOr(base.apiKey))
  }

  /** `{ ...first, ...second }` on two partial objects. */
  function Combine(first: PartialConfig, second: PartialConfig): PartialConfig {
    PartialConfig(if second.apiBaseUrl.Some? then second.apiBaseUrl else first.apiBaseUrl,
                  if second.threshold.Some? then second.threshold else first.threshold,
                  if second.apiKey.Some? then second.apiKey else first.apiKey)
  }

  /** A field present in the patch wins; a field absent from it keeps the base value. */
  lemma OverlayFields(base: Config, patch: PartialConfig)
    ensures patch.apiBaseUrl.Some? ==> Overlay(base, patch).apiBaseUrl == patch.apiBaseUrl.value
    ensures patch.apiBaseUrl.None? ==> Overlay(base, patch).apiBaseUrl == base.apiBaseUrl
    ensures patch.threshold.Some? ==> Overlay(base, patch).threshold == patch.threshold.value
    ensures patch.threshold.None? ==> Overlay(base, patch).threshold == base.threshold
    ensures patch.apiKey.Some? ==> Overlay(base, patch).apiKey == patch.apiKey.value
    ensures patch.apiKey.None? ==> Overlay(base, patch).apiKey == base.apiKey
  {
  }

  /** Merging `{}` changes nothing. */
  lemma OverlayEmpty(base: Config)
    ensures Overlay(base, EMPTY_PATCH) == base
  {
  }

  /** Merging a complete record replaces everything: the result is that record. */
  lemma OverlayFull(base: Config, c: Config)
    ensures Overlay(base, Full(c)) == c
  {
  }

  /** Two merges in a row are one merge of the combined patch. */
  lemma OverlayTwice(base: Config, first: PartialConfig, second: PartialConfig)
    ensures Overlay(Overlay(base, first), second) == Overlay(base, Combine(first, second))
  {
  }

  /** Merging the same patch again changes nothing more. */
  lemma OverlayIdempotent(base: Config, patch: PartialConfig)
    ensures Overlay(Overlay(base, patch), patch) == Overlay(base, patch)
  {
  }
}
