/**
 * `chrome.storage.local`: one durable map from string keys to stored values, shared by the
 * service worker and the settings page.
 */
module Storage {
  import opened Wrappers
  import opened Config
  import opened Protocol

  /** What the extension stores: the "cfg" record, or a cache entry `{ ts, data }`. */
  datatype StoredValue =
    | CfgRecord(cfg: PartialConfig)
    | CacheRecord(ts: int, data: CachedData)

  class StorageArea {
    var items: map<string, StoredValue>

    /** A fresh profile: nothing stored yet. */
    constructor()
      ensures items == map[]
    {
      items := map[];
    }

    /** `chrome.storage.local.get([key])`: the stored value, if there is one. */
    method Get(key: string) returns (v: Option<StoredValue>)
      ensures v == if key in items then Some(items[key]) else None
    {
      v := if key in items then Some(items[key]) else None;
    }

    /** `chrome.storage.local.set({ [key]: v })`: replaces the value under `key` and no other. */
    method Set(key: string, v: StoredValue)
      modifies this
      ensures items == old(items)[key := v]
    {
      items := items[key := v];
    }
  }
}
