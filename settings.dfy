/**
  The configuration schema shared by the background page and the content
  script: the supported platforms, the settings record the content script
  keeps, and the partial records that `chrome.storage.sync.get` and the
  `configUpdated` message spread over it.
 */
module Settings {
  import opened Wrappers

  datatype Platform = YouTube | Bilibili

  /** The content script's `config` object (the keys it reads). */
  datatype Config = Config(
    apiKey: string,
    danmakuFrequency: string,
    danmakuStyle: string,
    enabled: bool,
    danmakuDisplayArea: string)

  /** A partial settings object: the keys present in a storage result or an update message. */
  datatype Patch = Patch(
    apiKey: Option<string>,
    danmakuFrequency: Option<string>,
    danmakuStyle: Option<string>,
    enabled: Option<bool>,
    danmakuDisplayArea: Option<string>)

  /** The content script's initial `config` (src/danmaku.js:9-15). */
  const InitialConfig := Config("", "medium", "standard", true, "full")

  const NoChange := Patch(None, None, None, None, None)

  function Override<T>(present: Option<T>, current: T): T
  {
    if present.Some? then present.value else current
  }

  /** `{ ...c, ...p }` (src/danmaku.js:58, 817): a key present in `p` wins, every other key keeps its value in `c`. */
  function Merge(c: Config, p: Patch): (r: Config)
    ensures p.apiKey.Some? ==> r.apiKey == p.apiKey.value
    ensures p.apiKey.None? ==> r.apiKey == c.apiKey
    ensures p.danmakuFrequency.Some? ==> r.danmakuFrequency == p.danmakuFrequency.value
    ensures p.danmakuFrequency.None? ==> r.danmakuFrequency == c.danmakuFrequency
    ensures p.danmakuStyle.Some? ==> r.danmakuStyle == p.danmakuStyle.value
    ensures p.danmakuStyle.None? ==> r.danmakuStyle == c.danmakuStyle
    ensures p.enabled.Some? ==> r.enabled == p.enabled.value
    ensures p.enabled.None? ==> r.enabled == c.enabled
    ensures p.danmakuDisplayArea.Some? ==> r.danmakuDisplayArea == p.danmakuDisplayArea.value
    ensures p.danmakuDisplayArea.None? ==> r.danmakuDisplayArea == c.danmakuDisplayArea
  {
    Config(
      Override(p.apiKey, c.apiKey),
      Override(p.danmakuFrequency, c.danmakuFrequency),
      Override(p.danmakuStyle, c.danmakuStyle),
      Override(p.enabled, c.enabled),
      Override(p.danmakuDisplayArea, c.danmakuDisplayArea))
  }

  /** `{ ...p, ...q }` on two partial objects. */
  function Then(p: Patch, q: Patch): Patch
  {
    Patch(
      if q.apiKey.Some? then q.apiKey else p.apiKey,
      if q.danmakuFrequency.Some? then q.danmakuFrequency else p.danmakuFrequency,
      if q.danmakuStyle.Some? then q.danmakuStyle else p.danmakuStyle,
      if q.enabled.Some? then q.enabled else p.enabled,
      if q.danmakuDisplayArea.Some? then q.danmakuDisplayArea else p.danmakuDisplayArea)
  }

  /** Spreading two patches one after the other is spreading their combination. */
  lemma MergeThen(c: Config, p: Patch, q: Patch)
    ensures Merge(Merge(c, p), q) == Merge(c, Then(p, q))
  {
  }

  /** Spreading the same patch twice changes nothing the second time. */
  lemma MergeIdempotent(c: Config, p: Patch)
    ensures Merge(Merge(c, p), p) == Merge(c, p)
  {
  }
}
