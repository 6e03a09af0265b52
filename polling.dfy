/**
  What the two buttons share: the refresh timers they register with the
  store (their period, read from the `updateInterval` setting, and their
  ids) and the lookup in their per-instance caches.
 */
module Polling {
  import opened Protocol

  /** `cache.get(context) || ''`: the cached value of an instance, empty
      when there is none. */
  function Previous(cache: map<string, string>, context: string): string {
    if context in cache then cache[context] else ""
  }

  const DefaultUpdateInterval := 60000
  const MinUpdateInterval := 1000

  /** `settings?.updateInterval || 60000`: a missing or zero setting gives
      the default. */
  function UpdateIntervalSetting(setting: Option<int>): int {
    if setting.Some? && setting.value != 0 then setting.value else DefaultUpdateInterval
  }

  /** `Math.max(1000, Number(updateInterval) || 60000)`. */
  function PollInterval(setting: Option<int>): (r: int)
    ensures r >= MinUpdateInterval
    ensures setting.None? || setting.value == 0 ==> r == DefaultUpdateInterval
    ensures setting.Some? && setting.value >= MinUpdateInterval ==> r == setting.value
    ensures setting.Some? && setting.value != 0 && setting.value < MinUpdateInterval ==> r == MinUpdateInterval
  {
    var u := UpdateIntervalSetting(setting);
    var n := if u != 0 then u else DefaultUpdateInterval;
    if n > MinUpdateInterval then n else MinUpdateInterval
  }

  /** The timer of the text button's instance `context`. */
  function TextWatchId(context: string): string {
    "md-file-watch-" + context
  }

  /** The timer of the image button's instance `context`. */
  function ImageWatchId(context: string): string {
    "image-url-watch-" + context
  }

  /** The store's own timer, which retries the pending images. */
  const FlushTimerId := "sendPendingImages"

  /** The ids never collide: one per instance and button kind, and none is
      the store's own timer, so one button's cleanup never removes another
      button's timer. */
  lemma WatchIdsDistinct(a: string, b: string)
    ensures TextWatchId(a) == TextWatchId(b) <==> a == b
    ensures ImageWatchId(a) == ImageWatchId(b) <==> a == b
    ensures TextWatchId(a) != ImageWatchId(b)
    ensures TextWatchId(a) != FlushTimerId && ImageWatchId(a) != FlushTimerId
  {
    assert TextWatchId(a)[0] == 'm';
    assert ImageWatchId(b)[0] == 'i' && ImageWatchId(a)[0] == 'i';
    assert FlushTimerId[0] == 's';
    if TextWatchId(a) == TextWatchId(b) {
      assert a == TextWatchId(a)[14..];
      assert b == TextWatchId(b)[14..];
    }
    if ImageWatchId(a) == ImageWatchId(b) {
      assert a == ImageWatchId(a)[16..];
      assert b == ImageWatchId(b)[16..];
    }
  }
}
