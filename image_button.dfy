/**
  The image button (`imageButton.ts`): a key that shows an image fetched
  from a configured URL, refetched when the URL changes.

  The fetch and the blob-to-data-URL conversion are inputs: `ImageInputs`
  holds the response to the image request and the data URL the reader
  produced (`None` when it failed). Each handler is one atomic step; a load
  that the source starts without awaiting it is modelled as completing at
  the end of the handler that started it.
 */
module ImageButton {
  import opened Protocol
  import opened JsString
  import opened Http
  import opened PluginStore
  import opened Polling

  const DefaultImageName := "httpImage"

  datatype ImageInputs = ImageInputs(response: Response, dataUrl: Option<string>)

  /** The outcome of one `loadImageContent`: the cache after it, the URL
      fetched (if a fetch was made), the image set, and the path the image
      is saved under. */
  datatype ImageLoad = ImageLoad(
    cache: map<string, string>,
    fetched: Option<string>,
    image: Option<string>,
    savedPath: Option<string>)

  /** `settings?.imageUrl || ''`. */
  function ImageUrl(s: Settings): string {
    StringOr(s.imageUrl, "")
  }

  /** `last/<imageName>.png`, `httpImage` by default. */
  function SavedImagePath(s: Settings): string {
    "last/" + StringOr(s.imageName, DefaultImageName) + ".png"
  }

  /** The data URL of a fetch: only a 2xx response read to a non-empty
      result gives one; a status error, a thrown fetch, a failed read and an
      empty result all give none. */
  function FetchedImage(inputs: ImageInputs): (r: Option<string>)
    ensures r.Some? ==> inputs.response.Response? && IsOk(inputs.response.status) && r == inputs.dataUrl
    ensures r.Some? ==> r.value != []
    ensures inputs.response.Response? && IsOk(inputs.response.status) && Truthy(inputs.dataUrl) ==>
      r == inputs.dataUrl
  {
    if inputs.response.Response? && IsOk(inputs.response.status) && Truthy(inputs.dataUrl) then inputs.dataUrl
    else None
  }

  /** The handler `useWatchEvent` runs for an action-level message of this
      button: only `willAppear`, `willDisappear` and `didReceiveSettings`
      have one. */
  datatype ImageHandler =
    | AppearHandler(forget: bool)
    | DisappearHandler
    | NoHandler

  function HandlerOf(msg: Message): ImageHandler {
    if msg.event == "willAppear" then AppearHandler(false)
    else if msg.event == "willDisappear" then DisappearHandler
    else if msg.event == "didReceiveSettings" then AppearHandler(true)
    else NoHandler
  }

  /** What `loadImageContent` does for an instance with settings `s`:
      nothing without a URL, nothing for the cached URL unless forced;
      otherwise the URL is cached before the fetch, and the image is set
      and saved only when the fetch succeeds. */
  function ImageStep(cache: map<string, string>, context: string, s: Settings, force: bool,
                     inputs: ImageInputs): (r: ImageLoad)
    ensures r.fetched.None? ==> r == ImageLoad(cache, None, None, None)
    ensures r.fetched.Some? ==> r.fetched.value == ImageUrl(s) && r.cache == cache[context := ImageUrl(s)]
    ensures r.image.Some? ==> r.fetched.Some?
  {
    var url := ImageUrl(s);
    if url == [] then ImageLoad(cache, None, None, None)
    else if url == Previous(cache, context) && !force then ImageLoad(cache, None, None, None)
    else
      var image := FetchedImage(inputs);
      ImageLoad(cache[context := url], Some(url), image, if image.Some? then Some(SavedImagePath(s)) else None)
  }

  /** No URL: no fetch, no change. */
  lemma ImageStepNoUrl(cache: map<string, string>, context: string, s: Settings, force: bool,
                       inputs: ImageInputs)
    requires !Truthy(s.imageUrl)
    ensures ImageStep(cache, context, s, force, inputs) == ImageLoad(cache, None, None, None)
  {
  }

  /** A fetch happens exactly when there is a URL and it differs from the
      cached one or the load is forced. */
  lemma ImageStepFetches(cache: map<string, string>, context: string, s: Settings, force: bool,
                         inputs: ImageInputs)
    ensures ImageStep(cache, context, s, force, inputs).fetched.Some?
        <==> Truthy(s.imageUrl) && (force || ImageUrl(s) != Previous(cache, context))
  {
  }

  /** A failed fetch sets no image, yet the URL stays cached: the timer will
      not retry it. */
  lemma ImageStepFailureKeepsUrl(cache: map<string, string>, context: string, s: Settings, force: bool,
                                 inputs: ImageInputs)
    requires FetchedImage(inputs).None?
    ensures var r := ImageStep(cache, context, s, force, inputs);
      && r.image.None? && r.savedPath.None?
      && (r.fetched.Some? ==> r.cache == cache[context := ImageUrl(s)])
  {
  }

  /** A successful fetch sets the data URL read from the response and saves
      it as `last/<imageName>.png`. */
  lemma ImageStepSuccess(cache: map<string, string>, context: string, s: Settings, force: bool,
                         inputs: ImageInputs)
    requires FetchedImage(inputs).Some?
    requires ImageStep(cache, context, s, force, inputs).fetched.Some?
    ensures var r := ImageStep(cache, context, s, force, inputs);
      && r.image == inputs.dataUrl
      && r.savedPath == Some(SavedImagePath(s))
  {
  }

  /** Without an image name the image is saved as `last/httpImage.png`. */
  lemma DefaultSavedImagePath(s: Settings)
    requires !Truthy(s.imageName)
    ensures SavedImagePath(s) == "last/httpImage.png"
  {
  }

  /** Once the instance's URL is forgotten (by its cleanup, or by
      `didReceiveSettings`), the next unforced load fetches it again. */
  lemma ImageStepRefetchesForgotten(cache: map<string, string>, context: string, s: Settings,
                                    inputs: ImageInputs)
    requires context !in cache && Truthy(s.imageUrl)
    ensures ImageStep(cache, context, s, false, inputs).fetched == Some(ImageUrl(s))
  {
  }

  /** After any load, an unforced load with the same settings fetches
      nothing and changes nothing, whatever the first fetch gave. */
  lemma ImageStepIdempotent(cache: map<string, string>, context: string, s: Settings, force: bool,
                            inputs: ImageInputs, inputs': ImageInputs)
    ensures var r := ImageStep(cache, context, s, force, inputs);
      ImageStep(r.cache, context, s, false, inputs') == ImageLoad(r.cache, None, None, None)
  {
    var r := ImageStep(cache, context, s, force, inputs);
    if r.fetched.None? && ImageUrl(s) != [] {
      assert ImageUrl(s) == Previous(cache, context);
    }
  }

  /** One registration of the image button with the store: the URL cached
      per instance and the instances whose refresh timer is running. */
  class ImageButton {
    const plugin: Plugin
    const actionId: string
    var imageUrlMap: map<string, string>
    var watcherCleanups: set<string>

    /** The store's timers are consistent, each watched instance's timer
        reloads that instance's image, and no image timer runs without its
        cleanup. */
    ghost predicate Valid()
      reads this, plugin
    {
      && plugin.Valid()
      && (forall c :: c in watcherCleanups ==>
            FiredTask(plugin.timers, "setInterval", ImageWatchId(c)) == Some(ReloadImage(c)))
      && (forall c :: Subscribed(plugin.timers, ImageWatchId(c)) ==> c in watcherCleanups)
    }

    constructor (plugin: Plugin, actionId: string)
      requires plugin.Valid()
      requires forall c :: !Subscribed(plugin.timers, ImageWatchId(c))
      ensures Valid()
      ensures this.plugin == plugin && this.actionId == actionId
      ensures imageUrlMap == map[] && watcherCleanups == {}
    {
      this.plugin := plugin;
      this.actionId := actionId;
      imageUrlMap := map[];
      watcherCleanups := {};
    }

    /** What a load of `context` from `cache` does: `ImageStep` for a known
        instance, nothing for an unknown one. */
    function LoadStep(cache: map<string, string>, context: string, force: bool, inputs: ImageInputs): ImageLoad
      reads plugin
    {
      var inst := GetAction(plugin.actions, context);
      if inst.Some? then ImageStep(cache, context, inst.value.settings, force, inputs)
      else ImageLoad(cache, None, None, None)
    }

    /** The state a watch of `context` leaves, from the cleanups, timers and
        worker log before it: the instance is watched exactly when it is
        registered, its timer fires its reload, every other timer is as it
        was, and the log gains the cleanup's `clearInterval` and the new
        `setInterval`. */
    ghost predicate Watching(watched: set<string>, timers: seq<Subscription>, log: seq<WorkerRequest>,
                             context: string)
      reads this, plugin
    {
      var known := HasContext(plugin.actions, context);
      && watcherCleanups == (if known then watched + {context} else watched - {context})
      && FiredTask(plugin.timers, "setInterval", ImageWatchId(context)) ==
           (if known then Some(ReloadImage(context)) else None)
      && (forall u :: u != ImageWatchId(context) ==>
            FiredTask(plugin.timers, "setInterval", u) == FiredTask(timers, "setInterval", u))
      && plugin.workerLog == log
           + (if context in watched then [ClearIntervalRequest(ImageWatchId(context))] else [])
           + (if known
              then [SetIntervalRequest(ImageWatchId(context),
                                       PollInterval(GetAction(plugin.actions, context).value.settings.updateInterval))]
              else [])
    }

    /** The state `willDisappear` leaves, from the cleanups, cache, timers
        and worker log before it: no watch of the instance remains, its
        cached URL is gone if it was watched, and every other timer is as it
        was. */
    ghost predicate Stopped(watched: set<string>, cache: map<string, string>, timers: seq<Subscription>,
                            log: seq<WorkerRequest>, context: string)
      reads this, plugin
    {
      && watcherCleanups == watched - {context}
      && imageUrlMap == (if context in watched then cache - {context} else cache)
      && !Subscribed(plugin.timers, ImageWatchId(context))
      && (forall u :: u != ImageWatchId(context) ==>
            FiredTask(plugin.timers, "setInterval", u) == FiredTask(timers, "setInterval", u))
      && plugin.workerLog == log + (if context in watched then [ClearIntervalRequest(ImageWatchId(context))] else [])
    }

    /** `loadImageContent(context, force)`: nothing for an unknown instance;
        otherwise the cache follows `ImageStep` and a fetched image goes
        through `setImage`. Returns the URL fetched and the path the image
        is saved under, if any. */
    method LoadImageContent(context: string, force: bool, inputs: ImageInputs, sendThrows: bool)
      returns (fetched: Option<string>, savedPath: Option<string>)
      requires Valid()
      modifies this`imageUrlMap, plugin`pendingImages, plugin`sent
      ensures Valid()
      ensures !HasContext(plugin.actions, context) ==>
        && imageUrlMap == old(imageUrlMap) && fetched.None? && savedPath.None?
        && plugin.pendingImages == old(plugin.pendingImages) && plugin.sent == old(plugin.sent)
      ensures HasContext(plugin.actions, context) ==>
        var r := ImageStep(old(imageUrlMap), context, GetAction(plugin.actions, context).value.settings, force, inputs);
        && imageUrlMap == r.cache && fetched == r.fetched && savedPath == r.savedPath
        && (r.image.None? ==> plugin.pendingImages == old(plugin.pendingImages) && plugin.sent == old(plugin.sent))
        && (r.image.Some? ==>
              var e := SetImageEffect(plugin.server, context, r.image.value, sendThrows);
              plugin.pendingImages == old(plugin.pendingImages) + e.queued && plugin.sent == old(plugin.sent) + e.frames)
    {
      fetched, savedPath := None, None;
      var inst := GetAction(plugin.actions, context);
      if inst.None? {
        return;
      }
      var settings := inst.value.settings;
      var imageUrl := ImageUrl(settings);
      if imageUrl == [] {
        return;
      }
      var previousUrl := if context in imageUrlMap then imageUrlMap[context] else "";
      if imageUrl == previousUrl && !force {
        return;
      }
      imageUrlMap := imageUrlMap[context := imageUrl];
      fetched := Some(imageUrl);
      var dataUrl := FetchedImage(inputs);
      if dataUrl.None? {
        return;
      }
      plugin.SendImage(inst.value, dataUrl.value, sendThrows);
      savedPath := Some(SavedImagePath(settings));
    }

    /** The cleanup closure of a watched instance: stops its timer and
        forgets its cleanup and its cached URL. */
    method Cleanup(context: string)
      requires Valid() && context in watcherCleanups
      modifies this`imageUrlMap, this`watcherCleanups, plugin`timers, plugin`workerLog
      ensures Valid()
      ensures watcherCleanups == old(watcherCleanups) - {context}
      ensures imageUrlMap == old(imageUrlMap) - {context}
      ensures plugin.timers == RemoveTimer(old(plugin.timers), ImageWatchId(context))
      ensures !Subscribed(plugin.timers, ImageWatchId(context))
      ensures plugin.workerLog == old(plugin.workerLog) + [ClearIntervalRequest(ImageWatchId(context))]
      ensures forall u :: u != ImageWatchId(context) ==>
        FiredTask(plugin.timers, "setInterval", u) == FiredTask(old(plugin.timers), "setInterval", u)
    {
      ghost var before := plugin.timers;
      plugin.Unterval(ImageWatchId(context));
      watcherCleanups := watcherCleanups - {context};
      imageUrlMap := imageUrlMap - {context};
      forall u | u != ImageWatchId(context)
        ensures FiredTask(plugin.timers, "setInterval", u) == FiredTask(before, "setInterval", u)
      {
        OtherTasksKept(before, ImageWatchId(context), ReloadImage(context), u);
      }
      forall c | c in watcherCleanups
        ensures FiredTask(plugin.timers, "setInterval", ImageWatchId(c)) == Some(ReloadImage(c))
      {
        WatchIdsDistinct(c, context);
      }
      forall c | Subscribed(plugin.timers, ImageWatchId(c))
        ensures c in watcherCleanups
      {
        WatchIdsDistinct(c, context);
      }
    }

    /** `watchImageUrl(context)`: runs the instance's cleanup first if it
        has one; then, for a known instance, starts the timer
        `image-url-watch-<context>` with the period of its settings, which
        reloads the image unforced, and records the cleanup. */
    method WatchImageUrl(context: string)
      requires Valid()
      modifies this`imageUrlMap, this`watcherCleanups, plugin`timers, plugin`workerLog
      ensures Valid()
      ensures imageUrlMap ==
        if context in old(watcherCleanups) then old(imageUrlMap) - {context} else old(imageUrlMap)
      ensures Watching(old(watcherCleanups), old(plugin.timers), old(plugin.workerLog), context)
    {
      if context in watcherCleanups {
        Cleanup(context);
      }
      var inst := GetAction(plugin.actions, context);
      if inst.None? {
        FiredTaskSpec(plugin.timers, "setInterval", ImageWatchId(context));
        return;
      }
      StartTimer(context, PollInterval(inst.value.settings.updateInterval));
    }

    /** The part of the watch after the cleanup: the instance's timer, with
        its reload callback, and the record of its cleanup. */
    method StartTimer(context: string, interval: int)
      requires Valid() && context !in watcherCleanups
      modifies this`watcherCleanups, plugin`timers, plugin`workerLog
      ensures Valid()
      ensures watcherCleanups == old(watcherCleanups) + {context}
      ensures FiredTask(plugin.timers, "setInterval", ImageWatchId(context)) == Some(ReloadImage(context))
      ensures forall u :: u != ImageWatchId(context) ==>
        FiredTask(plugin.timers, "setInterval", u) == FiredTask(old(plugin.timers), "setInterval", u)
      ensures plugin.workerLog == old(plugin.workerLog) + [SetIntervalRequest(ImageWatchId(context), interval)]
    {
      var id := ImageWatchId(context);
      ghost var before := plugin.timers;
      plugin.Interval(id, interval, ReloadImage(context));
      watcherCleanups := watcherCleanups + {context};
      AddedTask(before, id, ReloadImage(context));
      forall u | u != id
        ensures FiredTask(plugin.timers, "setInterval", u) == FiredTask(before, "setInterval", u)
      {
        OtherTasksKept(before, id, ReloadImage(context), u);
      }
      forall c | c in watcherCleanups
        ensures FiredTask(plugin.timers, "setInterval", ImageWatchId(c)) == Some(ReloadImage(c))
      {
        WatchIdsDistinct(c, context);
      }
      forall c | Subscribed(plugin.timers, ImageWatchId(c))
        ensures c in watcherCleanups
      {
        WatchIdsDistinct(c, context);
        if c != context {
          FiredTaskSpec(plugin.timers, "setInterval", ImageWatchId(c));
          FiredTaskSpec(before, "setInterval", ImageWatchId(c));
        }
      }
    }

    /** The instance's cleanup, when it has one (`willDisappear`). */
    method StopWatching(context: string)
      requires Valid()
      modifies this`imageUrlMap, this`watcherCleanups, plugin`timers, plugin`workerLog
      ensures Valid()
      ensures Stopped(old(watcherCleanups), old(imageUrlMap), old(plugin.timers), old(plugin.workerLog), context)
      ensures context !in old(watcherCleanups) ==> plugin.timers == old(plugin.timers)
    {
      if context in watcherCleanups {
        Cleanup(context);
      }
    }

    /** An action-level message, as `useWatchEvent` routes it to this
        button: ignored unless accepted; then the built-in handler updates
        the registry and the button's own handler runs. */
    method OnMessage(msg: Message, inputs: ImageInputs, sendThrows: bool)
      requires Valid()
      modifies this`imageUrlMap, this`watcherCleanups, plugin`actions,
               plugin`timers, plugin`workerLog, plugin`pendingImages, plugin`sent
      ensures Valid()
      ensures !Accepts(msg, Some(actionId)) ==>
        && imageUrlMap == old(imageUrlMap) && watcherCleanups == old(watcherCleanups)
        && plugin.actions == old(plugin.actions) && plugin.timers == old(plugin.timers)
        && plugin.workerLog == old(plugin.workerLog)
        && plugin.pendingImages == old(plugin.pendingImages) && plugin.sent == old(plugin.sent)
      ensures Accepts(msg, Some(actionId)) ==> plugin.actions == BuiltInStep(old(plugin.actions), msg)
      ensures Accepts(msg, Some(actionId)) && HandlerOf(msg).AppearHandler? ==>
        && Watching(old(watcherCleanups), old(plugin.timers), old(plugin.workerLog), msg.context)
        && Appeared(old(imageUrlMap), old(watcherCleanups), old(plugin.pendingImages), old(plugin.sent),
                    msg.context, HandlerOf(msg).forget, inputs, sendThrows)
      ensures Accepts(msg, Some(actionId)) && HandlerOf(msg).DisappearHandler? ==>
        && Stopped(old(watcherCleanups), old(imageUrlMap), old(plugin.timers), old(plugin.workerLog), msg.context)
        && plugin.pendingImages == old(plugin.pendingImages) && plugin.sent == old(plugin.sent)
      ensures HandlerOf(msg).NoHandler? ==>
        && imageUrlMap == old(imageUrlMap) && watcherCleanups == old(watcherCleanups)
        && plugin.timers == old(plugin.timers) && plugin.workerLog == old(plugin.workerLog)
        && plugin.pendingImages == old(plugin.pendingImages) && plugin.sent == old(plugin.sent)
    {
      if !Accepts(msg, Some(actionId)) {
        return;
      }
      plugin.RunBuiltIn(msg);
      match HandlerOf(msg)
      case AppearHandler(forget) =>
        Appear(msg.context, forget, inputs, sendThrows);
      case DisappearHandler =>
        StopWatching(msg.context);
      case NoHandler =>
    }

    /** The cache and the key after `willAppear` or `didReceiveSettings`,
        from the cache, cleanups, queue and frames before it: the forced
        load's cache, less the entry that the cleanup of an earlier watch
        forgets, and the image it fetched sent to the key. */
    ghost predicate Appeared(cache: map<string, string>, watched: set<string>, pending: seq<PendingImage>,
                             sent: seq<Frame>, context: string, forget: bool, inputs: ImageInputs,
                             sendThrows: bool)
      reads this, plugin
    {
      var r := LoadStep(if forget then cache - {context} else cache, context, true, inputs);
      var e := OptionalImageEffect(plugin.server, context, r.image, sendThrows);
      && imageUrlMap == (if context in watched then r.cache - {context} else r.cache)
      && plugin.pendingImages == pending + e.queued && plugin.sent == sent + e.frames
    }

    /** `willAppear` and `didReceiveSettings` (which first forgets the
        cached URL): the forced load runs up to its fetch, which caches the
        URL, then the watch starts, whose cleanup of an earlier watch
        forgets the URL again; the fetched image is set afterwards. The
        image does not depend on the cache, since the load is forced. */
    method Appear(context: string, forget: bool, inputs: ImageInputs, sendThrows: bool)
      requires Valid()
      modifies this`imageUrlMap, this`watcherCleanups,
               plugin`timers, plugin`workerLog, plugin`pendingImages, plugin`sent
      ensures Valid()
      ensures Watching(old(watcherCleanups), old(plugin.timers), old(plugin.workerLog), context)
      ensures Appeared(old(imageUrlMap), old(watcherCleanups), old(plugin.pendingImages), old(plugin.sent),
                       context, forget, inputs, sendThrows)
      ensures var e := OptionalImageEffect(plugin.server, context, LoadStep(map[], context, true, inputs).image, sendThrows);
        plugin.pendingImages == old(plugin.pendingImages) + e.queued && plugin.sent == old(plugin.sent) + e.frames
      ensures context in old(watcherCleanups) ==> context !in imageUrlMap
      ensures HasContext(plugin.actions, context) ==>
        var s := GetAction(plugin.actions, context).value.settings;
        && (Truthy(s.imageUrl) && context !in old(watcherCleanups) ==>
              context in imageUrlMap && imageUrlMap[context] == ImageUrl(s))
        && (forget ==> (context in imageUrlMap <==> Truthy(s.imageUrl) && context !in old(watcherCleanups)))
    {
      if forget {
        imageUrlMap := imageUrlMap - {context};
      }
      ghost var cache := imageUrlMap;
      var _, _ := LoadImageContent(context, true, inputs, sendThrows);
      ForcedLoadStep(cache, context, inputs);
      WatchImageUrl(context);
    }

    /** A forced load fetches whenever the instance has a URL, and what it
        sets does not depend on the cache. */
    lemma ForcedLoadStep(cache: map<string, string>, context: string, inputs: ImageInputs)
      ensures LoadStep(cache, context, true, inputs).image == LoadStep(map[], context, true, inputs).image
      ensures HasContext(plugin.actions, context) ==>
        var s := GetAction(plugin.actions, context).value.settings;
        LoadStep(cache, context, true, inputs).cache == if Truthy(s.imageUrl) then cache[context := ImageUrl(s)] else cache
    {
    }

    /** A message of the timer worker, for the callbacks this button
        installed: when it fires the refresh timer of a watched instance,
        that instance's image is reloaded unforced; a message that fires no
        image reload changes nothing. */
    method OnTimer(event: string, id: string, inputs: ImageInputs, sendThrows: bool)
      requires Valid()
      modifies this`imageUrlMap, plugin`pendingImages, plugin`sent
      ensures Valid()
      ensures forall c :: id == ImageWatchId(c) && event == "setInterval" && c in old(watcherCleanups) ==>
        var r := LoadStep(old(imageUrlMap), c, false, inputs);
        var e := OptionalImageEffect(plugin.server, c, r.image, sendThrows);
        && imageUrlMap == r.cache
        && plugin.pendingImages == old(plugin.pendingImages) + e.queued && plugin.sent == old(plugin.sent) + e.frames
      ensures !(plugin.Fire(event, id).Some? && plugin.Fire(event, id).value.ReloadImage?) ==>
        && imageUrlMap == old(imageUrlMap)
        && plugin.pendingImages == old(plugin.pendingImages) && plugin.sent == old(plugin.sent)
    {
      var task := plugin.Fire(event, id);
      if task.Some? && task.value.ReloadImage? {
        var _, _ := LoadImageContent(task.value.context, false, inputs, sendThrows);
      }
    }
  }
}
