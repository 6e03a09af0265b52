/**
  The text button (`httpButton.ts`): a key that shows the lines of a text,
  fetched from a URL or read from a local file, redrawn when the text
  changes and on a timer, and that posts its index to an HTTP endpoint when
  pressed, then reloads its text.

  The network, the file read and `send` are inputs of the operations that
  use them: `TextInputs` holds what the remote request and the file read
  give back, `sendThrows` says whether `send` would throw. Each handler is
  one atomic step; a load that the source starts without awaiting it is
  modelled as completing at the end of the handler that started it.
 */
module HttpButton {
  import opened Protocol
  import opened JsString
  import opened Http
  import opened PluginStore
  import opened KeySvg
  import opened Labels
  import opened Polling

  const DefaultMdFilePath := "text.md"
  const DefaultHttpUrl := "https://node-red.shome.popstas.ru/actions/mirabox/button"

  // ---------------------------------------------------------------------
  // loadTextContent
  // ---------------------------------------------------------------------

  /** What the outside world answers during one text load: the response to
      the remote text request (consulted only when a text URL is set), and
      the body of the local file, `None` when that read is not ok. */
  datatype TextInputs = TextInputs(remote: Response, file: Option<string>)

  datatype TextSource = Remote | LocalFile

  /** The outcome of `loadTextContent`: the text (`None` for `null`), where
      it came from, the remote request made and the local path read, if
      any. */
  datatype TextLoad = TextLoad(
    text: Option<string>,
    source: Option<TextSource>,
    request: Option<Request>,
    filePath: Option<string>)

  /** `username && password ? { username, password } : undefined`. */
  function SettingsCredentials(s: Settings): (c: Credentials)
    ensures Truthy(c.username) && Truthy(c.password) <==> Truthy(s.httpUsername) && Truthy(s.httpPassword)
    ensures Truthy(s.httpUsername) && Truthy(s.httpPassword) ==> c == Credentials(s.httpUsername, s.httpPassword)
  {
    if Truthy(s.httpUsername) && Truthy(s.httpPassword) then Credentials(s.httpUsername, s.httpPassword)
    else NoCredentials
  }

  /** The local file of an instance: `/data/<mdFilePath>`, `text.md` by
      default (the cache-busting query is not modelled). */
  function FilePath(s: Settings): string {
    "/data/" + StringOr(s.mdFilePath, DefaultMdFilePath)
  }

  /** The remote text request: button 0, and the file's base name as
      `name` when there is one. */
  function TextRequest(s: Settings, btoa: string -> string): Request {
    FetchTextRequest(StringOr(s.textUrl, ""), SettingsCredentials(s), Some(0),
                     RequestName(StringOr(s.mdFilePath, DefaultMdFilePath)), btoa)
  }

  /** `loadTextContent` for an instance with settings `s`. With a text URL,
      a successful non-empty remote text wins; otherwise, and always
      without a text URL, the local file is read, and a failed read gives
      `null`. */
  function LoadTextContent(s: Settings, inputs: TextInputs, btoa: string -> string): (r: TextLoad)
    ensures r.text.Some? <==> r.source.Some?
    ensures r.source == Some(Remote) ==>
      && Truthy(s.textUrl) && inputs.remote.Response? && IsOk(inputs.remote.status)
      && r.text == Some(inputs.remote.body) && inputs.remote.body != []
      && r.filePath.None?
    ensures r.request.Some? <==> Truthy(s.textUrl)
    ensures r.request.Some? ==> r.request.value.url == s.textUrl.value
    ensures r.request.Some? ==> r.request.value == TextRequest(s, btoa)
    ensures r.source != Some(Remote) ==> r.filePath == Some(FilePath(s)) && r.text == inputs.file
  {
    var remote :=
      if Truthy(s.textUrl) then
        var res := FetchTextResult(inputs.remote);
        Some((TextRequest(s, btoa), if res.Success? && res.text != [] then Some(res.text) else None))
      else None;
    if remote.Some? && remote.value.1.Some? then
      TextLoad(remote.value.1, Some(Remote), Some(remote.value.0), None)
    else
      TextLoad(inputs.file, if inputs.file.Some? then Some(LocalFile) else None,
               if remote.Some? then Some(remote.value.0) else None, Some(FilePath(s)))
  }

  /** The fallback chain: the remote text is used exactly when a text URL is
      set and the server answered 2xx with a non-empty body; a remote
      failure or an empty remote text falls back to the file, as does the
      absence of a text URL. */
  lemma LoadTextFallback(s: Settings, inputs: TextInputs, btoa: string -> string)
    ensures var r := LoadTextContent(s, inputs, btoa);
      var remoteOk := Truthy(s.textUrl) && FetchTextResult(inputs.remote).Success? && inputs.remote.body != [];
      && (remoteOk ==> r.text == Some(inputs.remote.body) && r.source == Some(Remote))
      && (!remoteOk ==> r.text == inputs.file && r.filePath == Some(FilePath(s)))
  {
  }

  /** The remote text request carries button 0, the trimmed base name of
      the file when it is not blank, JSON, and Basic credentials exactly
      when both are set. */
  lemma TextRequestShape(s: Settings, btoa: string -> string)
    requires Truthy(s.textUrl)
    ensures var r := TextRequest(s, btoa);
      var name := RequestName(StringOr(s.mdFilePath, DefaultMdFilePath));
      && r.body.JObj?
      && r.body.fields[0] == ("button", JNum(0))
      && (name.Some? <==> |r.body.fields| == 2)
      && (name.Some? ==> r.body.fields[1] == ("name", JStr(name.value)))
      && (HasHeader(r, "Authorization") <==> Truthy(s.httpUsername) && Truthy(s.httpPassword))
  {
    RequestHeaders(s.textUrl.value, JNull, SettingsCredentials(s), Some(0),
                   RequestName(StringOr(s.mdFilePath, DefaultMdFilePath)), btoa);
  }

  /** With default settings and no text URL the button reads
      `/data/text.md` and asks no server. */
  lemma DefaultSettingsReadTextMd(inputs: TextInputs, btoa: string -> string)
    ensures LoadTextContent(NoSettings, inputs, btoa).filePath == Some("/data/text.md")
    ensures LoadTextContent(NoSettings, inputs, btoa).request.None?
  {
    assert "/data/" + DefaultMdFilePath == "/data/text.md";
  }

  // ---------------------------------------------------------------------
  // loadButtonContent: change detection
  // ---------------------------------------------------------------------

  /** The cached text of an instance after one load, and the image to set,
      if any. */
  datatype Draw = Draw(cache: map<string, string>, image: Option<string>)

  /** The key face for a text: the SVG of its labels, as a `data:` URL. */
  function FaceUrl(text: string, encodeUri: string -> string): string {
    SvgDataUrl(MakeKeySvg(ParseLabels(text)), encodeUri)
  }

  /** What `loadButtonContent` does once the text is in: nothing for a
      missing or empty text, nothing for the cached text unless forced;
      otherwise the text is cached, and the face is drawn when at least one
      label survives. */
  function ContentStep(cache: map<string, string>, context: string, text: Option<string>,
                       force: bool, encodeUri: string -> string): (d: Draw)
    ensures d.cache == cache || (Truthy(text) && d.cache == cache[context := text.value])
    ensures d.image.Some? ==>
      && Truthy(text) && d.cache == cache[context := text.value]
      && ParseLabels(text.value) != [] && d.image.value == FaceUrl(text.value, encodeUri)
  {
    if !Truthy(text) then Draw(cache, None)
    else if text.value == Previous(cache, context) && !force then Draw(cache, None)
    else
      var cache' := cache[context := text.value];
      if ParseLabels(text.value) == [] then Draw(cache', None)
      else Draw(cache', Some(FaceUrl(text.value, encodeUri)))
  }

  /** A missing or empty text changes nothing and draws nothing. */
  lemma ContentStepNoText(cache: map<string, string>, context: string, text: Option<string>,
                          force: bool, encodeUri: string -> string)
    requires !Truthy(text)
    ensures ContentStep(cache, context, text, force, encodeUri) == Draw(cache, None)
  {
  }

  /** A forced load of a non-empty text always caches it, and draws exactly
      when some label survives. */
  lemma ContentStepForced(cache: map<string, string>, context: string, text: string,
                          encodeUri: string -> string)
    requires text != []
    ensures var d := ContentStep(cache, context, Some(text), true, encodeUri);
      && d.cache == cache[context := text]
      && (d.image.Some? <==> ParseLabels(text) != [])
  {
  }

  /** Once a text has been loaded, loading the same text again without
      forcing draws nothing and changes nothing: the timer redraws the key
      only when the text changes. */
  lemma ContentStepIdempotent(cache: map<string, string>, context: string, text: Option<string>,
                              force: bool, encodeUri: string -> string)
    requires Truthy(text)
    ensures var d := ContentStep(cache, context, text, force, encodeUri);
      ContentStep(d.cache, context, text, false, encodeUri) == Draw(d.cache, None)
  {
    var d := ContentStep(cache, context, text, force, encodeUri);
    if d.cache == cache {
      if !(text.value == Previous(cache, context) && !force) {
        assert cache[context := text.value] == cache;
        assert Previous(cache, context) == text.value;
      }
    }
  }

  /** A text that differs from the cached one is always taken, forced or
      not, and drawn exactly when some label survives; only the instance's
      own entry changes. */
  lemma ContentStepChanged(cache: map<string, string>, context: string, text: string,
                           force: bool, encodeUri: string -> string)
    requires text != [] && text != Previous(cache, context)
    ensures var d := ContentStep(cache, context, Some(text), force, encodeUri);
      && d.cache == cache[context := text]
      && (d.image.Some? <==> ParseLabels(text) != [])
      && (forall k :: k != context ==> (k in d.cache <==> k in cache))
      && (forall k :: k != context && k in cache ==> d.cache[k] == cache[k])
  {
  }

  /** The face is always a `data:` URL, so on an open socket it is sent at
      once instead of going through the image decoder. */
  lemma FaceIsSentDirectly(server: Socket, text: string, encodeUri: string -> string)
    requires IsOpen(server)
    ensures RouteImage(server, FaceUrl(text, encodeUri)) == SendNow
  {
  }

  // ---------------------------------------------------------------------
  // Button index
  // ---------------------------------------------------------------------

  /** `x || 0` for an optional coordinate. */
  function OrZero(v: Option<int>): int {
    if v.Some? then v.value else 0
  }

  /** The index a press reports: the numeric `buttonIndex` setting when the
      instance has one; otherwise, when the press carries coordinates, the
      1-based position on a 5-column grid, a missing coordinate counting as
      0; otherwise 1. */
  function ButtonIndex(inst: Option<ActionInstance>, coordinates: Option<Coordinates>): (r: int)
    ensures inst.Some? && inst.value.settings.buttonIndex.Some? ==> r == inst.value.settings.buttonIndex.value
    ensures !(inst.Some? && inst.value.settings.buttonIndex.Some?) && coordinates.None? ==> r == 1
    ensures !(inst.Some? && inst.value.settings.buttonIndex.Some?) && coordinates.Some? ==>
      r == OrZero(coordinates.value.row) * 5 + OrZero(coordinates.value.column) + 1
  {
    if inst.Some? && inst.value.settings.buttonIndex.Some? then inst.value.settings.buttonIndex.value
    else if coordinates.Some? then OrZero(coordinates.value.row) * 5 + OrZero(coordinates.value.column) + 1
    else 1
  }

  /** Without an index setting, the keys of a 5-column grid get the
      indices 1, 2, ... row by row, each key its own index: the first key
      is 1, the next key in a row or the first of the next row is one
      more. */
  lemma ButtonIndexGrid(inst: Option<ActionInstance>, row: nat, column: nat, row': nat, column': nat)
    requires !(inst.Some? && inst.value.settings.buttonIndex.Some?)
    requires column < 5 && column' < 5
    ensures ButtonIndex(inst, Some(Coordinates(Some(row), Some(column)))) >= 1
    ensures ButtonIndex(inst, Some(Coordinates(Some(row), Some(column))))
         == ButtonIndex(inst, Some(Coordinates(Some(row'), Some(column'))))
        <==> row == row' && column == column'
    ensures ButtonIndex(inst, Some(Coordinates(Some(0), Some(0)))) == 1
    ensures column < 4 ==>
      ButtonIndex(inst, Some(Coordinates(Some(row), Some(column + 1))))
        == ButtonIndex(inst, Some(Coordinates(Some(row), Some(column)))) + 1
    ensures ButtonIndex(inst, Some(Coordinates(Some(row + 1), Some(0))))
        == ButtonIndex(inst, Some(Coordinates(Some(row), Some(4)))) + 1
  {
  }

  /** A missing row or column reads as the first one. */
  lemma ButtonIndexMissingCoordinate(inst: Option<ActionInstance>, v: Option<int>)
    requires !(inst.Some? && inst.value.settings.buttonIndex.Some?)
    ensures ButtonIndex(inst, Some(Coordinates(None, v))) == ButtonIndex(inst, Some(Coordinates(Some(0), v)))
    ensures ButtonIndex(inst, Some(Coordinates(v, None))) == ButtonIndex(inst, Some(Coordinates(v, Some(0))))
  {
  }

  /** The request a press sends: `{ button: index }` to the configured URL
      (the fixed default endpoint otherwise), with Basic credentials when
      both are set. */
  function PressRequest(s: Settings, buttonIndex: int, btoa: string -> string): (r: Request)
    ensures r.body == JObj([("button", JNum(buttonIndex))])
    ensures r.url == StringOr(s.httpUrl, DefaultHttpUrl)
  {
    SendRequest(StringOr(s.httpUrl, DefaultHttpUrl), JObj([("button", JNum(buttonIndex))]),
                SettingsCredentials(s), btoa)
  }

  // ---------------------------------------------------------------------
  // The button
  // ---------------------------------------------------------------------

  /** Which of the button's own handlers an event runs: `willAppear` and
      `didReceiveSettings` (which first forgets the cached text) watch and
      load; `willDisappear` stops watching; `keyUp` and `touchTap` press;
      `sendToPlugin` with the `refreshText` action refreshes; any other
      event has no handler here. */
  datatype TextHandler =
    | AppearHandler(forget: bool)
    | DisappearHandler
    | PressHandler
    | RefreshHandler
    | NoHandler

  function HandlerOf(msg: Message): TextHandler {
    if msg.event == "willAppear" then AppearHandler(false)
    else if msg.event == "willDisappear" then DisappearHandler
    else if msg.event == "didReceiveSettings" then AppearHandler(true)
    else if msg.event == "keyUp" || msg.event == "touchTap" then PressHandler
    else if msg.event == "sendToPlugin" && msg.payload.piAction == Some("refreshText") then RefreshHandler
    else NoHandler
  }

  /** The cache a forced load starts from in `willAppear` and
      `didReceiveSettings`: the entry is forgotten by `didReceiveSettings`
      and by the cleanup of an earlier watch. */
  function AppearCache(cache: map<string, string>, watched: set<string>, context: string,
                       forget: bool): (r: map<string, string>)
    ensures forget || context in watched ==> r == cache - {context}
    ensures !forget && context !in watched ==> r == cache
  {
    var c := if forget then cache - {context} else cache;
    if context in watched then c - {context} else c
  }

  /** One registration of the text button with the store: its per-instance
      text cache and the instances whose refresh timer is running (the
      cleanup closures of the source, which are determined by the
      instance). */
  class TextButton {
    const plugin: Plugin
    const actionId: string
    const btoa: string -> string
    const encodeUri: string -> string
    var textMdContentMap: map<string, string>
    var watcherCleanups: set<string>

    /** The store's timers are consistent, each watched instance's timer
        reloads that instance, and no text timer runs without its
        cleanup. */
    ghost predicate Valid()
      reads this, plugin
    {
      && plugin.Valid()
      && (forall c :: c in watcherCleanups ==>
            FiredTask(plugin.timers, "setInterval", TextWatchId(c)) == Some(ReloadText(c)))
      && (forall c :: Subscribed(plugin.timers, TextWatchId(c)) ==> c in watcherCleanups)
    }

    constructor (plugin: Plugin, actionId: string, btoa: string -> string, encodeUri: string -> string)
      requires plugin.Valid()
      requires forall c :: !Subscribed(plugin.timers, TextWatchId(c))
      ensures Valid()
      ensures this.plugin == plugin && this.actionId == actionId
      ensures this.btoa == btoa && this.encodeUri == encodeUri
      ensures textMdContentMap == map[] && watcherCleanups == {}
    {
      this.plugin := plugin;
      this.actionId := actionId;
      this.btoa := btoa;
      this.encodeUri := encodeUri;
      textMdContentMap := map[];
      watcherCleanups := {};
    }

    /** The text a load of `context` would obtain from `inputs`. */
    function LoadedText(context: string, inputs: TextInputs): Option<string>
      reads this, plugin
    {
      var inst := GetAction(plugin.actions, context);
      if inst.Some? then LoadTextContent(inst.value.settings, inputs, btoa).text else None
    }

    /** The state a load of `context` leaves, from the cache, queue and
        sent frames before it: the cache follows `ContentStep` on the loaded
        text, and the face's `setImage` effect is added. */
    ghost predicate Reloaded(cache: map<string, string>, pending: seq<PendingImage>, sent: seq<Frame>,
                             context: string, force: bool, inputs: TextInputs, sendThrows: bool)
      reads this, plugin
    {
      var d := ContentStep(cache, context, LoadedText(context, inputs), force, encodeUri);
      var e := OptionalImageEffect(plugin.server, context, d.image, sendThrows);
      && textMdContentMap == d.cache
      && plugin.pendingImages == pending + e.queued && plugin.sent == sent + e.frames
    }

    /** The state a watch of `context` leaves, from the cleanups, timers and
        worker log before it: the instance is watched exactly when it is
        registered, its timer fires its reload, every other timer is as it
        was, and the log gains the cleanup's `clearInterval` and the new
        `setInterval`. */
    ghost predicate Watching(watched: set<string>, timers: seq<Subscription>, log: seq<WorkerRequest>,
                             context: string)
      reads this, plugin
    {
      var known := HasContext(plugin.actions, context);
      && watcherCleanups == (if known then watched + {context} else watched - {context})
      && FiredTask(plugin.timers, "setInterval", TextWatchId(context)) ==
           (if known then Some(ReloadText(context)) else None)
      && (forall u :: u != TextWatchId(context) ==>
            FiredTask(plugin.timers, "setInterval", u) == FiredTask(timers, "setInterval", u))
      && plugin.workerLog == log
           + (if context in watched then [ClearIntervalRequest(TextWatchId(context))] else [])
           + (if known
              then [SetIntervalRequest(TextWatchId(context),
                                       PollInterval(GetAction(plugin.actions, context).value.settings.updateInterval))]
              else [])
    }

    /** The state `willDisappear` leaves, from the cleanups, cache, timers
        and worker log before it: no watch of the instance remains, its
        cached text is gone if it was watched, and every other timer is as
        it was. */
    ghost predicate Stopped(watched: set<string>, cache: map<string, string>, timers: seq<Subscription>,
                            log: seq<WorkerRequest>, context: string)
      reads this, plugin
    {
      && watcherCleanups == watched - {context}
      && textMdContentMap == (if context in watched then cache - {context} else cache)
      && !Subscribed(plugin.timers, TextWatchId(context))
      && (forall u :: u != TextWatchId(context) ==>
            FiredTask(plugin.timers, "setInterval", u) == FiredTask(timers, "setInterval", u))
      && plugin.workerLog == log + (if context in watched then [ClearIntervalRequest(TextWatchId(context))] else [])
    }

    /** `loadButtonContent(context, force)`: nothing for an unknown
        instance; otherwise the cache and the key face follow `ContentStep`
        on the loaded text, and the face goes through `setImage`. */
    method LoadButtonContent(context: string, force: bool, inputs: TextInputs, sendThrows: bool)
      requires Valid()
      modifies this`textMdContentMap, plugin`pendingImages, plugin`sent
      ensures Valid()
      ensures !HasContext(plugin.actions, context) ==>
        && textMdContentMap == old(textMdContentMap)
        && plugin.pendingImages == old(plugin.pendingImages) && plugin.sent == old(plugin.sent)
      ensures HasContext(plugin.actions, context) ==>
        var d := ContentStep(old(textMdContentMap), context, LoadedText(context, inputs), force, encodeUri);
        && textMdContentMap == d.cache
        && (d.image.None? ==> plugin.pendingImages == old(plugin.pendingImages) && plugin.sent == old(plugin.sent))
        && (d.image.Some? ==>
              var e := SetImageEffect(plugin.server, context, d.image.value, sendThrows);
              plugin.pendingImages == old(plugin.pendingImages) + e.queued && plugin.sent == old(plugin.sent) + e.frames)
      ensures Reloaded(old(textMdContentMap), old(plugin.pendingImages), old(plugin.sent), context, force, inputs, sendThrows)
    {
      var inst := GetAction(plugin.actions, context);
      if inst.None? {
        return;
      }
      var text := LoadTextContent(inst.value.settings, inputs, btoa).text;
      ShowText(inst.value, text, force, sendThrows);
    }

    /** The part of `loadButtonContent` after the text is in: the change
        test, the cache update and the face, as `ContentStep` says. */
    method ShowText(inst: ActionInstance, text: Option<string>, force: bool, sendThrows: bool)
      modifies this`textMdContentMap, plugin`pendingImages, plugin`sent
      ensures var d := ContentStep(old(textMdContentMap), inst.context, text, force, encodeUri);
        && textMdContentMap == d.cache
        && (d.image.None? ==> plugin.pendingImages == old(plugin.pendingImages) && plugin.sent == old(plugin.sent))
        && (d.image.Some? ==>
              var e := SetImageEffect(plugin.server, inst.context, d.image.value, sendThrows);
              plugin.pendingImages == old(plugin.pendingImages) + e.queued && plugin.sent == old(plugin.sent) + e.frames)
    {
      if !Truthy(text) {
        return;
      }
      if text.value == Previous(textMdContentMap, inst.context) && !force {
        return;
      }
      textMdContentMap := textMdContentMap[inst.context := text.value];
      if ParseLabels(text.value) == [] {
        return;
      }
      plugin.SendImage(inst, FaceUrl(text.value, encodeUri), sendThrows);
    }

    /** The cleanup closure of a watched instance: stops its timer and
        forgets its cleanup and its cached text. */
    method Cleanup(context: string)
      requires Valid() && context in watcherCleanups
      modifies this`textMdContentMap, this`watcherCleanups, plugin`timers, plugin`workerLog
      ensures Valid()
      ensures watcherCleanups == old(watcherCleanups) - {context}
      ensures textMdContentMap == old(textMdContentMap) - {context}
      ensures plugin.timers == RemoveTimer(old(plugin.timers), TextWatchId(context))
      ensures !Subscribed(plugin.timers, TextWatchId(context))
      ensures plugin.workerLog == old(plugin.workerLog) + [ClearIntervalRequest(TextWatchId(context))]
      ensures forall u :: u != TextWatchId(context) ==>
        FiredTask(plugin.timers, "setInterval", u) == FiredTask(old(plugin.timers), "setInterval", u)
    {
      ghost var before := plugin.timers;
      plugin.Unterval(TextWatchId(context));
      watcherCleanups := watcherCleanups - {context};
      textMdContentMap := textMdContentMap - {context};
      forall u | u != TextWatchId(context)
        ensures FiredTask(plugin.timers, "setInterval", u) == FiredTask(before, "setInterval", u)
      {
        OtherTasksKept(before, TextWatchId(context), ReloadText(context), u);
      }
      forall c | c in watcherCleanups
        ensures FiredTask(plugin.timers, "setInterval", TextWatchId(c)) == Some(ReloadText(c))
      {
        WatchIdsDistinct(c, context);
      }
      forall c | Subscribed(plugin.timers, TextWatchId(c))
        ensures c in watcherCleanups
      {
        WatchIdsDistinct(c, context);
      }
    }

    /** `watchMdFile(context)`: runs the instance's cleanup first if it has
        one; then, for a known instance, starts the timer
        `md-file-watch-<context>` with the period of its settings, which
        reloads the text unforced, and records the cleanup. */
    method WatchMdFile(context: string)
      requires Valid()
      modifies this`textMdContentMap, this`watcherCleanups, plugin`timers, plugin`workerLog
      ensures Valid()
      ensures textMdContentMap ==
        if context in old(watcherCleanups) then old(textMdContentMap) - {context} else old(textMdContentMap)
      ensures Watching(old(watcherCleanups), old(plugin.timers), old(plugin.workerLog), context)
    {
      if context in watcherCleanups {
        Cleanup(context);
      }
      var inst := GetAction(plugin.actions, context);
      if inst.None? {
        FiredTaskSpec(plugin.timers, "setInterval", TextWatchId(context));
        return;
      }
      StartTimer(context, PollInterval(inst.value.settings.updateInterval));
    }

    /** The part of the watch after the cleanup: the instance's timer, with
        its reload callback, and the record of its cleanup. */
    method StartTimer(context: string, interval: int)
      requires Valid() && context !in watcherCleanups
      modifies this`watcherCleanups, plugin`timers, plugin`workerLog
      ensures Valid()
      ensures watcherCleanups == old(watcherCleanups) + {context}
      ensures FiredTask(plugin.timers, "setInterval", TextWatchId(context)) == Some(ReloadText(context))
      ensures forall u :: u != TextWatchId(context) ==>
        FiredTask(plugin.timers, "setInterval", u) == FiredTask(old(plugin.timers), "setInterval", u)
      ensures plugin.workerLog == old(plugin.workerLog) + [SetIntervalRequest(TextWatchId(context), interval)]
    {
      var id := TextWatchId(context);
      ghost var before := plugin.timers;
      plugin.Interval(id, interval, ReloadText(context));
      watcherCleanups := watcherCleanups + {context};
      AddedTask(before, id, ReloadText(context));
      forall u | u != id
        ensures FiredTask(plugin.timers, "setInterval", u) == FiredTask(before, "setInterval", u)
      {
        OtherTasksKept(before, id, ReloadText(context), u);
      }
      forall c | c in watcherCleanups
        ensures FiredTask(plugin.timers, "setInterval", TextWatchId(c)) == Some(ReloadText(c))
      {
        WatchIdsDistinct(c, context);
      }
      forall c | Subscribed(plugin.timers, TextWatchId(c))
        ensures c in watcherCleanups
      {
        WatchIdsDistinct(c, context);
        if c != context {
          FiredTaskSpec(plugin.timers, "setInterval", TextWatchId(c));
          FiredTaskSpec(before, "setInterval", TextWatchId(c));
        }
      }
    }

    /** `handleButtonPress(context, buttonIndex)`: for a known instance,
        posts the index; only a successful response clears the cached text
        and reloads it, forced. Returns the request sent. */
    method HandleButtonPress(context: string, buttonIndex: int, response: Response,
                             inputs: TextInputs, sendThrows: bool)
      returns (request: Option<Request>)
      requires Valid()
      modifies this`textMdContentMap, plugin`pendingImages, plugin`sent
      ensures Valid()
      ensures request.Some? <==> HasContext(plugin.actions, context)
      ensures request.Some? ==>
        request.value == PressRequest(GetAction(plugin.actions, context).value.settings, buttonIndex, btoa)
      ensures !(request.Some? && SendResult(response).Success?) ==>
        && textMdContentMap == old(textMdContentMap)
        && plugin.pendingImages == old(plugin.pendingImages) && plugin.sent == old(plugin.sent)
      ensures request.Some? && SendResult(response).Success? ==>
        Reloaded(old(textMdContentMap) - {context}, old(plugin.pendingImages), old(plugin.sent), context, true, inputs, sendThrows)
    {
      var inst := GetAction(plugin.actions, context);
      if inst.None? {
        return None;
      }
      request := Some(PressRequest(inst.value.settings, buttonIndex, btoa));
      var result := SendResult(response);
      if result.Success? {
        Refresh(context, inputs, sendThrows);
      }
    }

    /** The cached text is forgotten and the text reloaded, forced: what a
        successful press and the inspector's `refreshText` do. */
    method Refresh(context: string, inputs: TextInputs, sendThrows: bool)
      requires Valid()
      modifies this`textMdContentMap, plugin`pendingImages, plugin`sent
      ensures Valid()
      ensures Reloaded(old(textMdContentMap) - {context}, old(plugin.pendingImages), old(plugin.sent), context, true, inputs, sendThrows)
    {
      textMdContentMap := textMdContentMap - {context};
      LoadButtonContent(context, true, inputs, sendThrows);
    }

    /** The instance's cleanup, when it has one (`willDisappear`). */
    method StopWatching(context: string)
      requires Valid()
      modifies this`textMdContentMap, this`watcherCleanups, plugin`timers, plugin`workerLog
      ensures Valid()
      ensures Stopped(old(watcherCleanups), old(textMdContentMap), old(plugin.timers), old(plugin.workerLog), context)
      ensures context !in old(watcherCleanups) ==> plugin.timers == old(plugin.timers)
    {
      if context in watcherCleanups {
        Cleanup(context);
      }
    }

    /** An action-level message, as `useWatchEvent` routes it to this
        button: ignored unless accepted; then the built-in handler updates
        the registry and the button's own handler runs. A press returns the
        request it posts. */
    method OnMessage(msg: Message, inputs: TextInputs, response: Response, sendThrows: bool)
      returns (request: Option<Request>)
      requires Valid()
      modifies this`textMdContentMap, this`watcherCleanups, plugin`actions,
               plugin`timers, plugin`workerLog, plugin`pendingImages, plugin`sent
      ensures Valid()
      ensures !Accepts(msg, Some(actionId)) ==>
        && textMdContentMap == old(textMdContentMap) && watcherCleanups == old(watcherCleanups)
        && plugin.actions == old(plugin.actions) && plugin.timers == old(plugin.timers)
        && plugin.workerLog == old(plugin.workerLog)
        && plugin.pendingImages == old(plugin.pendingImages) && plugin.sent == old(plugin.sent)
      ensures Accepts(msg, Some(actionId)) ==> plugin.actions == BuiltInStep(old(plugin.actions), msg)
      ensures Accepts(msg, Some(actionId)) && HandlerOf(msg).AppearHandler? ==>
        && Watching(old(watcherCleanups), old(plugin.timers), old(plugin.workerLog), msg.context)
        && Reloaded(AppearCache(old(textMdContentMap), old(watcherCleanups), msg.context, HandlerOf(msg).forget),
                    old(plugin.pendingImages), old(plugin.sent), msg.context, true, inputs, sendThrows)
        && (Truthy(LoadedText(msg.context, inputs)) ==>
              msg.context in textMdContentMap && textMdContentMap[msg.context] == LoadedText(msg.context, inputs).value)
      ensures Accepts(msg, Some(actionId)) && HandlerOf(msg).DisappearHandler? ==>
        && Stopped(old(watcherCleanups), old(textMdContentMap), old(plugin.timers), old(plugin.workerLog), msg.context)
        && plugin.pendingImages == old(plugin.pendingImages) && plugin.sent == old(plugin.sent)
      ensures !(Accepts(msg, Some(actionId)) && (HandlerOf(msg).AppearHandler? || HandlerOf(msg).DisappearHandler?)) ==>
        && watcherCleanups == old(watcherCleanups) && plugin.timers == old(plugin.timers)
        && plugin.workerLog == old(plugin.workerLog)
      ensures !(Accepts(msg, Some(actionId)) && HandlerOf(msg).PressHandler?) ==> request.None?
      ensures Accepts(msg, Some(actionId)) && HandlerOf(msg).PressHandler? ==>
        && (request.Some? <==> HasContext(plugin.actions, msg.context))
        && (request.Some? ==>
              var inst := GetAction(plugin.actions, msg.context);
              request.value == PressRequest(inst.value.settings, ButtonIndex(inst, msg.payload.coordinates), btoa))
        && (!(request.Some? && SendResult(response).Success?) ==>
              && textMdContentMap == old(textMdContentMap)
              && plugin.pendingImages == old(plugin.pendingImages) && plugin.sent == old(plugin.sent))
        && (request.Some? && SendResult(response).Success? ==>
              Reloaded(old(textMdContentMap) - {msg.context}, old(plugin.pendingImages), old(plugin.sent),
                       msg.context, true, inputs, sendThrows))
      ensures Accepts(msg, Some(actionId)) && HandlerOf(msg).RefreshHandler? ==>
        Reloaded(old(textMdContentMap) - {msg.context}, old(plugin.pendingImages), old(plugin.sent),
                 msg.context, true, inputs, sendThrows)
      ensures !(Accepts(msg, Some(actionId)) && !HandlerOf(msg).NoHandler?) ==>
        && textMdContentMap == old(textMdContentMap)
        && plugin.pendingImages == old(plugin.pendingImages) && plugin.sent == old(plugin.sent)
    {
      request := None;
      if !Accepts(msg, Some(actionId)) {
        return;
      }
      plugin.RunBuiltIn(msg);
      request := Handle(msg, inputs, response, sendThrows);
    }

    /** The button's own handler of a message, after the built-in handler
        has updated the registry. */
    method Handle(msg: Message, inputs: TextInputs, response: Response, sendThrows: bool)
      returns (request: Option<Request>)
      requires Valid()
      modifies this`textMdContentMap, this`watcherCleanups,
               plugin`timers, plugin`workerLog, plugin`pendingImages, plugin`sent
      ensures Valid()
      ensures HandlerOf(msg).AppearHandler? ==>
        && Watching(old(watcherCleanups), old(plugin.timers), old(plugin.workerLog), msg.context)
        && Reloaded(AppearCache(old(textMdContentMap), old(watcherCleanups), msg.context, HandlerOf(msg).forget),
                    old(plugin.pendingImages), old(plugin.sent), msg.context, true, inputs, sendThrows)
        && (Truthy(LoadedText(msg.context, inputs)) ==>
              msg.context in textMdContentMap && textMdContentMap[msg.context] == LoadedText(msg.context, inputs).value)
      ensures HandlerOf(msg).DisappearHandler? ==>
        && Stopped(old(watcherCleanups), old(textMdContentMap), old(plugin.timers), old(plugin.workerLog), msg.context)
        && plugin.pendingImages == old(plugin.pendingImages) && plugin.sent == old(plugin.sent)
      ensures !(HandlerOf(msg).AppearHandler? || HandlerOf(msg).DisappearHandler?) ==>
        && watcherCleanups == old(watcherCleanups) && plugin.timers == old(plugin.timers)
        && plugin.workerLog == old(plugin.workerLog)
      ensures !HandlerOf(msg).PressHandler? ==> request.None?
      ensures HandlerOf(msg).PressHandler? ==>
        && (request.Some? <==> HasContext(plugin.actions, msg.context))
        && (request.Some? ==>
              var inst := GetAction(plugin.actions, msg.context);
              request.value == PressRequest(inst.value.settings, ButtonIndex(inst, msg.payload.coordinates), btoa))
        && (!(request.Some? && SendResult(response).Success?) ==>
              && textMdContentMap == old(textMdContentMap)
              && plugin.pendingImages == old(plugin.pendingImages) && plugin.sent == old(plugin.sent))
        && (request.Some? && SendResult(response).Success? ==>
              Reloaded(old(textMdContentMap) - {msg.context}, old(plugin.pendingImages), old(plugin.sent),
                       msg.context, true, inputs, sendThrows))
      ensures HandlerOf(msg).RefreshHandler? ==>
        Reloaded(old(textMdContentMap) - {msg.context}, old(plugin.pendingImages), old(plugin.sent),
                 msg.context, true, inputs, sendThrows)
      ensures HandlerOf(msg).NoHandler? ==>
        && textMdContentMap == old(textMdContentMap)
        && plugin.pendingImages == old(plugin.pendingImages) && plugin.sent == old(plugin.sent)
    {
      request := None;
      var context := msg.context;
      match HandlerOf(msg)
      case AppearHandler(forget) =>
        Appear(context, forget, inputs, sendThrows);
      case DisappearHandler =>
        StopWatching(context);
      case PressHandler =>
        var index := ButtonIndex(GetAction(plugin.actions, context), msg.payload.coordinates);
        request := HandleButtonPress(context, index, response, inputs, sendThrows);
      case RefreshHandler =>
        Refresh(context, inputs, sendThrows);
      case NoHandler =>
    }

    /** `willAppear` and `didReceiveSettings` (which first forgets the
        cached text): the watch starts, then the forced load runs; the load
        changes the cache and the face only after its first `await`, so after
        the watch has been set up. */
    method Appear(context: string, forget: bool, inputs: TextInputs, sendThrows: bool)
      requires Valid()
      modifies this`textMdContentMap, this`watcherCleanups,
               plugin`timers, plugin`workerLog, plugin`pendingImages, plugin`sent
      ensures Valid()
      ensures Watching(old(watcherCleanups), old(plugin.timers), old(plugin.workerLog), context)
      ensures Reloaded(AppearCache(old(textMdContentMap), old(watcherCleanups), context, forget),
                       old(plugin.pendingImages), old(plugin.sent), context, true, inputs, sendThrows)
      ensures Truthy(LoadedText(context, inputs)) ==>
        context in textMdContentMap && textMdContentMap[context] == LoadedText(context, inputs).value
    {
      if forget {
        textMdContentMap := textMdContentMap - {context};
      }
      WatchMdFile(context);
      ghost var cache := textMdContentMap;
      LoadButtonContent(context, true, inputs, sendThrows);
      if Truthy(LoadedText(context, inputs)) {
        ContentStepForced(cache, context, LoadedText(context, inputs).value, encodeUri);
      }
    }

    /** A message of the timer worker, for the callbacks this button
        installed: when it fires the refresh timer of a watched instance,
        that instance's text is reloaded unforced; a message that fires no
        text reload changes nothing. */
    method OnTimer(event: string, id: string, inputs: TextInputs, sendThrows: bool)
      requires Valid()
      modifies this`textMdContentMap, plugin`pendingImages, plugin`sent
      ensures Valid()
      ensures forall c :: id == TextWatchId(c) && event == "setInterval" && c in old(watcherCleanups) ==>
        Reloaded(old(textMdContentMap), old(plugin.pendingImages), old(plugin.sent), c, false, inputs, sendThrows)
      ensures !(plugin.Fire(event, id).Some? && plugin.Fire(event, id).value.ReloadText?) ==>
        && textMdContentMap == old(textMdContentMap)
        && plugin.pendingImages == old(plugin.pendingImages) && plugin.sent == old(plugin.sent)
      ensures event != "setInterval" ==> textMdContentMap == old(textMdContentMap)
    {
      var task := plugin.Fire(event, id);
      if task.Some? && task.value.ReloadText? {
        LoadButtonContent(task.value.context, false, inputs, sendThrows);
      }
    }
  }
}
