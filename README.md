# HTTP button plugin: a verified model of its core

This project models the core of a Stream Deck–style plugin with two kinds of keys:

- A **text button** shows the lines of a text on a generated SVG key face. The text is fetched from a URL or read from a local Markdown file. The face is redrawn when the text changes and on a timer. Pressing the key posts the key's index to an HTTP endpoint and then reloads the text.
- An **image button** shows an image fetched from a configured URL, and refetches it on a timer.

Both buttons sit on a shared plugin store. The store holds:

- the timer table that the timer worker's messages are dispatched through;
- the queue of images waiting for the socket to open;
- the registry of action instances and the commands each instance sends;
- the HTTP helpers `fetchText` and `sendHttpRequest`;
- the message router `useWatchEvent`.

The model is in Dafny and splits into these modules:

| file | module | models |
|---|---|---|
| `js_string.dfy` | `JsString` | the JavaScript string operations the core relies on (`trim`, `split`, `join`, `startsWith`, `includes`, global `replace`, decimal rendering) |
| `protocol.dfy` | `Protocol` | inbound messages, outbound frames, settings, socket state |
| `http.dfy` | `Http` | request shaping and result/error shaping of `fetchText` and `sendHttpRequest` |
| `plugin_store.dfy` | `PluginStore` | the timer table, the pending-image queue, the registry, the commands, the routing; class `Plugin` holds the store's mutable state |
| `key_svg.dfy` | `KeySvg` | `escapeXml`, `makeKeySvg`, the face's `data:` URL |
| `labels.dfy` | `Labels` | the label lines of a text and the `name` of a remote text request |
| `polling.dfy` | `Polling` | the refresh period, the timer ids, the per-instance cache lookup |
| `http_button.dfy` | `HttpButton` | `loadTextContent`, `loadButtonContent`, `watchMdFile`, `handleButtonPress` and the handlers; class `TextButton` |
| `image_button.dfy` | `ImageButton` | `loadImageContent`, `watchImageUrl` and the handlers; class `ImageButton` |

**What is done in place and what is pure.**

- State the source mutates lives in classes:
  - the store's timer table, queue, registry, sent frames and worker messages (`Plugin`);
  - each button's cache and set of running watchers (`TextButton`, `ImageButton`).
- Each method's `ensures` ties the new state to a pure specification function, such as:
  - `AddTimer`, `RemoveTimer`, `FiredTask`, `Drained`, `SetImageEffect`, `BuiltInStep`;
  - `ContentStep`, `LoadTextContent`, `ImageStep`.
- Lemmas then prove what the source promises about those functions.
- The button classes keep a class invariant (`Valid`): each watched instance's timer reloads that instance, and no button timer runs without its recorded cleanup.

**Foreign effects are inputs.** These become parameters of the operations that use them:

- what `fetch` answered: a status with a body, or a thrown error;
- the body of the local file read;
- the data URL a `FileReader` produced;
- whether `WebSocket.send` throws.

`btoa` and `encodeURIComponent` are function-valued parameters.

**Async.** Each handler is modelled as one atomic step. A load that a handler starts without awaiting it is modelled as finishing within that handler, and its state changes are placed where the source makes them. In the text button's `willAppear` and `didReceiveSettings`, the load changes nothing before its first `await` (the text), so the watch is set up before the load's state changes. In the image button's, the load caches the URL before its first `await` (the fetch); the watch runs next, and when the instance was already watched, the watch's cleanup forgets that URL again. The fetched image is set last, and it does not depend on either cache.

**A property worth knowing.** The image button caches the URL before it fetches (`ImageButton.ImageStepIdempotent`). So after a load, the unforced timer tick does not fetch the same URL again, even if the fetch failed, until the URL is forgotten. Forgetting happens in the cleanup of a watch. So `willAppear` or `didReceiveSettings` on an instance that is already watched leaves no cached URL (`ImageButton.ImageButton.Appear`), and the next tick fetches the URL again (`ImageButton.ImageStepRefetchesForgotten`).

## Model

| member | source | states |
|---|---|---|
| PluginStore.AddTimerSpec | src/hooks/plugin.ts:18-21 | `Interval` keeps timer ids unique. It leaves the table unchanged (and keeps the existing callback) when the id is present, and otherwise appends exactly one entry. |
| PluginStore.RemoveTimerSpec | src/hooks/plugin.ts:24-28 | `Unterval` removes the id's entry, keeps every other id subscribed and ids unique, and changes nothing when the id is absent. |
| PluginStore.SplicedIds | src/hooks/plugin.ts:25-26 | Splicing out one entry leaves exactly the other ids subscribed, still unique. |
| PluginStore.FiredTaskSpec | src/hooks/plugin.ts:12-15 | A worker message runs a callback exactly when its event is `setInterval` and some entry has its uuid. The callback run is that entry's. |
| PluginStore.OtherTasksKept | src/hooks/plugin.ts:12-28 | Adding or removing one id leaves the callback fired for every other id unchanged. |
| PluginStore.AddedTask | src/hooks/plugin.ts:18-21 | A newly added id fires exactly the callback it was added with. |
| PluginStore.Plugin.Interval | src/hooks/plugin.ts:18-21 | The table becomes `AddTimer` of the old table. The id is subscribed afterwards. A `setInterval` request is always posted to the worker. |
| PluginStore.Plugin.Unterval | src/hooks/plugin.ts:24-28 | The table becomes `RemoveTimer` of the old table. The id is no longer subscribed, and the other ids keep their subscription. A `clearInterval` request is always posted. |
| PluginStore.Plugin.SendPendingImages | src/hooks/plugin.ts:37-49 | The queue ends empty. The frames sent are `Drained` of the old queue: from the front, only while open, and only the sends that return normally. |
| PluginStore.DrainedFifo | src/hooks/plugin.ts:37-49 | On an open socket where every send succeeds, every queued image is sent, in queue order. |
| PluginStore.DrainedClosed | src/hooks/plugin.ts:41 | Entries dequeued while the socket is not open are discarded: nothing is sent. |
| PluginStore.DrainedInOrder | src/hooks/plugin.ts:39-47 | A drain sends a sub-list of the queue, in queue order. The k-th frame is the image of the entry at the k-th of strictly increasing positions. Those positions are exactly the entries whose send succeeds on an open socket. |
| PluginStore.DrainedIndicesSpec | src/hooks/plugin.ts:39-47 | The positions a drain sends strictly increase and are exactly the successful sends. There are none when the socket is not open. |
| PluginStore.DrainedAtIndices | src/hooks/plugin.ts:39-47 | There is one frame per sent position, and the k-th frame is the image of the entry at the k-th position. |
| PluginStore.DrainedAppend | src/hooks/plugin.ts:39-47 | Draining a concatenation is draining each part in turn (the drain works entry by entry). |
| PluginStore.Plugin.OnWorkerMessage | src/hooks/plugin.ts:12-15 | The periodic drain runs exactly when the message fires the store's own callback. Any other message, and any event other than `setInterval`, changes neither the queue nor the frames. |
| PluginStore.Plugin.OnOpen | src/hooks/plugin.ts:55-61 | On open: the registration frame is sent, the queue is drained onto the open socket, and the 5000 ms drain timer is armed. |
| PluginStore.Plugin.OnClose | src/hooks/plugin.ts:72-74 | On close the drain timer is removed and `clearInterval` is posted. |
| PluginStore.Plugin.constructor | src/hooks/plugin.ts:52-54 | The store starts with a connecting socket when the host passed connection arguments, and with none otherwise. Every table starts empty. |
| PluginStore.GetAction | src/hooks/plugin.ts:123-125 | `getAction` finds nothing exactly when no entry has the context. Otherwise it returns the first entry with it. |
| PluginStore.GetActions | src/hooks/plugin.ts:127-129 | `getActions` returns exactly the entries of that action type, each as often as in the registry, and no other. |
| PluginStore.Plugin.AddActionEntry | src/hooks/plugin.ts:112-116 | `addAction` appends a fresh instance unconditionally and returns it. |
| PluginStore.AddActionNotIdempotent | src/hooks/plugin.ts:112-116 | Adding the same context twice gives two equal entries: `addAction` alone is not idempotent. |
| PluginStore.Plugin.DelActionEntry | src/hooks/plugin.ts:118-121 | The registry becomes `DelAction` of the old one. |
| PluginStore.DelActionSpec | src/hooks/plugin.ts:118-121 | `delAction` is a no-op for an absent context. Otherwise it removes exactly the first matching entry and keeps the others in order. |
| PluginStore.AddThenDel | src/hooks/plugin.ts:112-125 | Adding a new context and then deleting it restores the registry, after which `getAction` finds nothing. |
| PluginStore.RouteImage | src/hooks/plugin.ts:150-177 | `setImage` queues exactly when the socket is missing or not open. It sends at once exactly when the socket is open and the URL contains `data:`. Otherwise the image goes to the decoder. |
| PluginStore.SetImageEffect | src/hooks/plugin.ts:150-176 | One `setImage` queues or sends at most one image, never both. It queues when not open or when the send throws, and sends a `data:` URL on an open socket when the send returns normally. |
| PluginStore.Plugin.SendImage | src/hooks/plugin.ts:150-176 | The queue and the sent frames grow by exactly the `SetImageEffect` of the call. |
| PluginStore.Plugin.SendToInspector | src/hooks/plugin.ts:135-138 | `sendToPropertyInspector` sends its frame only when there is a server. |
| PluginStore.Plugin.SendState | src/hooks/plugin.ts:140-143 | `setState` sends only when there is a server. |
| PluginStore.Plugin.SendTitle | src/hooks/plugin.ts:145-148 | `setTitle` sends only when there is a server. |
| PluginStore.Plugin.StoreSettings | src/hooks/plugin.ts:191-195 | `setSettings` overwrites the instance's settings whether or not there is a server, and sends them only when there is one. |
| PluginStore.Plugin.SendOpenUrl | src/hooks/plugin.ts:197-200 | `openUrl` sends only when there is a server. |
| PluginStore.Plugin.StoreGlobalSettings | src/hooks/plugin.ts:85-90 | Global settings are stored in any case, and sent only when there is a server. |
| PluginStore.Plugin.RequestGlobalSettings | src/hooks/plugin.ts:92-96 | `getGlobalSettings` sends only when there is a server. |
| PluginStore.Plugin.DispatchPluginMessage | src/hooks/plugin.ts:353-380 | A plugin-level message with an action is ignored. Global settings, the device set (only for a present device) and the user information follow their events, and nothing else changes. |
| PluginStore.Plugin.RunBuiltIn | src/hooks/plugin.ts:382-402 | The registry becomes `BuiltInStep` of the old one. |
| PluginStore.BuiltInKeepsContextsUnique | src/hooks/plugin.ts:383-388 | The built-in handlers never give a context a second entry. After `willAppear` the context is present; after `willDisappear` it is gone. |
| PluginStore.SettingsEventsModifyOnlyExisting | src/hooks/plugin.ts:389-401 | `didReceiveSettings` and `titleParametersDidChange` change only the existing entry of the context. A missing context changes nothing, and after `didReceiveSettings` the entry holds the new settings. |
| Http.AuthHeader | src/hooks/plugin.ts:238-241 | The `Authorization` header exists exactly when user name and password are both non-empty, and carries `Basic` plus `btoa(user:password)`. |
| Http.RequestHeaders | src/hooks/plugin.ts:235-301 | Both helpers send JSON. Each adds an `Authorization` header exactly when both credentials are non-empty. `fetchText` puts the content type last and `sendHttpRequest` puts it first. |
| Http.TextBodyFields | src/hooks/plugin.ts:243-248 | The text body's `button` defaults to 0. `name` is present exactly when it was given. |
| Http.ThrownError | src/hooks/plugin.ts:272-277 | A thrown error reports its message, or `Network error` when the message is empty. The result is never empty. |
| Http.FetchTextResult | src/hooks/plugin.ts:259-271 | `fetchText` succeeds exactly on a 2xx response, with the body text. A failure always carries a non-empty error. |
| Http.SendResult | src/hooks/plugin.ts:303-320 | `sendHttpRequest` succeeds exactly on a 2xx response. A failure carries a non-empty error. |
| Http.StatusErrorShape | src/hooks/plugin.ts:259-265 | A non-2xx error reads `HTTP <status>: <statusText>`, with ` - <body>` appended exactly when the body is non-empty. The status can be parsed back from it. |
| KeySvg.EscapeXml | src/plugin/actions/httpButton.ts:21-23 | The escaped text holds no `<` and no `>`, and text without `&`, `<` or `>` is returned unchanged. |
| KeySvg.EscapeXmlIsCharwise | src/plugin/actions/httpButton.ts:21-23 | The three global replacements escape each character exactly once. Because `&` goes first, an entity made by a later pass is never escaped again. |
| KeySvg.UnescapeEscapeXml | src/plugin/actions/httpButton.ts:21-23 | Unescaping the escaped text gives the label back: escaping loses nothing. |
| KeySvg.BaselineExact | src/plugin/actions/httpButton.ts:33-39 | Both roundings are exact: line `i` of `n` sits at `74 - 16(n-1) + 32i`. |
| KeySvg.BaselineStep | src/plugin/actions/httpButton.ts:39 | Consecutive lines are exactly one line height (32) apart. |
| KeySvg.BaselineSymmetric | src/plugin/actions/httpButton.ts:33-39 | Line `i` and line `n-1-i` add up to 148, so the block is symmetric. |
| KeySvg.KeySvgLines | src/plugin/actions/httpButton.ts:26-48 | For non-empty labels the face is, line by line: the `svg` tag, the `rect`, one `text` element per label in label order, and the closing tag. |
| KeySvg.TextElementAt | src/plugin/actions/httpButton.ts:37-42 | The `i`-th `text` element is the `i`-th label's, at `x = 64` and on baseline `74 - 16(n-1) + 32i`. |
| KeySvg.TextElementContent | src/plugin/actions/httpButton.ts:40 | A `text` element starts with its opening tag and ends with `</text>`. Its inner text holds no `<` or `>` and reads back as the label. |
| KeySvg.SvgDataUrl | src/plugin/actions/httpButton.ts:241 | The face URL always contains `data:`. |
| Labels.FilterMapSound | src/plugin/actions/httpButton.ts:233-234 | Every output of `filter` then `map` is the image of a kept piece. For the labels: the trimmed form of a line that is non-blank and does not start with `button content:` before trimming. |
| Labels.FilterMapComplete | src/plugin/actions/httpButton.ts:233-234 | Every kept piece contributes its image, so every kept line contributes its trimmed form. |
| Labels.FilterMapAppend | src/plugin/actions/httpButton.ts:231-234 | Filtering and mapping work piece by piece, so labels keep the order of their lines. |
| Labels.LabelsOf | src/plugin/actions/httpButton.ts:231-234 | There are never more labels than pieces. Every label is non-empty and trimmed. |
| Labels.ParseLabels | src/plugin/actions/httpButton.ts:231-234 | Every label of a text is non-empty, trimmed and free of newlines. |
| Labels.ParseLabelsSpec | src/plugin/actions/httpButton.ts:231-234 | There are at most as many labels as lines. A string is a label if and only if it is the trimmed form of a kept line. |
| Labels.ParseLabelsOfLines | src/plugin/actions/httpButton.ts:231-234 | Lines joined by newlines give back the labels of those lines, in order. |
| Labels.ParseLabelsExample | src/plugin/actions/httpButton.ts:231-234 | `Go`, `Rust`, a blank line and `C++` give the three labels `Go`, `Rust`, `C++`. |
| Labels.StripMdSuffix | src/plugin/actions/httpButton.ts:134 | One `.md` at the very end is removed, and nothing else. |
| Labels.RequestName | src/plugin/actions/httpButton.ts:133-138 | The request `name`, when present, is non-empty and trimmed. |
| Labels.RequestNameGuardRedundant | src/plugin/actions/httpButton.ts:133-135 | The blank-path test never changes the outcome: the trimmed, stripped name alone decides. |
| Labels.RequestNameOfMdFile | src/plugin/actions/httpButton.ts:133-138 | A file `<name>.md` is requested as `name`, for any non-blank trimmed `name`. |
| Labels.RequestNameTrailingSpace | src/plugin/actions/httpButton.ts:134 | `notes.md ` keeps its suffix, because the suffix is removed before trimming. |
| Polling.PollInterval | src/plugin/actions/httpButton.ts:304-308 | The period is at least 1000 ms. It is 60000 for a missing or zero setting, the setting itself from 1000 up, and 1000 for a smaller non-zero setting. The image button's period is computed identically (imageButton.ts lines 130-134). |
| Polling.WatchIdsDistinct | src/plugin/actions/httpButton.ts:310-316 | Timer ids identify their instance. A text timer never shares an id with an image timer or the store's drain timer, so one cleanup never stops another's timer. |
| HttpButton.SettingsCredentials | src/plugin/actions/httpButton.ts:122-131 | Credentials are passed exactly when the user name and password settings are both non-empty, and then they are those two settings. |
| HttpButton.LoadTextContent | src/plugin/actions/httpButton.ts:115-211 | A remote request is made exactly when a text URL is set, and it is `TextRequest` of the settings. A remote text is used only on a 2xx non-empty answer, and otherwise the local file's result is the text (none when the read fails). |
| HttpButton.LoadTextFallback | src/plugin/actions/httpButton.ts:128-208 | Fallback chain: the remote text is used exactly when the URL is set and the answer is 2xx and non-empty. Otherwise the file `/data/<mdFilePath>` is read. |
| HttpButton.TextRequestShape | src/plugin/actions/httpButton.ts:128-140 | The remote text request carries button 0 and the file's request name when there is one. It has Basic credentials exactly when both are set. |
| HttpButton.DefaultSettingsReadTextMd | src/plugin/actions/httpButton.ts:120-128 | With default settings the button reads `/data/text.md` and asks no server. |
| HttpButton.ContentStep | src/plugin/actions/httpButton.ts:221-238 | The cache is either unchanged or set to the text. A face is drawn only for a cached, non-empty text with at least one label, and it is that text's face. |
| HttpButton.ContentStepNoText | src/plugin/actions/httpButton.ts:221 | A missing or empty text draws nothing and leaves the cache unchanged. |
| HttpButton.ContentStepForced | src/plugin/actions/httpButton.ts:223-238 | A forced load of a non-empty text always caches it, and draws exactly when a label survives. |
| HttpButton.ContentStepIdempotent | src/plugin/actions/httpButton.ts:223-227 | After a load, loading the same text again unforced draws nothing and changes nothing. |
| HttpButton.ContentStepChanged | src/plugin/actions/httpButton.ts:223-229 | A text that differs from the cached one is taken, forced or not, and only that instance's cache entry changes. A face is drawn exactly when the text has labels. |
| HttpButton.AppearCache | src/plugin/actions/httpButton.ts:376-378 | The entry of the instance is forgotten when `didReceiveSettings` deletes it or when an earlier watch's cleanup runs; otherwise the cache is kept. |
| HttpButton.FaceIsSentDirectly | src/plugin/actions/httpButton.ts:240-241 | The face is a `data:` URL, so on an open socket it is sent at once and never decoded. |
| HttpButton.ButtonIndex | src/plugin/actions/httpButton.ts:381-390 | A numeric `buttonIndex` setting is used as is. Otherwise, with coordinates the index is `row * 5 + column + 1`, and without them it is 1. |
| HttpButton.ButtonIndexGrid | src/plugin/actions/httpButton.ts:386-389 | Without the setting, the keys of a 5-column grid are numbered 1, 2, ... row by row. The first key is 1, and the next key in a row, or the first key of the next row, is one more. Every key gets its own index. |
| HttpButton.ButtonIndexMissingCoordinate | src/plugin/actions/httpButton.ts:387-388 | A missing row or column counts as 0. |
| HttpButton.PressRequest | src/plugin/actions/httpButton.ts:330-344 | A press posts `{button: index}` to the configured URL, or to the fixed default endpoint when none is set. |
| HttpButton.TextButton.constructor | src/plugin/actions/httpButton.ts:14-18 | A button starts with an empty cache and no watchers. |
| HttpButton.TextButton.LoadButtonContent | src/plugin/actions/httpButton.ts:214-290 | An unknown instance changes nothing. Otherwise the cache follows `ContentStep` on the loaded text, and a face drawn goes through `setImage` with exactly its `SetImageEffect`. |
| HttpButton.TextButton.ShowText | src/plugin/actions/httpButton.ts:221-278 | The change test, the cache update and the face follow `ContentStep`. The queue and sent frames follow `SetImageEffect`. |
| HttpButton.TextButton.Cleanup | src/plugin/actions/httpButton.ts:315-319 | The cleanup stops the instance's timer, forgets its watcher and cached text, and keeps every other timer's callback. |
| HttpButton.TextButton.WatchMdFile | src/plugin/actions/httpButton.ts:293-323 | Any existing cleanup runs first and forgets the cached text. For a known instance, timer `md-file-watch-<context>` then fires that instance's unforced reload with the clamped period. Every other timer's callback is kept, and the worker log gains exactly the cleanup's `clearInterval` and the new `setInterval`. |
| HttpButton.TextButton.StartTimer | src/plugin/actions/httpButton.ts:310-321 | The instance's timer is armed with its reload callback and its cleanup is recorded. Other timers are untouched. |
| HttpButton.TextButton.HandleButtonPress | src/plugin/actions/httpButton.ts:326-357 | A request is sent exactly for a known instance, and it is the press request. Only a successful response refreshes: the cache follows `ContentStep` forced on the emptied entry, and the face goes through `setImage`. Otherwise nothing changes. |
| HttpButton.TextButton.Refresh | src/plugin/actions/httpButton.ts:350-352 | Forgetting the cached text and reloading it forced leaves the cache given by `ContentStep` on the emptied entry, and queues or sends exactly that face's `setImage` effect. |
| HttpButton.TextButton.StopWatching | src/plugin/actions/httpButton.ts:366-372 | `willDisappear` runs the instance's cleanup when it has one. Afterwards no watcher or timer of the instance remains, its cached text is gone if it was watched, every other timer's callback is kept, and the worker log gains only the cleanup's `clearInterval`. |
| HttpButton.TextButton.Appear | src/plugin/actions/httpButton.ts:361-380 | After `willAppear` or `didReceiveSettings`, the watch state is exactly that of `WatchMdFile`. The cache is `ContentStep` forced from `AppearCache`, the face goes through `setImage`, and a non-empty loaded text is cached. |
| HttpButton.TextButton.OnMessage | src/plugin/actions/httpButton.ts:359-414 | A message not for this action changes nothing. Otherwise the registry follows the built-in handler, and the handler `HandlerOf` picks leaves the state `Handle` states. |
| HttpButton.TextButton.Handle | src/plugin/actions/httpButton.ts:359-414 | `willAppear` and `didReceiveSettings` leave the watch, cache and face as `Appear` states. `willDisappear` leaves the state of the cleanup and sends nothing. `keyUp` and `touchTap` post the press request with `ButtonIndex` of the instance and the coordinates, and refresh only on success. `refreshText` refreshes. Press, refresh and unhandled events keep the watchers, timers and worker log. An unhandled event changes nothing. |
| HttpButton.TextButton.OnTimer | src/plugin/actions/httpButton.ts:311-313 | A tick of a watched instance reloads it unforced. The cache follows `ContentStep`, and the queue and sent frames follow the face's `setImage` effect. A message that fires no text reload changes nothing. |
| ImageButton.FetchedImage | src/plugin/actions/imageButton.ts:73-97 | A fetch gives an image exactly when the response is 2xx and the reader produced a non-empty data URL. That image is the data URL. |
| ImageButton.ImageStep | src/plugin/actions/imageButton.ts:48-116 | Without a fetch nothing changes. A fetch is of the configured URL, which is cached before the fetch. An image is set only after a fetch. |
| ImageButton.ImageStepNoUrl | src/plugin/actions/imageButton.ts:54-60 | An empty or missing URL fetches nothing and changes nothing. |
| ImageButton.ImageStepFetches | src/plugin/actions/imageButton.ts:57-74 | A fetch happens exactly when there is a URL and it differs from the cached one or the load is forced. |
| ImageButton.ImageStepFailureKeepsUrl | src/plugin/actions/imageButton.ts:68-112 | A failed fetch sets no image and saves nothing, yet the URL stays cached. |
| ImageButton.ImageStepSuccess | src/plugin/actions/imageButton.ts:99-106 | A successful fetch sets the data URL and saves it under `last/<imageName>.png`. |
| ImageButton.DefaultSavedImagePath | src/plugin/actions/imageButton.ts:55-105 | Without an image name the image is saved as `last/httpImage.png`. |
| ImageButton.ImageStepIdempotent | src/plugin/actions/imageButton.ts:62-68 | After any load, an unforced load with the same settings fetches nothing and changes nothing, whatever the first fetch gave. |
| ImageButton.ImageStepRefetchesForgotten | src/plugin/actions/imageButton.ts:62-68 | Once the instance's URL is no longer cached, the next unforced load fetches it again. |
| ImageButton.ImageButton.constructor | src/plugin/actions/imageButton.ts:10-13 | A button starts with an empty URL cache and no watchers. |
| ImageButton.ImageButton.LoadImageContent | src/plugin/actions/imageButton.ts:48-116 | An unknown instance changes nothing. Otherwise the cache follows `ImageStep`, the fetched URL and saved path are returned, and a fetched image goes through `setImage`. |
| ImageButton.ImageButton.Cleanup | src/plugin/actions/imageButton.ts:141-145 | The cleanup stops the instance's timer, forgets its watcher and cached URL, and keeps every other timer's callback. |
| ImageButton.ImageButton.WatchImageUrl | src/plugin/actions/imageButton.ts:119-149 | Any existing cleanup runs first and forgets the cached URL. For a known instance, timer `image-url-watch-<context>` then fires its unforced reload with the clamped period. Every other timer's callback is kept, and the worker log gains exactly the cleanup's `clearInterval` and the new `setInterval`. |
| ImageButton.ImageButton.StartTimer | src/plugin/actions/imageButton.ts:136-147 | The instance's timer is armed with its reload callback and its cleanup is recorded. Other timers are untouched. |
| ImageButton.ImageButton.StopWatching | src/plugin/actions/imageButton.ts:158-164 | `willDisappear` runs the cleanup when there is one. Afterwards no watcher or timer of the instance remains, its cached URL is gone if it was watched, every other timer's callback is kept, and the worker log gains only the cleanup's `clearInterval`. |
| ImageButton.ImageButton.OnMessage | src/plugin/actions/imageButton.ts:151-173 | A message not for this action changes nothing. Otherwise the registry follows the built-in handler. `willAppear` and `didReceiveSettings` leave the watch state of `WatchImageUrl` and the cache and frames `Appear` states. `willDisappear` leaves the state of the cleanup and sends nothing. Any other event changes nothing. |
| ImageButton.ImageButton.Appear | src/plugin/actions/imageButton.ts:153-171 | The forced load runs first and then the watch, whose state is exactly that of `WatchImageUrl`. The cache is the load's cache, minus the instance when it was already watched. The queue and sent frames follow the fetched image's `setImage` effect. A URL stays cached only if there is one and the instance was not watched before; after `didReceiveSettings` that is exactly when the URL is cached. |
| ImageButton.ImageButton.OnTimer | src/plugin/actions/imageButton.ts:137-139 | A tick of a watched instance reloads it unforced. The cache follows `ImageStep`, and the queue and sent frames follow the fetched image's `setImage` effect. A message that fires no image reload changes nothing. |

## Left out

- Socket, worker, `fetch`, file reads, `FileReader`: these are I/O. What they return is an input of the operations that use them, and the timing of the worker's ticks is not modelled.
- `btoa` and `encodeURIComponent`: these are parameters. Base64 encoding, URI escaping and an exception thrown by `btoa` are not modelled.
- JSON encoding and decoding: frames and request bodies are datatypes. The parsed JSON that `sendHttpRequest` returns on success is not modelled, because its callers only read `success`.
- The decoder path of `setImage` (a non-`data:` URL drawn through an `Image` and a canvas): this is browser rendering. `RouteImage` only says such a URL is neither queued nor sent at once.
- An exception thrown by `send` in the commands other than `setImage`, and in the drain: each send's outcome is an input where the source catches it (`setImage`, the drain). Elsewhere a send is assumed to return.
- Action instances are values in the registry: an instance updated through an alias appears as an update of the registry entry with its context.
- Async interleaving: each handler is one atomic step, and a load started without `await` completes within the handler that started it. Races between overlapping loads are not modelled.
- The custom handlers of `useWatchEvent` at plugin level (they are code outside the modelled core), and an exception thrown by an action-level custom handler.
- `loadTextContent`'s direct-fetch branch (httpButton.ts lines 156-199): it runs only when the store has no `fetchText`, which the store always provides.
- The write-backs: the save functions, the check for an existing Markdown file after a remote load, and `saveSvgToFile`. They post to a development server and change no state the model keeps. `LoadTextContent` and `ImageStep` report the local path read and the image path saved instead.
- The unused test SVG built in `loadButtonContent` (httpButton.ts lines 242-246).
- The cache-busting `?t=Date.now()` query of the file read: it reads the clock.
- Logging.
- `Number` coercion of settings: `updateInterval` and `buttonIndex` are modelled as optional integers, and a non-numeric setting reads as missing.
- The plugin UUID default and the `ActionID` construction: a button's action id is a constructor parameter.
- Development servers, property inspector, entry point, manifest and i18n: these are outside the core.
