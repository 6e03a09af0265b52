/**
  The values exchanged with the host device manager: inbound messages,
  outbound frames, the typed view of an action's settings, and the state
  of the WebSocket connection. JSON encoding and decoding are not modelled:
  a frame here is what `JSON.stringify` is applied to.
 */
module Protocol {

  datatype Option<T> = None | Some(value: T)

  /** JavaScript `v || d` for an optional string: a missing or empty string
      gives the default. */
  function StringOr(v: Option<string>, d: string): (r: string)
    ensures v.Some? && v.value != [] ==> r == v.value
    ensures v.None? || v.value == [] ==> r == d
  {
    if v.Some? && v.value != [] then v.value else d
  }

  /** JavaScript truthiness of an optional string. */
  predicate Truthy(v: Option<string>) {
    v.Some? && v.value != []
  }

  /** An arbitrary JSON payload that the core only stores or forwards. */
  datatype Json =
    | JNull
    | JBool(b: bool)
    | JNum(n: int)
    | JStr(s: string)
    | JArr(items: seq<Json>)
    | JObj(fields: seq<(string, Json)>)

  /** The grid position of a key; either coordinate may be missing. */
  datatype Coordinates = Coordinates(row: Option<int>, column: Option<int>)

  /** The settings keys the two buttons read, each missing when the stored
      settings object lacks it. `updateInterval` and `buttonIndex` are the
      numeric settings; a non-number `buttonIndex` reads as missing. */
  datatype Settings = Settings(
    mdFilePath: Option<string>,
    textUrl: Option<string>,
    httpUsername: Option<string>,
    httpPassword: Option<string>,
    httpUrl: Option<string>,
    updateInterval: Option<int>,
    buttonIndex: Option<int>,
    imageUrl: Option<string>,
    imageName: Option<string>)

  const NoSettings := Settings(None, None, None, None, None, None, None, None, None)

  datatype TitleParameters = TitleParameters(
    fontFamily: string,
    fontSize: int,
    fontStyle: string,
    fontUnderline: bool,
    showTitle: bool,
    titleAlignment: string,
    titleColor: string)

  /** The payload of an inbound message, read through the fields the core
      uses: `settings` as action settings (an absent object reads as
      `NoSettings`) and as global settings, the key coordinates, the title
      fields, `payload.action` of a `sendToPlugin` message, and the whole
      payload as stored by `sendUserInfo`. */
  datatype Payload = Payload(
    settings: Settings,
    globalSettings: Json,
    coordinates: Option<Coordinates>,
    title: Option<string>,
    titleParameters: Option<TitleParameters>,
    piAction: Option<string>,
    raw: Json)

  /** An inbound frame `{event, action?, context?, device?, payload?}`. */
  datatype Message = Message(
    event: string,
    action: Option<string>,
    context: string,
    device: Option<string>,
    payload: Payload)

  /** An outbound frame as handed to `WebSocket.send`. Image and title
      frames carry `target: 0`. */
  datatype Frame =
    | Register(event: string, uuid: string)
    | SetImage(context: string, image: string)
    | SetTitle(context: string, title: string)
    | SetState(context: string, state: int)
    | SetSettings(context: string, settings: Settings)
    | SendToPropertyInspector(action: string, context: string, payload: Json)
    | OpenUrl(url: string)
    | SetGlobalSettings(context: string, payload: Json)
    | GetGlobalSettings(context: string)

  /** `WebSocket.readyState`. */
  datatype ReadyState = Connecting | Open | Closing | Closed

  /** The store's `server`: absent when the plugin was started without
      connection arguments. */
  datatype Socket = NoServer | Server(readyState: ReadyState)

  predicate IsOpen(s: Socket) {
    s.Server? && s.readyState == Open
  }
}
