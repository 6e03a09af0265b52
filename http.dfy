/**
  The store's HTTP helpers `fetchText` and `sendHttpRequest`: how the
  request is shaped (JSON body, optional Basic authentication header) and
  how a response or a thrown error becomes the uniform result. The network
  call itself is an input: the response the server gave, or the error
  `fetch` threw. `btoa` (base64 of section 4 of RFC 4648) is a parameter.
 */
module Http {
  import opened Protocol
  import opened JsString

  datatype Header = Header(name: string, value: string)

  /** A `fetch` call with method POST. */
  datatype Request = Request(url: string, headers: seq<Header>, body: Json)

  /** What `fetch` produced: a response with its status line and body text,
      or an error thrown on the way (its `message`). */
  datatype Response =
    | Response(status: int, statusText: string, body: string)
    | Thrown(message: string)

  /** The `{success, text?, error?}` result of both helpers. */
  datatype HttpResult = Success(text: string) | Failure(error: string)

  /** `response.ok`. */
  predicate IsOk(status: int) {
    200 <= status <= 299
  }

  /** The optional credentials of a call: `options?.username`,
      `options?.password`. */
  datatype Credentials = Credentials(username: Option<string>, password: Option<string>)

  const NoCredentials := Credentials(None, None)

  /** The `Authorization` header, added only when both the user name and
      the password are non-empty: the Basic scheme of section 2 of RFC 7617,
      `"Basic " + btoa(user + ":" + password)`. */
  function AuthHeader(creds: Credentials, btoa: string -> string): (h: Option<Header>)
    ensures h.Some? <==> Truthy(creds.username) && Truthy(creds.password)
    ensures h.Some? ==>
      (h.value.name == "Authorization"
       && h.value.value == "Basic " + btoa(creds.username.value + ":" + creds.password.value))
  {
    if Truthy(creds.username) && Truthy(creds.password) then
      Some(Header("Authorization", "Basic " + btoa(creds.username.value + ":" + creds.password.value)))
    else None
  }

  const ContentType := Header("Content-Type", "application/json")

  /** The JSON body `fetchText` posts: `button` (default 0, kept when 0),
      then `name` whenever it is defined, even when empty. */
  function TextBody(button: Option<int>, name: Option<string>): Json {
    var b := ("button", JNum(if button.Some? then button.value else 0));
    if name.Some? then JObj([b, ("name", JStr(name.value))]) else JObj([b])
  }

  /** The request `fetchText(url, options)` sends: the optional
      authorization header, then the content type. */
  function FetchTextRequest(url: string, creds: Credentials, button: Option<int>,
                            name: Option<string>, btoa: string -> string): (r: Request)
  {
    var auth := AuthHeader(creds, btoa);
    Request(url, (if auth.Some? then [auth.value] else []) + [ContentType], TextBody(button, name))
  }

  /** The request `sendHttpRequest(url, data, options)` sends: the content
      type first, then the optional authorization header. */
  function SendRequest(url: string, data: Json, creds: Credentials, btoa: string -> string): (r: Request)
  {
    var auth := AuthHeader(creds, btoa);
    Request(url, [ContentType] + (if auth.Some? then [auth.value] else []), data)
  }

  predicate HasHeader(r: Request, name: string) {
    exists i :: 0 <= i < |r.headers| && r.headers[i].name == name
  }

  /** Both helpers always send JSON, and send an `Authorization` header
      exactly when both credentials are non-empty, carrying the Basic
      credentials. */
  lemma RequestHeaders(url: string, data: Json, creds: Credentials, button: Option<int>,
                       name: Option<string>, btoa: string -> string)
    ensures var f := FetchTextRequest(url, creds, button, name, btoa);
      && f.headers[|f.headers| - 1] == ContentType
      && (HasHeader(f, "Authorization") <==> Truthy(creds.username) && Truthy(creds.password))
    ensures var s := SendRequest(url, data, creds, btoa);
      && s.headers[0] == ContentType
      && (HasHeader(s, "Authorization") <==> Truthy(creds.username) && Truthy(creds.password))
    ensures var s := SendRequest(url, data, creds, btoa);
      forall i :: 0 <= i < |s.headers| && s.headers[i].name == "Authorization" ==>
        s.headers[i].value == "Basic " + btoa(creds.username.value + ":" + creds.password.value)
  {
    var f := FetchTextRequest(url, creds, button, name, btoa);
    var s := SendRequest(url, data, creds, btoa);
    if !(Truthy(creds.username) && Truthy(creds.password)) {
      assert f.headers == [ContentType];
      assert s.headers == [ContentType];
    } else {
      assert f.headers[0].name == "Authorization";
      assert s.headers[1].name == "Authorization";
    }
  }

  /** The `button` field of the text body defaults to 0, and `name` is
      present exactly when it was given. */
  lemma TextBodyFields(button: Option<int>, name: Option<string>)
    ensures TextBody(button, name).JObj?
    ensures var fs := TextBody(button, name).fields;
      && fs[0] == ("button", JNum(if button.Some? then button.value else 0))
      && (|fs| == 2 <==> name.Some?)
      && (name.Some? ==> fs[1] == ("name", JStr(name.value)))
      && 1 <= |fs| <= 2
  {
  }

  /** The error of a non-2xx response:
      `HTTP <status>: <statusText>`, then ` - <body>` when the body is not
      empty (a body that could not be read counts as empty). */
  function StatusError(status: int, statusText: string, body: string): (e: string)
  {
    "HTTP " + IntToString(status) + ": " + statusText + (if body != [] then " - " + body else [])
  }

  /** The error of a thrown exception: its message, or `Network error` when
      the message is empty. */
  function ThrownError(message: string): (e: string)
    ensures e != []
    ensures message != [] ==> e == message
  {
    if message != [] then message else "Network error"
  }

  /** `fetchText`'s result: a 2xx response succeeds with its body text (even
      an empty one); anything else fails with the shaped error. */
  function FetchTextResult(resp: Response): (r: HttpResult)
    ensures r.Success? <==> resp.Response? && IsOk(resp.status)
    ensures r.Success? ==> r.text == resp.body
    ensures r.Failure? ==> r.error != []
  {
    match resp
    case Thrown(m) => Failure(ThrownError(m))
    case Response(status, statusText, body) =>
      if IsOk(status) then Success(body) else Failure(StatusError(status, statusText, body))
  }

  /** `sendHttpRequest`'s outcome: success exactly on a 2xx response. The
      parsed JSON of a successful response is not modelled (callers only look
      at `success`), so the text carried on success is the raw body. */
  function SendResult(resp: Response): (r: HttpResult)
    ensures r.Success? <==> resp.Response? && IsOk(resp.status)
    ensures r.Failure? ==> r.error != []
  {
    FetchTextResult(resp)
  }

  /** The error string of a non-2xx response starts with `HTTP `, the status
      in decimal and `: `, then the status text; ` - <body>` is appended
      exactly when the body is non-empty, and the status can be read back
      from the text. */
  lemma StatusErrorShape(status: nat, statusText: string, body: string)
    requires !IsOk(status)
    ensures var e := FetchTextResult(Response(status, statusText, body));
      var digits := NatToString(status);
      && e == Failure(StatusError(status, statusText, body))
      && StartsWith(e.error, "HTTP " + digits + ": " + statusText)
      && ParseDigits(e.error[5..5 + |digits|]) == status
      && (body == [] ==> e.error == "HTTP " + digits + ": " + statusText)
      && (body != [] ==> e.error[|e.error| - |body| - 3..] == " - " + body)
  {
    var digits := NatToString(status);
    var e := StatusError(status, statusText, body);
    var head := "HTTP " + digits + ": " + statusText;
    assert e == head + (if body != [] then " - " + body else []);
    assert e[..|head|] == head;
    assert e[5..5 + |digits|] == digits;
    ParseNatToString(status);
  }
}
