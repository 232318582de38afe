/** The transport, reduced to what the core relies on: `network.request`
    dispatches the API's auth entry, authenticates `(url, None, data)` and
    hands the result to the server. The HTTP exchange itself (urllib, TLS
    context, timeout, JSON encoding and decoding) is the `server` function the
    caller supplies; so is URL parsing. */
module Network {
  import opened Wrappers
  import opened Json
  import opened UrlModel
  import opened AuthModel

  datatype Env = Env(parse: string -> UrlParts, server: Request -> Result<Json, Error>)

  /** What one `network.request` call did: the request it put on the wire
      (None when it failed before sending) and the decoded response. */
  datatype Exchange = Exchange(sent: Option<Request>, response: Result<Json, Error>)

  /** `network.request(api, url, data)` up to the wire: `api.auth` first, then
      `authenticate(url, None, data)`. A url that is not a string is refused. */
  function Prepare(env: Env, authJson: Json, url: Json, data: Json): (r: Result<Request, Error>)
    ensures r.Success? <==> AuthOf(authJson).Success? && url.JStr?
    ensures r.Success? ==> r.value.body == data
    ensures r.Success? ==> r.value == AuthOf(authJson).value.Authenticate(env.parse, Request(Raw(url.s), None, data))
  {
    var auth :- AuthOf(authJson);
    if url.JStr? then Success(auth.Authenticate(env.parse, Request(Raw(url.s), None, data)))
    else Failure(TypeError("url"))
  }

  /** One request: prepared, then answered by the server. */
  function Send(env: Env, authJson: Json, url: Json, data: Json): (x: Exchange)
    ensures x.sent.Some? <==> Prepare(env, authJson, url, data).Success?
    ensures x.sent.Some? ==> x.response == env.server(x.sent.value)
    ensures x.sent.None? ==> x.response.Failure?
  {
    match Prepare(env, authJson, url, data)
    case Failure(e) => Exchange(None, Failure(e))
    case Success(req) => Exchange(Some(req), env.server(req))
  }

  /** With no auth configured, the request is sent exactly as given. */
  lemma UnauthenticatedRequestIsUnchanged(env: Env, url: string, data: Json)
    ensures Send(env, JNull, JStr(url), data).sent == Some(Request(Raw(url), None, data))
  {
  }
}
