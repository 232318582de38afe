/** Authentication strategies (models/auth.py) and their selection from the
    `auth` entry of an API's configuration (models/api.py, the `auth`
    property). A strategy keeps the dict it was built from and computes its
    settings from it on each access, as the Python classes do. */
module AuthModel {
  import opened Wrappers
  import opened Json
  import opened UrlModel

  /** The `(url, headers, body)` triple `authenticate` takes and returns. */
  datatype Request = Request(url: Target, headers: Option<map<string, string>>, body: Json)

  const AuthorizationHeader: string := "Authorization"

  datatype Auth =
    | PassThrough(raw: Json)
    | QueryParameter(settings: map<string, Json>)
    | BearerToken(settings: map<string, Json>)
  {
    /** The `key`, `value` and `token` properties: `self._json.get(name, None)`. */
    function Key(): (r: Json)
      requires QueryParameter?
      ensures "key" in settings ==> r == settings["key"]
      ensures "key" !in settings ==> r == JNull
    {
      Get(settings, "key")
    }

    function Value(): (r: Json)
      requires QueryParameter?
      ensures "value" in settings ==> r == settings["value"]
      ensures "value" !in settings ==> r == JNull
    {
      Get(settings, "value")
    }

    function Token(): (r: Json)
      requires BearerToken?
      ensures "token" in settings ==> r == settings["token"]
      ensures "token" !in settings ==> r == JNull
    {
      Get(settings, "token")
    }

    /** `f'Bearer {self.token}'`: the scheme, one space, then the token's text. */
    function BearerValue(): (r: string)
      requires BearerToken?
      ensures |r| >= 7 && r[..7] == "Bearer " && r[7..] == Display(Token())
    {
      "Bearer " + Display(Token())
    }

    /** The `json` property: the serialised form that the `auth` dispatch reads back. */
    function ToJson(): (r: Json)
      ensures PassThrough? ==> r == JNull
      ensures QueryParameter? ==> r.JObj? && r.fields.Keys == {"type", "key", "value"}
                                  && r.fields["type"] == JStr("query-parameter")
                                  && r.fields["key"] == Key() && r.fields["value"] == Value()
      ensures BearerToken? ==> r.JObj? && r.fields.Keys == {"type", "token"}
                               && r.fields["type"] == JStr("bearer-token") && r.fields["token"] == Token()
    {
      match this
      case PassThrough(_) => JNull
      case QueryParameter(_) =>
        JObj(map["type" := JStr("query-parameter"), "key" := Key(), "value" := Value()])
      case BearerToken(_) =>
        JObj(map["type" := JStr("bearer-token"), "token" := Token()])
    }

    /** `authenticate(url, headers, body)` for each strategy, with a header map
        passed by value. */
    function Authenticate(parse: string -> UrlParts, req: Request): (out: Request)
      ensures PassThrough? ==> out == req
      ensures QueryParameter? ==>
                var before := View(parse, req.url);
                var after := View(parse, out.url);
                && out.url.Rebuilt? && out.headers == req.headers && out.body == req.body
                && after.scheme == before.scheme && after.netloc == before.netloc && after.path == before.path
                && after.params == "" && after.fragment == ""
                && Key() in after.query && after.query[Key()] == Value()
                && (forall k :: k != Key() ==> (k in after.query <==> k in before.query))
                && (forall k :: k != Key() && k in before.query ==> after.query[k] == before.query[k])
      ensures BearerToken? ==>
                && out.url == req.url && out.body == req.body && out.headers.Some?
                && AuthorizationHeader in out.headers.value
                && out.headers.value[AuthorizationHeader] == BearerValue()
                && (req.headers.None? ==> out.headers.value.Keys == {AuthorizationHeader})
                && (req.headers.Some? ==>
                      && out.headers.value.Keys == req.headers.value.Keys + {AuthorizationHeader}
                      && forall h :: h in req.headers.value && h != AuthorizationHeader ==>
                           out.headers.value[h] == req.headers.value[h])
    {
      match this
      case PassThrough(_) => req
      case QueryParameter(_) =>
        var o := View(parse, req.url);
        req.(url := Rebuilt(o.scheme, o.netloc, o.path, o.query[Key() := Value()]))
      case BearerToken(_) =>
        var headers := if req.headers.Some? then req.headers.value else map[];
        req.(headers := Some(headers[AuthorizationHeader := BearerValue()]))
    }

    /** `authenticate` as the source runs it on a mutable header dict: the
        bearer strategy writes into the caller's dict when one is given and
        allocates a new one otherwise; the other strategies touch nothing. */
    method AuthenticateInPlace(parse: string -> UrlParts, url: Target, headers: HeaderMap?, body: Json)
      returns (url': Target, headers': HeaderMap?, body': Json)
      modifies headers
      ensures Request(url', EntriesOf(headers'), body')
              == Authenticate(parse, Request(url, old(EntriesOf(headers)), body))
      ensures BearerToken? && headers == null ==> headers' != null && fresh(headers')
      ensures BearerToken? && headers != null ==> headers' == headers
      ensures !BearerToken? ==> headers' == headers && (headers != null ==> headers.entries == old(headers.entries))
    {
      url', headers', body' := url, headers, body;
      match this
      case PassThrough(_) =>
      case QueryParameter(_) =>
        var o := View(parse, url);
        url' := Rebuilt(o.scheme, o.netloc, o.path, o.query[Key() := Value()]);
      case BearerToken(_) =>
        if headers' == null {
          headers' := new HeaderMap(map[]);
        }
        headers'.entries := headers'.entries[AuthorizationHeader := BearerValue()];
    }
  }

  /** A caller's mutable header dict. */
  class HeaderMap {
    var entries: map<string, string>

    constructor (entries: map<string, string>)
      ensures this.entries == entries
    {
      this.entries := entries;
    }
  }

  function EntriesOf(h: HeaderMap?): Option<map<string, string>>
    reads h
  {
    if h == null then None else Some(h.entries)
  }

  /** The `auth` property of an API: dispatch on the `type` of the configured
      auth entry. No entry (or null) means pass-through; an unknown type falls
      back to pass-through; an entry without `type` raises KeyError, and one
      that is not a dict cannot be subscripted. */
  function AuthOf(d: Json): (r: Result<Auth, Error>)
    ensures d == JNull ==> r == Success(PassThrough(JNull))
    ensures d.JObj? && "type" !in d.fields ==> r == Failure(KeyError("type"))
    ensures d.JObj? && "type" in d.fields && d.fields["type"] == JStr("query-parameter") ==>
              r == Success(QueryParameter(d.fields))
    ensures d.JObj? && "type" in d.fields && d.fields["type"] == JStr("bearer-token") ==>
              r == Success(BearerToken(d.fields))
    ensures d.JObj? && "type" in d.fields
            && d.fields["type"] != JStr("query-parameter") && d.fields["type"] != JStr("bearer-token") ==>
              r == Success(PassThrough(d))
    ensures d != JNull && !d.JObj? ==> r.Failure?
  {
    if d == JNull then Success(PassThrough(d))
    else
      var kind :- Subscript(d, "type");
      if kind == JStr("query-parameter") then Success(QueryParameter(d.fields))
      else if kind == JStr("bearer-token") then Success(BearerToken(d.fields))
      else Success(PassThrough(d))
  }

  /** Applying a strategy twice is the same as applying it once; for the
      query-parameter strategy the key still has exactly the one value. */
  lemma AuthenticateIdempotent(a: Auth, parse: string -> UrlParts, req: Request)
    ensures a.Authenticate(parse, a.Authenticate(parse, req)) == a.Authenticate(parse, req)
  {
    match a
    case PassThrough(_) =>
    case QueryParameter(_) =>
      var q := View(parse, req.url).query;
      assert q[a.Key() := a.Value()][a.Key() := a.Value()] == q[a.Key() := a.Value()];
    case BearerToken(_) =>
      var once := a.Authenticate(parse, req).headers.value;
      assert once[AuthorizationHeader := a.BearerValue()] == once;
  }

  /** Serialising a query-parameter strategy and dispatching it again gives a
      query-parameter strategy with the same key and value. */
  lemma QueryParameterRoundTrip(a: Auth)
    requires a.QueryParameter?
    ensures AuthOf(a.ToJson()).Success?
    ensures var b := AuthOf(a.ToJson()).value;
      b.QueryParameter? && b.Key() == a.Key() && b.Value() == a.Value()
  {
  }

  /** Serialising a bearer-token strategy and dispatching it again gives a
      bearer-token strategy with the same token. */
  lemma BearerTokenRoundTrip(a: Auth)
    requires a.BearerToken?
    ensures AuthOf(a.ToJson()).Success?
    ensures var b := AuthOf(a.ToJson()).value;
      b.BearerToken? && b.Token() == a.Token()
  {
  }

  /** The strategy rebuilt from `json` authenticates every request exactly as
      the original does. */
  lemma RoundTripAuthenticatesAlike(a: Auth, parse: string -> UrlParts, req: Request)
    ensures AuthOf(a.ToJson()).Success?
    ensures AuthOf(a.ToJson()).value.Authenticate(parse, req) == a.Authenticate(parse, req)
  {
    var b := AuthOf(a.ToJson()).value;
    match a
    case PassThrough(_) =>
    case QueryParameter(_) =>
      assert b.Key() == a.Key() && b.Value() == a.Value();
    case BearerToken(_) =>
      assert b.Token() == a.Token();
  }
}
