# qgis-stac-browser: STAC search, pagination and authentication, in Dafny

This project models the query core of the QGIS STAC browser plugin. That core is the API object, its search strategy and its authentication strategies. The model covers:

- `API.search_collection`: builds the `time` string and the JSON body, then posts it to `<href>/search`.
- `API.load_next_page`: follows `next` links recursively under a page cap (pages 2 to 10 by default). It calls `on_next_page` once per follow-up fetch. It puts the deeper pages' items before the current page's items.
- `API.collection_ids` and `API.collection_id_from_href`: read collection ids from `/collections/<id>` link paths.
- The `auth` dispatch and the three strategies. Pass-through leaves the request alone. Query-parameter sets one key in the URL query. Bearer-token sets the `Authorization` header. Each strategy has a `json` form that the dispatch reads back.
- `SearchResult` and `Link`: read-only views over decoded JSON.
- The `data` default and the case-insensitive title order (`__lt__`).

Modules, one per file:

- `Wrappers`: `Option` and `Result`.
- `Json`: decoded JSON values, and Python exceptions as an `Error` value.
- `LinkModel` and `SearchResultModel`: the two views.
- `UrlModel`: URL parts. Parsing is supplied by the caller.
- `AuthModel`: the strategies and the dispatch.
- `Network`: one `network.request`. It authenticates the request, then hands it to a server function the caller supplies.
- `Paging`: the search and pagination engine as pure functions. They record the result, the `on_next_page` calls, the requests sent and the pages received.
- `ApiModel`: the `API` class. Its loops, recursion and field updates are written as methods. `CollectionIds`, `LoadNextPage`, `SearchCollection` and `PostSearch` are proved equal to the matching `ApiModel` or `Paging` function. `Load` states the new fields directly.

Python exceptions are `Failure` values carrying the exception kind. The modelled functions and methods return a `Failure` wherever the source raises, except in these cases, each also listed under "Left out":

- the constructor;
- exceptions raised inside `on_next_page`, `Item` or `Collection`, which are not part of this model;
- `urlparse` rejecting a malformed URL, because URL parsing is a total function here;
- a query-parameter `key` that is a list or a dict, which Python cannot use as a dict key.

The regular expression `\/collections\/(.*)` is modelled exactly: it is anchored at the start of the path, and the group runs to the first newline.

## Model

| member | source | states |
|---|---|---|
| Json.GetOr | models/link.py:5-7 | `dict.get(key, default)`: the stored value when the key is present, the default otherwise |
| Json.Get | models/api.py:102-112 | `d.get(key, None)`: the stored value when the key is present, None otherwise |
| Json.Display | models/api.py:72 | the text an f-string gives: a string as itself, None as `None`, booleans as `True`/`False`, a number starting with `-` exactly when negative |
| Json.Decimal | models/auth.py:64 | a number's text is one or more decimal digits, with no leading zero |
| Json.DecimalRoundTrip | models/auth.py:64 | the digits written for a number read back as that number |
| Json.DisplayNumber | models/api.py:19 | a number is shown as its sign, when negative, then the digits of its magnitude, which read back as the magnitude |
| Json.Subscript | models/api.py:128 | `d['type']`: succeeds exactly on a dict holding the key; KeyError on a dict without it; any other value cannot be subscripted |
| Json.Elements | models/api.py:143 | iteration visits a list's elements in order and a string's characters; None, booleans and numbers raise |
| LinkModel.Link.Field | models/link.py:5-27 | every accessor returns the field of the link's dict, None when absent, and raises when the link's value is not a dict |
| LinkModel.EmptyLinkReadsNone | models/link.py:2-3 | `Link()` built on the default empty dict reads None from all six accessors |
| LinkModel.AccessorsReturnFields | models/link.py:5-27 | `href`, `rel`, `type`, `title`, `method` and `body` return their fields verbatim; `rel` and `method` are not validated, and `body` is any JSON value, unchanged |
| LinkModel.AbsentFieldReadsNone | models/link.py:5-7 | an absent field and a field holding null read the same, as None |
| SearchResultModel.SearchResult.FieldOr | models/search_result.py:14-20 | `type` and `context` return the field or None; a page that is not a dict raises |
| SearchResultModel.SearchResult.Items | models/search_result.py:30-32 | one Item per feature, in feature order, each owned by the page's API; none when `features` is absent |
| SearchResultModel.SearchResult.Links | models/search_result.py:34-36 | one Link per entry of `links`, in order; none when `links` is absent |
| SearchResultModel.SearchResult.Next | models/search_result.py:22-28 | the scan over the links that stops at the first `rel == 'next'` computes exactly `FirstNext` of the page's links |
| SearchResultModel.FirstNext | models/search_result.py:22-28 | a link it returns is one of the page's links, and its `rel` is 'next' |
| SearchResultModel.FirstNextIsEarliest | models/search_result.py:22-28 | when every link before position k is a dict with another `rel` and link k is 'next', `next` is link k |
| SearchResultModel.FirstNextNone | models/search_result.py:22-28 | with no 'next' link among dict links, `next` is None |
| SearchResultModel.FirstNextFails | models/search_result.py:22-28 | a non-dict link reached before any 'next' link makes `next` raise AttributeError |
| SearchResultModel.FirstNextNoneOnlyIfAllSkip | models/search_result.py:22-28 | `next` is None only when every link is a dict whose `rel` is not 'next' |
| UrlModel.View | models/auth.py:37-41 | a rebuilt URL has no params and no fragment; a URL given as text reads as its parsed parts |
| AuthModel.Auth.Key | models/auth.py:28-30 | the `key` entry of the strategy's dict, None when absent |
| AuthModel.Auth.Value | models/auth.py:32-34 | the `value` entry of the strategy's dict, None when absent |
| AuthModel.Auth.Token | models/auth.py:56-58 | the `token` entry of the strategy's dict, None when absent |
| AuthModel.Auth.BearerValue | models/auth.py:64 | the header value is `Bearer `, one space included, followed by the token's text |
| AuthModel.Auth.ToJson | models/auth.py:8-58 | base `json` is None; query-parameter gives exactly `{type: 'query-parameter', key, value}`; bearer-token gives exactly `{type: 'bearer-token', token}` |
| AuthModel.Auth.Authenticate | models/auth.py:12-66 | pass-through returns the triple unchanged. Query-parameter keeps scheme, host and path, drops params and fragment, and maps `key` to `value`, overwriting the old value. In the model, where a rebuilt URL reads back as its parts, every other query entry is kept; headers and body are unchanged. Bearer-token sets `Authorization` to `Bearer <token>`, keeps the other headers, url and body, and starts from an empty map when headers is None |
| AuthModel.Auth.AuthenticateInPlace | models/auth.py:60-66 | same triple as `Authenticate`. Bearer-token writes into the caller's header dict when one is given, and allocates a fresh dict when it is None. The other strategies touch no dict |
| AuthModel.AuthOf | models/api.py:122-133 | no auth entry gives pass-through; 'query-parameter' and 'bearer-token' give those strategies over the entry; any other type falls back to pass-through; an entry without `type` raises KeyError; a non-dict entry raises |
| AuthModel.AuthenticateIdempotent | models/auth.py:36-66 | in the model, authenticating twice equals authenticating once for every strategy: pass-through and bearer-token as in the source, and query-parameter because `key` still holds exactly one value |
| AuthModel.QueryParameterRoundTrip | models/auth.py:20-34 | dispatching a query-parameter strategy's `json` gives a query-parameter strategy with the same key and value |
| AuthModel.BearerTokenRoundTrip | models/auth.py:49-58 | dispatching a bearer-token strategy's `json` gives a bearer-token strategy with the same token |
| AuthModel.RoundTripAuthenticatesAlike | models/auth.py:20-66 | the strategy rebuilt from `json` authenticates every request exactly as the original does |
| Network.Prepare | utils/network.py:15-16 | a request reaches the wire exactly when the auth entry dispatches and the url is a string; it is the dispatched strategy applied to `(url, None, data)`, with the body untouched |
| Network.Send | utils/network.py:15-33 | the response is the server's answer to the prepared request; nothing is sent when preparation raises, and then the call fails |
| Network.UnauthenticatedRequestIsUnchanged | utils/network.py:15-16 | with no auth configured, the request is sent exactly as given, with no headers |
| Paging.TimeField | models/api.py:52-57 | the formatted start alone when there is no end; `<start>/<end>` with both ends formatted alike otherwise; a missing start raises |
| Paging.TimeFieldRoundTrip | models/api.py:52-57 | when neither formatted time contains '/', splitting the time field at its first '/' gives back the start and the optional end |
| Paging.SearchBody | models/api.py:59-67 | the body holds the collection ids in the order given, `bbox`, `time` and `limit`, and holds `query` if and only if a query is given |
| Paging.FetchLink | models/api.py:30-40 | a GET link is fetched with no body; a POST link with `link.body`; any other method, None included, sends nothing and raises UnboundLocalError; a link whose `method`, or for GET and POST whose `href`, cannot be read sends nothing and raises that error |
| Paging.Follow | models/api.py:22-48 | past the cap it returns [] with no fetch and no callback. Requests sent and pages received never exceed the pages left under the cap, and neither do callback calls. Without a callback there are no calls. With one, it is called once per request sent, or once more when the run failed. A success received one page per request |
| Paging.Search | models/api.py:50-78 | at most one search request plus the follow-up cap; at most nine callback calls, and none without a callback; a successful search with a callback called it once per request after the first; a success received one page per request, at least one |
| Paging.SearchWith | models/api.py:59-78 | the search once the time string is built: the same bounds and callback count as `Search` |
| Paging.FollowTrace | models/api.py:22-46 | the first request is the fetch of the given link, and none is sent past the cap or when that fetch cannot be built. Each received page is the server's answer to the request at the same position. Each later request is the fetch of the previous page's `next` link. Only the last request can go unanswered |
| Paging.FollowStopsAtEndOrCap | models/api.py:22-46 | a successful run below the cap received at least one page, and stopped either at a page without a `next` link or after using up the whole cap |
| Paging.SearchWithStopsAtEndOrCap | models/api.py:59-78 | once the time string is built, a successful search stops only at a page without a `next` link or after one search request plus the whole follow-up cap |
| Paging.SearchStopsAtEndOrCap | models/api.py:50-78 | a successful `search_collection` stops only at a page without a `next` link or after one search request plus the whole follow-up cap |
| Paging.FollowSucceeds | models/api.py:22-46 | below the cap, `load_next_page` returns its items exactly when every request got a page, every page yields its items and its `next` link, and the run stopped at a page without a `next` link or after using up the whole cap |
| Paging.SearchWithSucceeds | models/api.py:59-78 | once the time string is built, `search_collection` returns its items exactly when every request got a page, every page yields its items and its `next` link, and the run stopped at a page without a `next` link or after one search request plus the whole follow-up cap |
| Paging.SearchSucceeds | models/api.py:50-78 | `search_collection` returns its items exactly when the time string can be built and the run it then makes is complete in the same sense |
| Paging.SearchTrace | models/api.py:50-78 | nothing is sent when the time string fails. Otherwise the first request is the search body posted to `<href>/search`. What follows forms the same chain of answers and `next` links as in `load_next_page` |
| Paging.SearchWithTrace | models/api.py:59-78 | once the time string is built, the first request is the search body posted to `<href>/search`, and the requests and pages form a chain of answers and `next` links |
| Paging.FollowOrder | models/api.py:42-46 | `load_next_page` returns the received pages' items in reverse fetch order |
| Paging.SearchOrder | models/api.py:74-76 | `search_collection` returns page 1's items first, then the later pages in reverse fetch order |
| Paging.SearchWithOrder | models/api.py:69-76 | once the time string is built, the result is page 1's items, then the later pages' items in reverse fetch order |
| Paging.EndlessChainStopsAtCap | models/api.py:22-44 | a page whose `next` link leads back to itself is fetched exactly as many times as the cap allows; each fetch calls the callback once and contributes the page's items once |
| Paging.EndlessSearchSendsTenRequests | models/api.py:50-76 | with the default cap, an endless chain of `next` links costs exactly ten requests and nine callback calls |
| Paging.TwoPageSearch | models/api.py:50-78 | a two-page server yields page 1's two items, then page 2's item, after two requests and one callback call |
| ApiModel.ProgressLog.OnNextPage | models/api.py:26-27 | each `on_next_page(self)` call is recorded after the earlier ones |
| ApiModel.TakeLine | models/api.py:81 | `.*` matches the longest prefix without a newline, stopping just before the first newline |
| ApiModel.CollectionIdFromHref | models/api.py:80-89 | an id exactly when the parsed path starts with `/collections/`; the id is the whole rest of the path's line after that prefix |
| ApiModel.CollectionIdOfPath | models/api.py:80-89 | a match exactly when the path starts with `/collections/`; the id is the rest of the line after that prefix |
| ApiModel.CollectionIdRoundTrip | models/api.py:80-89 | `/collections/<id>` reads back as the whole id, slashes included, for any id without a newline |
| ApiModel.CollectionIdExamples | models/api.py:80-89 | a `/collections/sentinel-2` path yields `sentinel-2`; a `/foo` path yields None |
| ApiModel.CollectionIdsOf | models/api.py:145-160 | a successful scan collects at most one id per link |
| ApiModel.CollectionIdsSucceed | models/api.py:145-160 | the scan succeeds exactly when every link's href is a string |
| ApiModel.CollectionIdsAppend | models/api.py:145-160 | the ids of two runs of links are the first run's ids followed by the second run's, in order, unless the first run raises |
| ApiModel.CollectionIdsOfOne | models/api.py:145-160 | a single link contributes exactly the one id it names, or nothing when its string href names no collection |
| ApiModel.CollectionIdsExactly | models/api.py:145-160 | an id is collected if and only if some link's href path names it |
| ApiModel.Lower | models/api.py:166-167 | `lower()` maps each character to its lower-case form and keeps the length |
| ApiModel.LexLess | models/api.py:167 | Python's `<` on strings: a proper prefix is below the longer string, and no string is below itself or below one of its own prefixes |
| ApiModel.LexLessFirstDifference | models/api.py:167 | between two strings that agree up to position k and differ there, the code points at k decide the order |
| ApiModel.LexLessTransitive | models/api.py:166-167 | string order is transitive |
| ApiModel.LexLessTotal | models/api.py:166-167 | of two different strings, one is below the other |
| ApiModel.Api.constructor | models/api.py:11-16 | the configuration is kept; data is its `data` entry or None; collections wrap its `collections` list, or none when it is absent |
| ApiModel.Api.Id | models/api.py:102-104 | the configuration's `id` entry, None when absent |
| ApiModel.Api.Title | models/api.py:106-108 | the configuration's `title` entry, None when absent |
| ApiModel.Api.Href | models/api.py:110-112 | the configuration's `href` entry, None when absent |
| ApiModel.Api.AuthJson | models/api.py:124 | the configuration's `auth` entry, None when absent |
| ApiModel.Api.AuthStrategy | models/api.py:122-133 | the `auth` property is the dispatch of the configured entry; pass-through when there is no entry |
| ApiModel.Api.Data | models/api.py:135-139 | `{}` while no data is loaded; the loaded data otherwise; never None |
| ApiModel.Api.Links | models/api.py:141-143 | one Link per entry of the data's `links`, in order; none before data is loaded; data that is not a dict raises |
| ApiModel.Api.Less | models/api.py:166-167 | compares the lower-cased titles; a title that is not a string raises AttributeError |
| ApiModel.Api.CollectionIds | models/api.py:145-160 | the loop over the links computes exactly the ids `CollectionIdsOf` gives: by `CollectionIdsAppend` and `CollectionIdsOfOne`, one id per matching link, in link order |
| ApiModel.Api.Load | models/api.py:18-20 | fetches `<href>/collections`. On success the response becomes the data, and its `collections` list replaces the collections. A failed fetch changes nothing. A response without a `collections` list keeps the new data and the old collections |
| ApiModel.Api.LoadNextPage | models/api.py:22-48 | returns exactly `Follow`'s result, and the callback log grows by exactly `Follow`'s number of calls |
| ApiModel.LoadedCollections | models/api.py:20 | `data['collections']`: KeyError when the loaded data has no `collections` entry, a failure when it is not a dict, and the list's entries in order when it is a list |
| ApiModel.Api.PostSearch | models/api.py:59-78 | building the body, posting it and following page 1's `next` link returns exactly `SearchWith`'s result, and the callback log grows by exactly `SearchWith`'s number of calls |
| ApiModel.Api.SearchCollection | models/api.py:50-78 | returns exactly `Search`'s result, and the callback log grows by exactly `Search`'s number of calls |
| ApiModel.TitleOrder | models/api.py:166-167 | title order is irreflexive and transitive. Two APIs are unordered either way if and only if their titles agree up to case |

`SearchResult` and `Link` are Dafny datatypes, so no accessor can change the page or the link. `SearchResult.api` is the datatype's `api` field, the owner it was built with.

## Left out

- HTTP itself is not modelled: urllib, the TLS context chosen by `STAC_DEBUG`, the 5-second timeout, and JSON encoding and decoding. The server is a function `Request -> Result<Json, Error>` that the caller supplies. Downloads are not modelled.
- URL parsing (`urlparse`, `parse_qs`) and `urlencode` are not modelled. Parsing is a caller-supplied function from text to parts, with the query already split into a map. A rebuilt URL is kept as its parts, and reading it back is taken to give those parts. The list values `parse_qs` produces and their re-encoding are not reproduced.
- `strftime` is not modelled: timestamps are formatted by a function the caller supplies.
- The caller passes `search_collection` the collection ids, because `Collection.id` is not part of this model. The internals of `Item` and `Collection` are not part of this model either. This leaves out the `collections` property (sorted by `Collection.__lt__`) and the `json` property of the API, which serialises each collection.
- Numbers are integers; floats are not modelled. An f-string shows a list or dict as a placeholder, not its Python `repr`.
- Iterating over a dict (its keys) is refused as a failure, because maps here have no order. The source would iterate the keys.
- Header and query maps are unordered, so the order of query parameters in the rebuilt URL is not modelled.
- ApiModel.Lower: lower-cases ASCII letters only; Python's `str.lower` also maps other Unicode letters.
- ApiModel.Api.constructor: requires the `collections` entry to be iterable; the source raises there, and a Dafny constructor cannot return an error. The source's default `json=None`, which raises at once, is left out for the same reason.
- ApiModel.CollectionIdsOf: a link whose href is not a string raises one TypeError in the model. The source raises TypeError for a false-like value and AttributeError for any other.
- AuthModel.Auth.Authenticate: the query-parameter strategy keeps every other query entry only in the model. The source re-encodes each of them as the text of a one-element list, for the `parse_qs` and `urlencode` reasons given in the next line.
- AuthModel.AuthenticateIdempotent: holds in the model only. The model keeps a rebuilt URL as its parts and reads it back unchanged. In the source, `parse_qs` turns every query value into a list, and `urlencode` without `doseq` writes that list back as its text (`['x']`). A second pass therefore changes every query entry other than `key`. A URL without a scheme is rebuilt starting with `://`, and parses differently the second time. In the source only the `key` entry is idempotent.
- `urlparse` raising ValueError on a malformed URL, such as an unclosed `[` in the host, is not modelled. Parsing is a total caller-supplied function, so `collection_id_from_href`, `collection_ids` and the query-parameter strategy never fail there in the model.
- A query-parameter `key` that is a list or a dict makes `query_parameters[self.key] = self.value` raise TypeError (unhashable) in the source. The model's query map accepts any JSON key, so the model does not raise.
- Network.Prepare: a url that is not a string is refused with one error kind. The source would fail later, inside urllib.
