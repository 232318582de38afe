/** The API object of models/api.py: its configuration, the collections and
    data it loads, the link-derived collection ids, the title ordering, and
    the search and pagination methods, each proved equal to the functions of
    module Paging. */
module ApiModel {
  import opened Wrappers
  import opened Json
  import opened LinkModel
  import opened SearchResultModel
  import opened UrlModel
  import opened AuthModel
  import opened Network
  import opened Paging

  /** A collection wrapper over its raw JSON; its own fields are not modelled. */
  datatype Collection = Collection(api: Api, json: Json)

  function Wrap(api: Api, raw: seq<Json>): (r: seq<Collection>)
    ensures |r| == |raw| && forall i | 0 <= i < |raw| :: r[i] == Collection(api, raw[i])
  {
    seq(|raw|, i requires 0 <= i < |raw| => Collection(api, raw[i]))
  }

  /** Nothing gathered before a page leaves that page's items as they are. */
  lemma ExtendNothing<T>(mine: Result<seq<T>, Error>)
    ensures Extend(Success([]), mine) == mine
  {
    if mine.Success? {
      assert [] + mine.value == mine.value;
    }
  }

  /** `n` copies of `api`: what `on_next_page` was called with, in order. */
  function Copies(api: Api, n: nat): (r: seq<Api>)
    ensures |r| == n
  {
    if n == 0 then [] else [api] + Copies(api, n - 1)
  }

  /** One more call in front of `n` of them. */
  lemma CopiesAfter(before: seq<Api>, api: Api, n: nat)
    ensures before + [api] + Copies(api, n) == before + Copies(api, n + 1)
  {
    assert Copies(api, n + 1) == [api] + Copies(api, n);
  }

  /** The `on_next_page` callback, reduced to a record of its calls. */
  class ProgressLog {
    var calls: seq<Api>

    constructor ()
      ensures calls == []
    {
      calls := [];
    }

    method OnNextPage(api: Api)
      modifies this
      ensures calls == old(calls) + [api]
    {
      calls := calls + [api];
    }
  }

  // ----- Collection ids from links -----

  const CollectionsPrefix: string := "/collections/"

  /** The longest prefix without a newline: what `.*` matches. */
  function TakeLine(s: string): (r: string)
    ensures r <= s && '\n' !in r
    ensures |r| < |s| ==> s[|r|] == '\n'
  {
    if s == [] || s[0] == '\n' then [] else [s[0]] + TakeLine(s[1..])
  }

  /** `re.compile(r'\/collections\/(.*)').match(path)`: anchored at the start
      of the path, the group is the rest of the line, slashes included. */
  function CollectionIdOfPath(path: string): (r: Option<string>)
    ensures r.Some? <==> CollectionsPrefix <= path
    ensures r.Some? ==> r.value == TakeLine(path[|CollectionsPrefix|..])
  {
    if CollectionsPrefix <= path then Some(TakeLine(path[|CollectionsPrefix|..])) else None
  }

  /** `collection_id_from_href(href)`: match on the path of the parsed URL. */
  function CollectionIdFromHref(parse: string -> UrlParts, href: string): (r: Option<string>)
    ensures r.Some? <==> CollectionsPrefix <= parse(href).path
    ensures r.Some? ==> CollectionsPrefix + r.value <= parse(href).path && '\n' !in r.value
    ensures r.Some? ==> r.value == TakeLine(parse(href).path[|CollectionsPrefix|..])
  {
    CollectionIdOfPath(parse(href).path)
  }

  /** A path built as the prefix followed by an id reads back as that id,
      whatever slashes the id holds. */
  lemma {:induction false} CollectionIdRoundTrip(id: string)
    requires '\n' !in id
    ensures CollectionIdOfPath(CollectionsPrefix + id) == Some(id)
  {
    assert (CollectionsPrefix + id)[|CollectionsPrefix|..] == id;
    var t := TakeLine(id);
    assert |t| == |id|;
    assert t == id;
  }

  /** The two documented examples, for any URL parser that yields the path. */
  lemma CollectionIdExamples(parse: string -> UrlParts, found: string, other: string)
    requires parse(found).path == CollectionsPrefix + "sentinel-2"
    requires parse(other).path == "/foo"
    ensures CollectionIdFromHref(parse, found) == Some("sentinel-2")
    ensures CollectionIdFromHref(parse, other) == None
  {
    CollectionIdRoundTrip("sentinel-2");
    assert |"/foo"| < |CollectionsPrefix|;
  }

  /** A link names collection `id`. */
  predicate Names(parse: string -> UrlParts, l: Link, id: string) {
    l.Href().Success? && l.Href().value.JStr? && CollectionIdFromHref(parse, l.Href().value.s) == Some(id)
  }

  /** `collection_ids` as a value: the ids of the matching links, in link
      order. A link that is not an object, or whose href is not a string,
      raises. */
  function CollectionIdsOf(parse: string -> UrlParts, links: seq<Link>): (r: Result<seq<string>, Error>)
    ensures r.Success? ==> |r.value| <= |links|
  {
    if links == [] then Success([])
    else if links[0].Href().Failure? then Failure(links[0].Href().error)
    else if !links[0].Href().value.JStr? then Failure(TypeError("urlparse"))
    else
      var found := CollectionIdFromHref(parse, links[0].Href().value.s);
      Prepend(if found.Some? then [found.value] else [], CollectionIdsOf(parse, links[1..]))
  }

  /** The scan of two runs of links is the scan of the first run followed by
      the scan of the second, unless the first run already raises. */
  lemma {:induction false} CollectionIdsAppend(parse: string -> UrlParts, a: seq<Link>, b: seq<Link>)
    ensures CollectionIdsOf(parse, a + b)
            == if CollectionIdsOf(parse, a).Failure? then CollectionIdsOf(parse, a)
               else Prepend(CollectionIdsOf(parse, a).value, CollectionIdsOf(parse, b))
  {
    if a == [] {
      assert a + b == b;
      if CollectionIdsOf(parse, b).Success? {
        assert [] + CollectionIdsOf(parse, b).value == CollectionIdsOf(parse, b).value;
      }
    } else {
      assert (a + b)[0] == a[0] && (a + b)[1..] == a[1..] + b;
      CollectionIdsAppend(parse, a[1..], b);
      if a[0].Href().Success? && a[0].Href().value.JStr? && CollectionIdsOf(parse, a[1..]).Success? {
        var found := CollectionIdFromHref(parse, a[0].Href().value.s);
        PrependTwice(if found.Some? then [found.value] else [], CollectionIdsOf(parse, a[1..]).value, CollectionIdsOf(parse, b));
      }
    }
  }

  /** One link contributes exactly the id it names, or nothing when its
      string href names no collection. */
  lemma CollectionIdsOfOne(parse: string -> UrlParts, l: Link, id: string)
    ensures Names(parse, l, id) ==> CollectionIdsOf(parse, [l]) == Success([id])
    ensures l.Href().Success? && l.Href().value.JStr? && CollectionIdFromHref(parse, l.Href().value.s).None? ==>
              CollectionIdsOf(parse, [l]) == Success([])
  {
    assert [l][1..] == [];
    assert [id] + [] == [id];
  }

  /** An id is collected exactly when some link names it. */
  lemma {:induction false} CollectionIdsExactly(parse: string -> UrlParts, links: seq<Link>, id: string)
    requires CollectionIdsOf(parse, links).Success?
    ensures id in CollectionIdsOf(parse, links).value <==> exists i | 0 <= i < |links| :: Names(parse, links[i], id)
  {
    if links != [] {
      CollectionIdsExactly(parse, links[1..], id);
      if exists i | 0 <= i < |links| :: Names(parse, links[i], id) {
        var i :| 0 <= i < |links| && Names(parse, links[i], id);
        if i > 0 {
          assert links[1..][i - 1] == links[i];
        }
      }
      if exists i | 0 <= i < |links[1..]| :: Names(parse, links[1..][i], id) {
        var i :| 0 <= i < |links[1..]| && Names(parse, links[1..][i], id);
        assert links[i + 1] == links[1..][i];
      }
    }
  }

  /** A scan of the links succeeds exactly when every link's href is a string. */
  lemma {:induction false} CollectionIdsSucceed(parse: string -> UrlParts, links: seq<Link>)
    ensures CollectionIdsOf(parse, links).Success? <==>
            forall i | 0 <= i < |links| :: links[i].Href().Success? && links[i].Href().value.JStr?
  {
    if links != [] {
      CollectionIdsSucceed(parse, links[1..]);
      assert forall i | 1 <= i < |links| :: links[i] == links[1..][i - 1];
    }
  }

  /** The scan from link `i`, by what link `i` holds. */
  lemma CollectionIdsStep(parse: string -> UrlParts, links: seq<Link>, i: nat)
    requires i < |links|
    ensures links[i].Href().Failure? ==> CollectionIdsOf(parse, links[i..]) == Failure(links[i].Href().error)
    ensures links[i].Href().Success? && !links[i].Href().value.JStr? ==>
              CollectionIdsOf(parse, links[i..]) == Failure(TypeError("urlparse"))
    ensures links[i].Href().Success? && links[i].Href().value.JStr? ==>
              var found := CollectionIdFromHref(parse, links[i].Href().value.s);
              CollectionIdsOf(parse, links[i..]) == Prepend(if found.Some? then [found.value] else [], CollectionIdsOf(parse, links[i + 1..]))
  {
    assert links[i..][1..] == links[i + 1..];
    assert links[i..][0] == links[i];
  }

  /** Prepending twice is prepending the two prefixes together. */
  lemma PrependTwice(ids: seq<string>, prefix: seq<string>, rest: Result<seq<string>, Error>)
    ensures Prepend(ids, Prepend(prefix, rest)) == Prepend(ids + prefix, rest)
  {
    if rest.Success? {
      assert ids + (prefix + rest.value) == ids + prefix + rest.value;
    }
  }

  /** `prefix` before the ids a successful scan of the rest would give. */
  function Prepend(prefix: seq<string>, rest: Result<seq<string>, Error>): Result<seq<string>, Error> {
    if rest.Failure? then rest else Success(prefix + rest.value)
  }

  // ----- Title order -----

  function LowerChar(c: char): char {
    if 'A' <= c <= 'Z' then (c as int + 32) as char else c
  }

  /** `str.lower()` on ASCII letters. */
  function Lower(s: string): (r: string)
    ensures |r| == |s| && forall i | 0 <= i < |s| :: r[i] == LowerChar(s[i])
  {
    if s == [] then [] else [LowerChar(s[0])] + Lower(s[1..])
  }

  /** Python's `<` on strings: code point by code point, a proper prefix first. */
  function LexLess(a: string, b: string): (r: bool)
    ensures a < b ==> r
    ensures b <= a ==> !r
  {
    if a == [] then b != []
    else if b == [] then false
    else if a[0] != b[0] then a[0] < b[0]
    else LexLess(a[1..], b[1..])
  }

  /** The first differing code point decides. */
  lemma {:induction false} LexLessFirstDifference(a: string, b: string, k: nat)
    requires k < |a| && k < |b| && a[..k] == b[..k] && a[k] != b[k]
    ensures LexLess(a, b) == (a[k] < b[k])
  {
    if k > 0 {
      assert a[0] == a[..k][0] == b[..k][0] == b[0];
      assert a[1..][..k - 1] == a[1..k] == a[..k][1..] && b[1..][..k - 1] == b[1..k] == b[..k][1..];
      LexLessFirstDifference(a[1..], b[1..], k - 1);
    }
  }

  lemma {:induction false} LexLessTransitive(a: string, b: string, c: string)
    requires LexLess(a, b) && LexLess(b, c)
    ensures LexLess(a, c)
  {
    if a != [] && b != [] && c != [] && a[0] == b[0] == c[0] {
      LexLessTransitive(a[1..], b[1..], c[1..]);
    }
  }

  lemma {:induction false} LexLessTotal(a: string, b: string)
    requires a != b
    ensures LexLess(a, b) || LexLess(b, a)
  {
    if a != [] && b != [] && a[0] == b[0] {
      assert a == [a[0]] + a[1..] && b == [b[0]] + b[1..];
      LexLessTotal(a[1..], b[1..]);
    }
  }

  // ----- The API object -----

  class Api {
    const json: map<string, Json>
    var data: Json
    var collections: seq<Collection>

    /** `API(json)`: data and collections come from the configuration. */
    constructor (json: map<string, Json>)
      requires Elements(GetOr(json, "collections", JArr([]))).Success?
      ensures this.json == json && data == Get(json, "data")
      ensures collections == Wrap(this, Elements(GetOr(json, "collections", JArr([]))).value)
    {
      this.json := json;
      data := Get(json, "data");
      new;
      collections := Wrap(this, Elements(GetOr(json, "collections", JArr([]))).value);
    }

    /** The `id`, `title` and `href` properties and the raw `auth` entry:
        `self._json.get(name, None)`. */
    function Id(): (r: Json)
      ensures "id" in json ==> r == json["id"]
      ensures "id" !in json ==> r == JNull
    {
      Get(json, "id")
    }

    function Title(): (r: Json)
      ensures "title" in json ==> r == json["title"]
      ensures "title" !in json ==> r == JNull
    {
      Get(json, "title")
    }

    function Href(): (r: Json)
      ensures "href" in json ==> r == json["href"]
      ensures "href" !in json ==> r == JNull
    {
      Get(json, "href")
    }

    function AuthJson(): (r: Json)
      ensures "auth" in json ==> r == json["auth"]
      ensures "auth" !in json ==> r == JNull
    {
      Get(json, "auth")
    }

    /** The `auth` property, rebuilt from the configuration on every access. */
    function AuthStrategy(): (r: Result<Auth, Error>)
      ensures "auth" !in json ==> r == Success(PassThrough(JNull))
      ensures r == AuthOf(AuthJson())
    {
      AuthOf(AuthJson())
    }

    /** The `data` property: an empty dict until data is loaded. */
    function Data(): (r: Json)
      reads this
      ensures r != JNull
      ensures data != JNull ==> r == data
      ensures data == JNull ==> r == JObj(map[])
    {
      if data == JNull then JObj(map[]) else data
    }

    /** The `links` property: one Link per entry of the data's `links`. */
    function Links(): (r: Result<seq<Link>, Error>)
      reads this
      ensures data == JNull ==> r.Success? && |r.value| == 0
      ensures !Data().JObj? ==> r == Failure(AttributeError("get"))
      ensures Data().JObj? ==>
                var raw := Elements(GetOr(Data().fields, "links", JArr([])));
                && (raw.Failure? ==> r == Failure(raw.error))
                && (raw.Success? ==> r.Success? && |r.value| == |raw.value|
                                     && forall i | 0 <= i < |raw.value| :: r.value[i] == Link(raw.value[i]))
    {
      var d := Data();
      if !d.JObj? then Failure(AttributeError("get"))
      else
        var raw :- Elements(GetOr(d.fields, "links", JArr([])));
        Success(seq(|raw|, i requires 0 <= i < |raw| => Link(raw[i])))
    }

    /** `__lt__`: case-insensitive title order; a title that is not a string
        has no `lower`. */
    function Less(other: Api): (r: Result<bool, Error>)
      ensures Title().JStr? && other.Title().JStr? ==>
                r == Success(LexLess(Lower(Title().s), Lower(other.Title().s)))
      ensures !Title().JStr? || !other.Title().JStr? ==> r == Failure(AttributeError("lower"))
    {
      if !Title().JStr? || !other.Title().JStr? then Failure(AttributeError("lower"))
      else Success(LexLess(Lower(Title().s), Lower(other.Title().s)))
    }

    /** The `collection_ids` property: a loop over the links that keeps the id
        of every link whose path starts with `/collections/`. */
    method CollectionIds(parse: string -> UrlParts) returns (r: Result<seq<string>, Error>)
      ensures Links().Failure? ==> r == Failure(Links().error)
      ensures Links().Success? ==> r == CollectionIdsOf(parse, Links().value)
    {
      var all := Links();
      if all.Failure? {
        return Failure(all.error);
      }
      var links := all.value;
      var ids: seq<string> := [];
      var i := 0;
      assert links[0..] == links;
      if CollectionIdsOf(parse, links).Success? {
        assert [] + CollectionIdsOf(parse, links).value == CollectionIdsOf(parse, links).value;
      }
      while i < |links|
        invariant 0 <= i <= |links|
        invariant CollectionIdsOf(parse, links) == Prepend(ids, CollectionIdsOf(parse, links[i..]))
      {
        CollectionIdsStep(parse, links, i);
        var href := links[i].Href();
        if href.Failure? {
          return Failure(href.error);
        }
        if !href.value.JStr? {
          return Failure(TypeError("urlparse"));
        }
        var found := CollectionIdOfPath(parse(href.value.s).path);
        if found.Some? {
          PrependTwice(ids, [found.value], CollectionIdsOf(parse, links[i + 1..]));
          ids := ids + [found.value];
        } else {
          PrependTwice(ids, [], CollectionIdsOf(parse, links[i + 1..]));
          assert ids + [] == ids;
        }
        i := i + 1;
      }
      assert links[i..] == [];
      assert ids + [] == ids;
      return Success(ids);
    }

    /** `load()`: fetch `<href>/collections`, store the response as data, then
        replace the collections by its `collections` list. A failure after the
        fetch leaves the new data in place and the old collections. */
    method Load(env: Env) returns (r: Result<(), Error>)
      modifies this
      ensures var x := Send(env, AuthJson(), JStr(Display(Href()) + "/collections"), JNull);
        && (x.response.Failure? ==> r == Failure(x.response.error) && data == old(data) && collections == old(collections))
        && (x.response.Success? ==> data == x.response.value)
        && (x.response.Success? && LoadedCollections(x.response.value).Failure? ==>
              r == Failure(LoadedCollections(x.response.value).error) && collections == old(collections))
        && (x.response.Success? && LoadedCollections(x.response.value).Success? ==>
              r == Success(()) && collections == Wrap(this, LoadedCollections(x.response.value).value))
    {
      var x := Send(env, AuthJson(), JStr(Display(Href()) + "/collections"), JNull);
      if x.response.Failure? {
        return Failure(x.response.error);
      }
      data := x.response.value;
      var raw := LoadedCollections(data);
      if raw.Failure? {
        return Failure(raw.error);
      }
      collections := Wrap(this, raw.value);
      return Success(());
    }

    /** `load_next_page(next_link, on_next_page, current_page, max_pages)`. */
    method LoadNextPage(env: Env, link: Link, log: ProgressLog?, current: int := FirstFollowPage, max: int := MaxPages)
      returns (r: Result<seq<Item<Api>>, Error>)
      modifies log
      ensures var p := Follow(env, this, AuthJson(), link, log != null, current, max);
        && r == p.result
        && (log != null ==> log.calls == old(log.calls) + Copies(this, p.notices))
      decreases Budget(current, max)
    {
      if current > max {
        return Success([]);
      }
      ghost var before := if log != null then log.calls else [];
      ghost var notify := log != null;
      assert Copies(this, 1) == [this];
      if log != null {
        log.OnNextPage(this);
      }
      var x := FetchLink(env, AuthJson(), link);
      if x.response.Failure? {
        FollowFetchFails(env, this, AuthJson(), link, notify, current, max);
        return Failure(x.response.error);
      }
      var searchResult := SearchResult(this, x.response.value);
      var next := searchResult.Next();
      if next.Failure? {
        FollowNextFails(env, this, AuthJson(), link, notify, current, max, x.response.value);
        return Failure(next.error);
      }
      var items: seq<Item<Api>> := [];
      if next.value.Some? {
        FollowNextPage(env, this, AuthJson(), link, notify, current, max, x.response.value, next.value.value);
        ghost var q := Follow(env, this, AuthJson(), next.value.value, notify, current + 1, max);
        var deeper := LoadNextPage(env, next.value.value, log, current + 1, max);
        if log != null {
          CopiesAfter(before, this, q.notices);
        }
        if deeper.Failure? {
          return deeper;
        }
        assert items + deeper.value == deeper.value;
        items := items + deeper.value;
      } else {
        FollowLastPage(env, this, AuthJson(), link, notify, current, max, x.response.value);
        ExtendNothing(searchResult.Items());
      }
      ghost var p := Follow(env, this, AuthJson(), link, notify, current, max);
      assert p.result == Extend(Success(items), searchResult.Items());
      assert log != null ==> log.calls == before + Copies(this, p.notices);
      var own := searchResult.Items();
      if own.Failure? {
        return Failure(own.error);
      }
      items := items + own.value;
      return Success(items);
    }

    /** `search_collection(...)`: build the time string, then search with it. */
    method SearchCollection<T>(env: Env, collectionIds: seq<Json>, bbox: Json, format: T -> string,
                               start: Option<T>, end: Option<T>, query: Json, log: ProgressLog?,
                               limit: int := DefaultLimit)
      returns (r: Result<seq<Item<Api>>, Error>)
      modifies log
      ensures var p := Search(env, this, AuthJson(), Href(), collectionIds, bbox, format, start, end, query,
                              log != null, limit);
        && r == p.result
        && (log != null ==> log.calls == old(log.calls) + Copies(this, p.notices))
    {
      if start.None? {
        assert Copies(this, 0) == [];
        assert log != null ==> log.calls + [] == log.calls;
        return Failure(AttributeError("strftime"));
      }
      var time: string;
      if end.None? {
        time := format(start.value);
      } else {
        var from := format(start.value);
        var to := format(end.value);
        time := from + "/" + to;
      }
      assert TimeField(format, start, end) == Success(time);
      r := PostSearch(env, collectionIds, bbox, time, query, log, limit);
    }

    /** The rest of `search_collection`: build the body, post it to
        `<href>/search`, then follow page 1's `next` link with the default cap. */
    method PostSearch(env: Env, collectionIds: seq<Json>, bbox: Json, time: string, query: Json, log: ProgressLog?,
                      limit: int)
      returns (r: Result<seq<Item<Api>>, Error>)
      modifies log
      ensures var p := SearchWith(env, this, AuthJson(), Href(), collectionIds, bbox, time, query, log != null, limit);
        && r == p.result
        && (log != null ==> log.calls == old(log.calls) + Copies(this, p.notices))
    {
      ghost var before := if log != null then log.calls else [];
      ghost var notify := log != null;
      assert before + Copies(this, 0) == before;
      var x := Send(env, AuthJson(), SearchUrl(Href()), JObj(SearchBody(collectionIds, bbox, time, limit, query)));
      if x.response.Failure? {
        SearchSendFails(env, this, AuthJson(), Href(), collectionIds, bbox, time, query, notify, limit);
        return Failure(x.response.error);
      }
      var searchResult := SearchResult(this, x.response.value);
      var items := searchResult.Items();
      if items.Failure? {
        SearchItemsFail(env, this, AuthJson(), Href(), collectionIds, bbox, time, query, notify, limit, x.response.value);
        return Failure(items.error);
      }
      var next := searchResult.Next();
      if next.Failure? {
        SearchNextFails(env, this, AuthJson(), Href(), collectionIds, bbox, time, query, notify, limit, x.response.value);
        return Failure(next.error);
      }
      var all := items.value;
      if next.value.Some? {
        SearchNextPage(env, this, AuthJson(), Href(), collectionIds, bbox, time, query, notify, limit, x.response.value, next.value.value);
        ghost var q := Follow(env, this, AuthJson(), next.value.value, notify, FirstFollowPage, MaxPages);
        var later := LoadNextPage(env, next.value.value, log);
        assert log != null ==> log.calls == before + Copies(this, q.notices);
        if later.Failure? {
          return later;
        }
        all := all + later.value;
      } else {
        SearchLastPage(env, this, AuthJson(), Href(), collectionIds, bbox, time, query, notify, limit, x.response.value);
      }
      return Success(all);
    }
  }

  /** `data['collections']`, iterated. */
  function LoadedCollections(data: Json): (r: Result<seq<Json>, Error>)
    ensures !(data.JObj? && "collections" in data.fields) ==> r.Failure?
    ensures data.JObj? && "collections" !in data.fields ==> r == Failure(KeyError("collections"))
    ensures data.JObj? && "collections" in data.fields && data.fields["collections"].JArr? ==>
              r == Success(data.fields["collections"].elems)
  {
    var c :- Subscript(data, "collections");
    Elements(c)
  }

  /** Title order is a strict weak order: irreflexive, transitive, and two
      APIs are unordered exactly when their titles agree up to case. */
  lemma TitleOrder(a: Api, b: Api, c: Api)
    requires a.Title().JStr? && b.Title().JStr? && c.Title().JStr?
    ensures a.Less(a) == Success(false)
    ensures a.Less(b) == Success(true) && b.Less(c) == Success(true) ==> a.Less(c) == Success(true)
    ensures a.Less(b) == Success(false) && b.Less(a) == Success(false) <==> Lower(a.Title().s) == Lower(b.Title().s)
  {
    var x, y, z := Lower(a.Title().s), Lower(b.Title().s), Lower(c.Title().s);
    if LexLess(x, y) && LexLess(y, z) {
      LexLessTransitive(x, y, z);
    }
    if x != y {
      LexLessTotal(x, y);
    }
  }
}
