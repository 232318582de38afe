/** The search and pagination engine of models/api.py as functions: the time
    string and request body of `search_collection`, the recursive
    `load_next_page`, and what they send, receive and return. The imperative
    methods of `ApiModel.Api` are proved equal to these. */
module Paging {
  import opened Wrappers
  import opened Json
  import opened LinkModel
  import opened SearchResultModel
  import opened AuthModel
  import opened Network

  /** Default arguments of `load_next_page` and `search_collection`. */
  const FirstFollowPage: int := 2
  const MaxPages: int := 10
  const DefaultLimit: int := 50

  /** The `time` field: the formatted start alone, or `<start>/<end>`. Both ends
      go through the same formatting; a missing start raises (`None.strftime`). */
  function TimeField<T>(format: T -> string, start: Option<T>, end: Option<T>): (r: Result<string, Error>)
    ensures start.None? ==> r.Failure?
    ensures start.Some? && end.None? ==> r == Success(format(start.value))
    ensures start.Some? && end.Some? ==> r == Success(format(start.value) + "/" + format(end.value))
  {
    if start.None? then Failure(AttributeError("strftime"))
    else if end.None? then Success(format(start.value))
    else Success(format(start.value) + "/" + format(end.value))
  }

  /** The text before the first '/' and, when there is one, the text after it. */
  function SplitTime(time: string): (string, Option<string>) {
    if time == [] then ([], None)
    else if time[0] == '/' then ([], Some(time[1..]))
    else
      var (head, tail) := SplitTime(time[1..]);
      ([time[0]] + head, tail)
  }

  lemma {:induction false} SplitAfterPlainText(a: string, rest: string)
    requires '/' !in a
    ensures SplitTime(a + rest) == (a + SplitTime(rest).0, SplitTime(rest).1)
  {
    if a == [] {
      assert a + rest == rest;
      assert a + SplitTime(rest).0 == SplitTime(rest).0;
    } else {
      assert a[0] in a;
      assert (a + rest)[0] == a[0] != '/';
      assert (a + rest)[1..] == a[1..] + rest;
      SplitAfterPlainText(a[1..], rest);
      assert [a[0]] + (a[1..] + SplitTime(rest).0) == a + SplitTime(rest).0;
    }
  }

  /** Whenever the formatted timestamps contain no '/', the time field can be
      read back into exactly the start and the optional end. */
  lemma TimeFieldRoundTrip<T>(format: T -> string, start: T, end: Option<T>)
    requires '/' !in format(start)
    requires end.Some? ==> '/' !in format(end.value)
    ensures TimeField(format, Some(start), end).Success?
    ensures var parts := SplitTime(TimeField(format, Some(start), end).value);
      parts.0 == format(start) && parts.1 == (if end.Some? then Some(format(end.value)) else None)
  {
    if end.None? {
      SplitAfterPlainText(format(start), []);
      assert format(start) + [] == format(start);
    } else {
      var s, e := format(start), format(end.value);
      SplitAfterPlainText(s, "/" + e);
      assert ("/" + e)[0] == '/' && ("/" + e)[1..] == e;
      assert SplitTime("/" + e) == ([], Some(e));
      assert s + "/" + e == s + ("/" + e);
      assert s + [] == s;
    }
  }

  /** The search request body. `query` appears only when one is given; a
      missing query is omitted, never sent as null. */
  function SearchBody(collectionIds: seq<Json>, bbox: Json, time: string, limit: int, query: Json): (b: map<string, Json>)
    ensures b.Keys == {"collections", "bbox", "time", "limit"} + (if query != JNull then {"query"} else {})
    ensures b["collections"] == JArr(collectionIds) && b["bbox"] == bbox
    ensures b["time"] == JStr(time) && b["limit"] == JNum(limit)
    ensures ("query" in b) <==> query != JNull
    ensures query != JNull ==> b["query"] == query
  {
    var body := map["collections" := JArr(collectionIds), "bbox" := bbox, "time" := JStr(time), "limit" := JNum(limit)];
    if query != JNull then body["query" := query] else body
  }

  /** What a run of the engine did: its outcome, how many times it called
      `on_next_page`, the requests it sent and the pages it received, both in
      the order they happened. */
  datatype Paged<A> = Paged(result: Result<seq<Item<A>>, Error>, notices: nat, sent: seq<Request>, pages: seq<Json>)

  /** How many further pages `load_next_page` may still fetch. */
  function Budget(current: int, max: int): nat {
    if current > max then 0 else max - current + 1
  }

  /** One `load_next_page` fetch, by the link's method: GET sends no body, POST
      sends the link's body, and any other method leaves `search_result`
      unassigned, which raises before anything is sent. */
  function FetchLink(env: Env, authJson: Json, link: Link): (x: Exchange)
    ensures link.Method() == Success(JStr("GET")) && link.Href().Success? ==>
              x == Send(env, authJson, link.Href().value, JNull)
    ensures link.Method() == Success(JStr("POST")) && link.Href().Success? && link.Body().Success? ==>
              x == Send(env, authJson, link.Href().value, link.Body().value)
    ensures link.Method().Success? && link.Method().value != JStr("GET") && link.Method().value != JStr("POST") ==>
              x == Exchange(None, Failure(UnboundLocalError("search_result")))
    ensures link.Method().Failure? ==> x == Exchange(None, Failure(link.Method().error))
    ensures link.Method().Success? && link.Method().value in {JStr("GET"), JStr("POST")} && link.Href().Failure? ==>
              x == Exchange(None, Failure(link.Href().error))
    ensures x.response.Success? ==> x.sent.Some?
  {
    match link.Method()
    case Failure(e) => Exchange(None, Failure(e))
    case Success(verb) =>
      if verb == JStr("GET") then
        match link.Href()
        case Failure(e) => Exchange(None, Failure(e))
        case Success(href) => Send(env, authJson, href, JNull)
      else if verb == JStr("POST") then
        match link.Href()
        case Failure(e) => Exchange(None, Failure(e))
        case Success(href) =>
          match link.Body()
          case Failure(e) => Exchange(None, Failure(e))
          case Success(body) => Send(env, authJson, href, body)
      else Exchange(None, Failure(UnboundLocalError("search_result")))
  }

  function SentOf(x: Exchange): seq<Request> {
    if x.sent.Some? then [x.sent.value] else []
  }

  /** `deeper` then `mine`, the first failure winning (the recursion runs before
      the current page's items are read). */
  function Extend<T>(deeper: Result<seq<T>, Error>, mine: Result<seq<T>, Error>): Result<seq<T>, Error> {
    var d :- deeper;
    var m :- mine;
    Success(d + m)
  }

  /** `load_next_page(link, on_next_page, current, max)`. `notify` says whether
      an `on_next_page` callback was given. */
  function Follow<A>(env: Env, owner: A, authJson: Json, link: Link, notify: bool, current: int, max: int): (p: Paged<A>)
    ensures current > max ==> p == Paged(Success([]), 0, [], [])
    ensures |p.pages| <= |p.sent| <= Budget(current, max)
    ensures p.notices <= Budget(current, max)
    ensures !notify ==> p.notices == 0
    ensures notify ==> p.notices == |p.sent| || (p.notices == |p.sent| + 1 && p.result.Failure?)
    ensures p.result.Success? ==> |p.pages| == |p.sent|
    decreases Budget(current, max)
  {
    if current > max then Paged(Success([]), 0, [], [])
    else
      var n := if notify then 1 else 0;
      var x := FetchLink(env, authJson, link);
      match x.response
      case Failure(e) => Paged(Failure(e), n, SentOf(x), [])
      case Success(page) =>
        var here := SearchResult(owner, page);
        match here.NextLink()
        case Failure(e) => Paged(Failure(e), n, SentOf(x), [page])
        case Success(None) => Paged(here.Items(), n, SentOf(x), [page])
        case Success(Some(next)) =>
          var deeper := Follow(env, owner, authJson, next, notify, current + 1, max);
          Paged(Extend(deeper.result, here.Items()), n + deeper.notices,
                SentOf(x) + deeper.sent, [page] + deeper.pages)
  }

  // One step of `load_next_page` below the cap, one lemma per outcome.

  lemma FollowFetchFails<A>(env: Env, owner: A, authJson: Json, link: Link, notify: bool, current: int, max: int)
    requires current <= max && FetchLink(env, authJson, link).response.Failure?
    ensures var p := Follow(env, owner, authJson, link, notify, current, max);
      p.result == Failure(FetchLink(env, authJson, link).response.error) && p.notices == (if notify then 1 else 0)
      && p.sent == SentOf(FetchLink(env, authJson, link)) && p.pages == []
  {
  }

  lemma FollowNextFails<A>(env: Env, owner: A, authJson: Json, link: Link, notify: bool, current: int, max: int, page: Json)
    requires current <= max && FetchLink(env, authJson, link).response == Success(page)
    requires SearchResult(owner, page).NextLink().Failure?
    ensures var p := Follow(env, owner, authJson, link, notify, current, max);
      p.result == Failure(SearchResult(owner, page).NextLink().error) && p.notices == (if notify then 1 else 0)
      && p.sent == SentOf(FetchLink(env, authJson, link)) && p.pages == [page]
  {
  }

  lemma FollowLastPage<A>(env: Env, owner: A, authJson: Json, link: Link, notify: bool, current: int, max: int, page: Json)
    requires current <= max && FetchLink(env, authJson, link).response == Success(page)
    requires SearchResult(owner, page).NextLink() == Success(None)
    ensures var p := Follow(env, owner, authJson, link, notify, current, max);
      p.result == SearchResult(owner, page).Items() && p.notices == (if notify then 1 else 0)
      && p.sent == SentOf(FetchLink(env, authJson, link)) && p.pages == [page]
  {
  }

  lemma FollowNextPage<A>(env: Env, owner: A, authJson: Json, link: Link, notify: bool, current: int, max: int,
                          page: Json, next: Link)
    requires current <= max && FetchLink(env, authJson, link).response == Success(page)
    requires SearchResult(owner, page).NextLink() == Success(Some(next))
    ensures var p := Follow(env, owner, authJson, link, notify, current, max);
      var deeper := Follow(env, owner, authJson, next, notify, current + 1, max);
      p.result == Extend(deeper.result, SearchResult(owner, page).Items())
      && p.notices == (if notify then 1 else 0) + deeper.notices
      && p.sent == SentOf(FetchLink(env, authJson, link)) + deeper.sent && p.pages == [page] + deeper.pages
  {
  }

  /** The url `search_collection` posts to. */
  function SearchUrl(href: Json): Json {
    JStr(Display(href) + "/search")
  }

  /** `search_collection(...)`: build the time string, then search with it. */
  function Search<A, T>(env: Env, owner: A, authJson: Json, href: Json, collectionIds: seq<Json>, bbox: Json,
                        format: T -> string, start: Option<T>, end: Option<T>, query: Json,
                        notify: bool, limit: int): (p: Paged<A>)
    ensures |p.pages| <= |p.sent| <= 1 + Budget(FirstFollowPage, MaxPages)
    ensures p.notices <= Budget(FirstFollowPage, MaxPages)
    ensures !notify ==> p.notices == 0
    ensures notify && p.result.Success? ==> p.notices + 1 == |p.sent|
    ensures p.result.Success? ==> |p.pages| == |p.sent| >= 1
  {
    match TimeField(format, start, end)
    case Failure(e) => Paged(Failure(e), 0, [], [])
    case Success(time) => SearchWith(env, owner, authJson, href, collectionIds, bbox, time, query, notify, limit)
  }

  /** `search_collection` once the time string is known: post the body to
      `<href>/search`, take page 1's items, then follow its `next` link with
      the default page cap. Page 1 calls no `on_next_page`. */
  function SearchWith<A>(env: Env, owner: A, authJson: Json, href: Json, collectionIds: seq<Json>, bbox: Json,
                         time: string, query: Json, notify: bool, limit: int): (p: Paged<A>)
    ensures |p.pages| <= |p.sent| <= 1 + Budget(FirstFollowPage, MaxPages)
    ensures p.notices <= Budget(FirstFollowPage, MaxPages)
    ensures !notify ==> p.notices == 0
    ensures notify && p.result.Success? ==> p.notices + 1 == |p.sent|
    ensures p.result.Success? ==> |p.pages| == |p.sent| >= 1
  {
    var x := Send(env, authJson, SearchUrl(href), JObj(SearchBody(collectionIds, bbox, time, limit, query)));
    match x.response
    case Failure(e) => Paged(Failure(e), 0, SentOf(x), [])
    case Success(page) =>
      var first := SearchResult(owner, page);
      match first.Items()
      case Failure(e) => Paged(Failure(e), 0, SentOf(x), [page])
      case Success(items) =>
        match first.NextLink()
        case Failure(e) => Paged(Failure(e), 0, SentOf(x), [page])
        case Success(None) => Paged(Success(items), 0, SentOf(x), [page])
        case Success(Some(next)) =>
          var later := Follow(env, owner, authJson, next, notify, FirstFollowPage, MaxPages);
          Paged(Extend(Success(items), later.result), later.notices, SentOf(x) + later.sent, [page] + later.pages)
  }

  // One step of `search_collection` after the time string, one lemma per outcome.

  lemma SearchSendFails<A>(env: Env, owner: A, authJson: Json, href: Json, collectionIds: seq<Json>, bbox: Json,
                           time: string, query: Json, notify: bool, limit: int)
    requires Send(env, authJson, SearchUrl(href), JObj(SearchBody(collectionIds, bbox, time, limit, query))).response.Failure?
    ensures var p := SearchWith(env, owner, authJson, href, collectionIds, bbox, time, query, notify, limit);
      p.result == Failure(Send(env, authJson, SearchUrl(href), JObj(SearchBody(collectionIds, bbox, time, limit, query))).response.error)
      && p.notices == 0
      && p.sent == SentOf(Send(env, authJson, SearchUrl(href), JObj(SearchBody(collectionIds, bbox, time, limit, query))))
      && p.pages == []
  {
  }

  lemma SearchItemsFail<A>(env: Env, owner: A, authJson: Json, href: Json, collectionIds: seq<Json>, bbox: Json,
                           time: string, query: Json, notify: bool, limit: int, page: Json)
    requires Send(env, authJson, SearchUrl(href), JObj(SearchBody(collectionIds, bbox, time, limit, query))).response == Success(page)
    requires SearchResult(owner, page).Items().Failure?
    ensures var p := SearchWith(env, owner, authJson, href, collectionIds, bbox, time, query, notify, limit);
      p.result == Failure(SearchResult(owner, page).Items().error) && p.notices == 0
      && p.sent == SentOf(Send(env, authJson, SearchUrl(href), JObj(SearchBody(collectionIds, bbox, time, limit, query))))
      && p.pages == [page]
  {
  }

  lemma SearchNextFails<A>(env: Env, owner: A, authJson: Json, href: Json, collectionIds: seq<Json>, bbox: Json,
                           time: string, query: Json, notify: bool, limit: int, page: Json)
    requires Send(env, authJson, SearchUrl(href), JObj(SearchBody(collectionIds, bbox, time, limit, query))).response == Success(page)
    requires SearchResult(owner, page).Items().Success? && SearchResult(owner, page).NextLink().Failure?
    ensures var p := SearchWith(env, owner, authJson, href, collectionIds, bbox, time, query, notify, limit);
      p.result == Failure(SearchResult(owner, page).NextLink().error) && p.notices == 0
      && p.sent == SentOf(Send(env, authJson, SearchUrl(href), JObj(SearchBody(collectionIds, bbox, time, limit, query))))
      && p.pages == [page]
  {
  }

  lemma SearchLastPage<A>(env: Env, owner: A, authJson: Json, href: Json, collectionIds: seq<Json>, bbox: Json,
                          time: string, query: Json, notify: bool, limit: int, page: Json)
    requires Send(env, authJson, SearchUrl(href), JObj(SearchBody(collectionIds, bbox, time, limit, query))).response == Success(page)
    requires SearchResult(owner, page).Items().Success? && SearchResult(owner, page).NextLink() == Success(None)
    ensures var p := SearchWith(env, owner, authJson, href, collectionIds, bbox, time, query, notify, limit);
      p.result == SearchResult(owner, page).Items() && p.notices == 0
      && p.sent == SentOf(Send(env, authJson, SearchUrl(href), JObj(SearchBody(collectionIds, bbox, time, limit, query))))
      && p.pages == [page]
  {
  }

  lemma SearchNextPage<A>(env: Env, owner: A, authJson: Json, href: Json, collectionIds: seq<Json>, bbox: Json,
                          time: string, query: Json, notify: bool, limit: int, page: Json, next: Link)
    requires Send(env, authJson, SearchUrl(href), JObj(SearchBody(collectionIds, bbox, time, limit, query))).response == Success(page)
    requires SearchResult(owner, page).Items().Success? && SearchResult(owner, page).NextLink() == Success(Some(next))
    ensures var p := SearchWith(env, owner, authJson, href, collectionIds, bbox, time, query, notify, limit);
      var later := Follow(env, owner, authJson, next, notify, FirstFollowPage, MaxPages);
      p.result == Extend(SearchResult(owner, page).Items(), later.result) && p.notices == later.notices
      && p.sent == SentOf(Send(env, authJson, SearchUrl(href), JObj(SearchBody(collectionIds, bbox, time, limit, query)))) + later.sent
      && p.pages == [page] + later.pages
  {
  }

  // ----- Requests and pages -----

  /** The link a page's `next` reads as, when it reads as one. */
  function NextOf<A>(owner: A, page: Json): Option<Link> {
    match SearchResult(owner, page).NextLink()
    case Success(Some(l)) => Some(l)
    case _ => None
  }

  /** The requests and pages of a run form a chain: each page is the server's
      answer to the request at its position, every request after the first
      follows the `next` link of the page before it, and at most the last
      request went unanswered. */
  ghost predicate Chained<A>(env: Env, authJson: Json, owner: A, sent: seq<Request>, pages: seq<Json>) {
    && |pages| <= |sent| <= |pages| + 1
    && (forall i | 0 <= i < |pages| :: env.server(sent[i]) == Success(pages[i]))
    && (forall i | 0 < i < |sent| :: Leads(env, authJson, owner, pages[i - 1], sent[i]))
  }

  /** `req` is the request that following `page`'s `next` link sends. */
  ghost predicate Leads<A>(env: Env, authJson: Json, owner: A, page: Json, req: Request) {
    NextOf(owner, page).Some? && FetchLink(env, authJson, NextOf(owner, page).value).sent == Some(req)
  }

  lemma LeadsVia<A>(env: Env, authJson: Json, owner: A, page: Json, next: Link)
    requires SearchResult(owner, page).NextLink() == Success(Some(next))
    ensures FetchLink(env, authJson, next).sent.Some? ==> Leads(env, authJson, owner, page, FetchLink(env, authJson, next).sent.value)
  {
  }

  /** A chain behind one more answered request whose page links to its head. */
  lemma ChainCons<A>(env: Env, authJson: Json, owner: A, req: Request, page: Json, sent: seq<Request>, pages: seq<Json>)
    requires env.server(req) == Success(page)
    requires Chained(env, authJson, owner, sent, pages)
    requires |sent| > 0 ==> Leads(env, authJson, owner, page, sent[0])
    ensures Chained(env, authJson, owner, [req] + sent, [page] + pages)
  {
    var s, q := [req] + sent, [page] + pages;
    forall i | 0 < i < |s|
      ensures Leads(env, authJson, owner, q[i - 1], s[i])
    {
      if i > 1 {
        assert s[i] == sent[i - 1] && q[i - 1] == pages[i - 2];
      }
    }
  }

  /** `load_next_page` sends its first request to `link`, and what it sends
      and receives after that is a chain. Nothing is sent past the cap or
      when the first request cannot be built. */
  lemma {:induction false} FollowTrace<A>(env: Env, owner: A, authJson: Json, link: Link, notify: bool, current: int, max: int)
    ensures var p := Follow(env, owner, authJson, link, notify, current, max);
      && Chained(env, authJson, owner, p.sent, p.pages)
      && (p.sent == [] <==> current > max || FetchLink(env, authJson, link).sent.None?)
      && (p.sent != [] ==> FetchLink(env, authJson, link).sent == Some(p.sent[0]))
    decreases Budget(current, max)
  {
    if current <= max {
      var x := FetchLink(env, authJson, link);
      match x.response
      case Failure(_) =>
        FollowFetchFails(env, owner, authJson, link, notify, current, max);
      case Success(page) =>
        assert [x.sent.value] + [] == [x.sent.value] && [page] + [] == [page];
        match SearchResult(owner, page).NextLink()
        case Failure(_) =>
          FollowNextFails(env, owner, authJson, link, notify, current, max, page);
          ChainCons(env, authJson, owner, x.sent.value, page, [], []);
        case Success(None) =>
          FollowLastPage(env, owner, authJson, link, notify, current, max, page);
          ChainCons(env, authJson, owner, x.sent.value, page, [], []);
        case Success(Some(next)) =>
          FollowNextPage(env, owner, authJson, link, notify, current, max, page, next);
          FollowTrace(env, owner, authJson, next, notify, current + 1, max);
          LeadsVia(env, authJson, owner, page, next);
          var deeper := Follow(env, owner, authJson, next, notify, current + 1, max);
          ChainCons(env, authJson, owner, x.sent.value, page, deeper.sent, deeper.pages);
    }
  }

  /** `search_collection` first posts the search body to `<href>/search`,
      and what it sends and receives is a chain. Nothing is sent when the
      time string or the first request cannot be built. */
  lemma SearchTrace<A, T>(env: Env, owner: A, authJson: Json, href: Json, collectionIds: seq<Json>, bbox: Json,
                          format: T -> string, start: Option<T>, end: Option<T>, query: Json,
                          notify: bool, limit: int)
    ensures var p := Search(env, owner, authJson, href, collectionIds, bbox, format, start, end, query, notify, limit);
      && Chained(env, authJson, owner, p.sent, p.pages)
      && (TimeField(format, start, end).Failure? ==> p.sent == [])
      && (TimeField(format, start, end).Success? ==>
            var first := Prepare(env, authJson, SearchUrl(href),
                                 JObj(SearchBody(collectionIds, bbox, TimeField(format, start, end).value, limit, query)));
            && (p.sent == [] <==> first.Failure?)
            && (p.sent != [] ==> p.sent[0] == first.value))
  {
    if TimeField(format, start, end).Success? {
      SearchWithTrace(env, owner, authJson, href, collectionIds, bbox, TimeField(format, start, end).value, query, notify, limit);
    }
  }

  lemma SearchWithTrace<A>(env: Env, owner: A, authJson: Json, href: Json, collectionIds: seq<Json>, bbox: Json,
                           time: string, query: Json, notify: bool, limit: int)
    ensures var p := SearchWith(env, owner, authJson, href, collectionIds, bbox, time, query, notify, limit);
      var first := Prepare(env, authJson, SearchUrl(href), JObj(SearchBody(collectionIds, bbox, time, limit, query)));
      && Chained(env, authJson, owner, p.sent, p.pages)
      && (p.sent == [] <==> first.Failure?)
      && (p.sent != [] ==> p.sent[0] == first.value)
  {
    var x := Send(env, authJson, SearchUrl(href), JObj(SearchBody(collectionIds, bbox, time, limit, query)));
    match x.response
    case Failure(_) =>
      SearchSendFails(env, owner, authJson, href, collectionIds, bbox, time, query, notify, limit);
    case Success(page) =>
      assert [x.sent.value] + [] == [x.sent.value] && [page] + [] == [page];
      var first := SearchResult(owner, page);
      if first.Items().Failure? {
        SearchItemsFail(env, owner, authJson, href, collectionIds, bbox, time, query, notify, limit, page);
        ChainCons(env, authJson, owner, x.sent.value, page, [], []);
      } else {
        match first.NextLink()
        case Failure(_) =>
          SearchNextFails(env, owner, authJson, href, collectionIds, bbox, time, query, notify, limit, page);
          ChainCons(env, authJson, owner, x.sent.value, page, [], []);
        case Success(None) =>
          SearchLastPage(env, owner, authJson, href, collectionIds, bbox, time, query, notify, limit, page);
          ChainCons(env, authJson, owner, x.sent.value, page, [], []);
        case Success(Some(next)) =>
          SearchNextPage(env, owner, authJson, href, collectionIds, bbox, time, query, notify, limit, page, next);
          FollowTrace(env, owner, authJson, next, notify, FirstFollowPage, MaxPages);
          LeadsVia(env, authJson, owner, page, next);
          var later := Follow(env, owner, authJson, next, notify, FirstFollowPage, MaxPages);
          ChainCons(env, authJson, owner, x.sent.value, page, later.sent, later.pages);
      }
  }

  /** The last of `pages` has no `next` link, or `pages` used up `budget`. */
  ghost predicate EndsAtEndOrCap<A>(owner: A, pages: seq<Json>, budget: nat) {
    pages != [] && (|pages| == budget || NextOf(owner, pages[|pages| - 1]).None?)
  }

  /** A successful `load_next_page` below the cap stops only at a page
      without a `next` link or when the cap is used up. */
  lemma {:induction false} FollowStopsAtEndOrCap<A>(env: Env, owner: A, authJson: Json, link: Link, notify: bool,
                                                    current: int, max: int)
    ensures var p := Follow(env, owner, authJson, link, notify, current, max);
      p.result.Success? && current <= max ==> EndsAtEndOrCap(owner, p.pages, Budget(current, max))
    decreases Budget(current, max)
  {
    var p := Follow(env, owner, authJson, link, notify, current, max);
    if current <= max && p.result.Success? {
      var page := FetchLink(env, authJson, link).response.value;
      match SearchResult(owner, page).NextLink().value
      case None =>
        FollowLastPage(env, owner, authJson, link, notify, current, max, page);
        LastOfOne(owner, page, Budget(current, max));
      case Some(next) =>
        FollowNextPage(env, owner, authJson, link, notify, current, max, page, next);
        FollowStopsAtEndOrCap(env, owner, authJson, next, notify, current + 1, max);
        var deeper := Follow(env, owner, authJson, next, notify, current + 1, max);
        ExtendSucceeds(deeper.result, SearchResult(owner, page).Items());
        EndsAfterPrepend(owner, page, deeper.pages, Budget(current, max));
    }
  }

  /** An extension succeeds exactly when both parts do. */
  lemma ExtendSucceeds<T>(deeper: Result<seq<T>, Error>, mine: Result<seq<T>, Error>)
    ensures Extend(deeper, mine).Success? <==> deeper.Success? && mine.Success?
  {
  }

  lemma LastOfOne<A>(owner: A, page: Json, budget: nat)
    requires NextOf(owner, page).None?
    ensures EndsAtEndOrCap(owner, [page], budget)
  {
  }

  lemma EndsAfterPrepend<A>(owner: A, page: Json, pages: seq<Json>, budget: nat)
    requires pages == [] ==> budget == 1
    requires pages != [] ==> budget >= 1 && EndsAtEndOrCap(owner, pages, budget - 1)
    ensures EndsAtEndOrCap(owner, [page] + pages, budget)
  {
    if pages != [] {
      assert ([page] + pages)[|pages|] == pages[|pages| - 1];
    }
  }

  /** A successful search stops only at a page without a `next` link or when
      the follow-up cap is used up. */
  lemma SearchWithStopsAtEndOrCap<A>(env: Env, owner: A, authJson: Json, href: Json, collectionIds: seq<Json>, bbox: Json,
                                     time: string, query: Json, notify: bool, limit: int)
    ensures var p := SearchWith(env, owner, authJson, href, collectionIds, bbox, time, query, notify, limit);
      p.result.Success? ==> EndsAtEndOrCap(owner, p.pages, 1 + Budget(FirstFollowPage, MaxPages))
  {
    var p := SearchWith(env, owner, authJson, href, collectionIds, bbox, time, query, notify, limit);
    if p.result.Success? {
      var page := Send(env, authJson, SearchUrl(href), JObj(SearchBody(collectionIds, bbox, time, limit, query))).response.value;
      match SearchResult(owner, page).NextLink().value
      case None =>
        SearchLastPage(env, owner, authJson, href, collectionIds, bbox, time, query, notify, limit, page);
        LastOfOne(owner, page, 1 + Budget(FirstFollowPage, MaxPages));
      case Some(next) =>
        SearchNextPage(env, owner, authJson, href, collectionIds, bbox, time, query, notify, limit, page, next);
        FollowStopsAtEndOrCap(env, owner, authJson, next, notify, FirstFollowPage, MaxPages);
        var later := Follow(env, owner, authJson, next, notify, FirstFollowPage, MaxPages);
        ExtendSucceeds(SearchResult(owner, page).Items(), later.result);
        EndsAfterPrepend(owner, page, later.pages, 1 + Budget(FirstFollowPage, MaxPages));
    }
  }

  lemma SearchStopsAtEndOrCap<A, T>(env: Env, owner: A, authJson: Json, href: Json, collectionIds: seq<Json>, bbox: Json,
                                    format: T -> string, start: Option<T>, end: Option<T>, query: Json,
                                    notify: bool, limit: int)
    ensures var p := Search(env, owner, authJson, href, collectionIds, bbox, format, start, end, query, notify, limit);
      p.result.Success? ==> EndsAtEndOrCap(owner, p.pages, 1 + Budget(FirstFollowPage, MaxPages))
  {
    if TimeField(format, start, end).Success? {
      SearchWithStopsAtEndOrCap(env, owner, authJson, href, collectionIds, bbox, TimeField(format, start, end).value,
                                query, notify, limit);
    }
  }

  // ----- When a run succeeds -----

  /** Both things a run reads off `page` succeed: its items and its `next` link. */
  ghost predicate Reads<A>(owner: A, page: Json) {
    SearchResult(owner, page).Items().Success? && SearchResult(owner, page).NextLink().Success?
  }

  /** The shape of a successful run: every request was answered, every page
      read, and the chain stopped at a page without a `next` link or at `budget`. */
  ghost predicate Complete<A>(owner: A, sent: seq<Request>, pages: seq<Json>, budget: nat) {
    && |pages| == |sent|
    && EndsAtEndOrCap(owner, pages, budget)
    && (forall i | 0 <= i < |pages| :: Reads(owner, pages[i]))
  }

  lemma CompleteOne<A>(owner: A, req: Request, page: Json, budget: nat)
    ensures Complete(owner, [req], [page], budget) <==> Reads(owner, page) && (budget == 1 || NextOf(owner, page).None?)
  {
    assert [page][0] == page;
  }

  /** A run that starts with a page having a `next` link is complete exactly
      when that page reads and the rest is complete within one page less. */
  lemma CompletePrepend<A>(owner: A, req: Request, page: Json, sent: seq<Request>, pages: seq<Json>, budget: nat)
    requires NextOf(owner, page).Some? && budget >= 2
    ensures Complete(owner, [req] + sent, [page] + pages, budget)
        <==> Reads(owner, page) && Complete(owner, sent, pages, budget - 1)
  {
    ReadsPrepend(owner, page, pages);
    EndsPrepend(owner, page, pages, budget);
  }

  lemma ReadsPrepend<A>(owner: A, page: Json, pages: seq<Json>)
    ensures (forall i | 0 <= i < |[page] + pages| :: Reads(owner, ([page] + pages)[i]))
        <==> Reads(owner, page) && (forall i | 0 <= i < |pages| :: Reads(owner, pages[i]))
  {
    var all := [page] + pages;
    assert all[0] == page;
    assert forall i | 0 <= i < |pages| :: all[i + 1] == pages[i];
  }

  lemma EndsPrepend<A>(owner: A, page: Json, pages: seq<Json>, budget: nat)
    requires NextOf(owner, page).Some? && budget >= 2
    ensures EndsAtEndOrCap(owner, [page] + pages, budget) <==> EndsAtEndOrCap(owner, pages, budget - 1)
  {
    if pages != [] {
      assert ([page] + pages)[|pages|] == pages[|pages| - 1];
    }
  }

  /** A run whose first page has a `next` link and whose result succeeds
      exactly when that page's items and the rest of the run do. */
  lemma PrependSucceeds<A>(owner: A, p: Paged<A>, rest: Paged<A>, req: Request, page: Json, budget: nat)
    requires NextOf(owner, page).Some? && budget >= 1
    requires p.result.Success? <==> rest.result.Success? && SearchResult(owner, page).Items().Success?
    requires p.sent == [req] + rest.sent && p.pages == [page] + rest.pages
    requires rest.result.Success? <==> Complete(owner, rest.sent, rest.pages, budget)
    ensures p.result.Success? <==> Complete(owner, p.sent, p.pages, budget + 1)
  {
    CompletePrepend(owner, req, page, rest.sent, rest.pages, budget + 1);
  }

  /** `load_next_page` below the cap returns its items exactly when every
      request got a page, every page yields its items and its `next` link, and
      the chain stops at a page without a `next` link or when the cap is used up. */
  lemma {:induction false} FollowSucceeds<A>(env: Env, owner: A, authJson: Json, link: Link, notify: bool,
                                             current: int, max: int)
    requires current <= max
    ensures var p := Follow(env, owner, authJson, link, notify, current, max);
      p.result.Success? <==> Complete(owner, p.sent, p.pages, Budget(current, max))
    decreases Budget(current, max), 1
  {
    var x := FetchLink(env, authJson, link);
    match x.response
    case Failure(_) =>
      FollowFetchFails(env, owner, authJson, link, notify, current, max);
    case Success(page) =>
      var req := x.sent.value;
      match SearchResult(owner, page).NextLink()
      case Failure(_) =>
        FollowNextFails(env, owner, authJson, link, notify, current, max, page);
        CompleteOne(owner, req, page, Budget(current, max));
      case Success(None) =>
        FollowLastPage(env, owner, authJson, link, notify, current, max, page);
        CompleteOne(owner, req, page, Budget(current, max));
      case Success(Some(next)) =>
        if current == max {
          FollowSucceedsAtCap(env, owner, authJson, link, notify, max, page, next);
        } else {
          FollowSucceedsOnNext(env, owner, authJson, link, notify, current, max, page, next);
        }
  }

  /** The case of `FollowSucceeds` where the page has a `next` link but the
      cap is reached: the run stops after this page. */
  lemma FollowSucceedsAtCap<A>(env: Env, owner: A, authJson: Json, link: Link, notify: bool, max: int,
                               page: Json, next: Link)
    requires FetchLink(env, authJson, link).response == Success(page)
    requires SearchResult(owner, page).NextLink() == Success(Some(next))
    ensures var p := Follow(env, owner, authJson, link, notify, max, max);
      p.result.Success? <==> Complete(owner, p.sent, p.pages, Budget(max, max))
  {
    var req := FetchLink(env, authJson, link).sent.value;
    FollowNextPage(env, owner, authJson, link, notify, max, max, page, next);
    var deeper := Follow(env, owner, authJson, next, notify, max + 1, max);
    ExtendSucceeds(deeper.result, SearchResult(owner, page).Items());
    assert [req] + deeper.sent == [req] && [page] + deeper.pages == [page];
    CompleteOne(owner, req, page, 1);
  }

  /** The case of `FollowSucceeds` where the page has a `next` link below the
      cap: the rest of the run is the recursive call's. */
  lemma {:induction false} FollowSucceedsOnNext<A>(env: Env, owner: A, authJson: Json, link: Link, notify: bool,
                                                   current: int, max: int, page: Json, next: Link)
    requires current < max && FetchLink(env, authJson, link).response == Success(page)
    requires SearchResult(owner, page).NextLink() == Success(Some(next))
    ensures var p := Follow(env, owner, authJson, link, notify, current, max);
      p.result.Success? <==> Complete(owner, p.sent, p.pages, Budget(current, max))
    decreases Budget(current, max), 0
  {
    var req := FetchLink(env, authJson, link).sent.value;
    FollowNextPage(env, owner, authJson, link, notify, current, max, page, next);
    var p := Follow(env, owner, authJson, link, notify, current, max);
    var deeper := Follow(env, owner, authJson, next, notify, current + 1, max);
    ExtendSucceeds(deeper.result, SearchResult(owner, page).Items());
    FollowSucceeds(env, owner, authJson, next, notify, current + 1, max);
    assert SentOf(FetchLink(env, authJson, link)) == [req] && Budget(current, max) == Budget(current + 1, max) + 1;
    PrependSucceeds(owner, p, deeper, req, page, Budget(current + 1, max));
  }

  /** `search_collection` after the time string returns its items exactly
      when its run is complete within one request plus the follow-up cap. */
  lemma SearchWithSucceeds<A>(env: Env, owner: A, authJson: Json, href: Json, collectionIds: seq<Json>, bbox: Json,
                              time: string, query: Json, notify: bool, limit: int)
    ensures var p := SearchWith(env, owner, authJson, href, collectionIds, bbox, time, query, notify, limit);
      p.result.Success? <==> Complete(owner, p.sent, p.pages, 1 + Budget(FirstFollowPage, MaxPages))
  {
    var x := Send(env, authJson, SearchUrl(href), JObj(SearchBody(collectionIds, bbox, time, limit, query)));
    match x.response
    case Failure(_) =>
      SearchSendFails(env, owner, authJson, href, collectionIds, bbox, time, query, notify, limit);
    case Success(page) =>
      var req := x.sent.value;
      var first := SearchResult(owner, page);
      if first.Items().Failure? {
        SearchItemsFail(env, owner, authJson, href, collectionIds, bbox, time, query, notify, limit, page);
        CompleteOne(owner, req, page, 1 + Budget(FirstFollowPage, MaxPages));
      } else {
        match first.NextLink()
        case Failure(_) =>
          SearchNextFails(env, owner, authJson, href, collectionIds, bbox, time, query, notify, limit, page);
          CompleteOne(owner, req, page, 1 + Budget(FirstFollowPage, MaxPages));
        case Success(None) =>
          SearchLastPage(env, owner, authJson, href, collectionIds, bbox, time, query, notify, limit, page);
          CompleteOne(owner, req, page, 1 + Budget(FirstFollowPage, MaxPages));
        case Success(Some(next)) =>
          SearchWithSucceedsOnNext(env, owner, authJson, href, collectionIds, bbox, time, query, notify, limit,
                                   page, next);
      }
  }

  /** The case of `SearchWithSucceeds` where the first page has a `next` link. */
  lemma SearchWithSucceedsOnNext<A>(env: Env, owner: A, authJson: Json, href: Json, collectionIds: seq<Json>,
                                    bbox: Json, time: string, query: Json, notify: bool, limit: int,
                                    page: Json, next: Link)
    requires Send(env, authJson, SearchUrl(href), JObj(SearchBody(collectionIds, bbox, time, limit, query))).response == Success(page)
    requires SearchResult(owner, page).Items().Success? && SearchResult(owner, page).NextLink() == Success(Some(next))
    ensures var p := SearchWith(env, owner, authJson, href, collectionIds, bbox, time, query, notify, limit);
      p.result.Success? <==> Complete(owner, p.sent, p.pages, 1 + Budget(FirstFollowPage, MaxPages))
  {
    var x := Send(env, authJson, SearchUrl(href), JObj(SearchBody(collectionIds, bbox, time, limit, query)));
    SearchNextPage(env, owner, authJson, href, collectionIds, bbox, time, query, notify, limit, page, next);
    FollowSucceeds(env, owner, authJson, next, notify, FirstFollowPage, MaxPages);
    var p := SearchWith(env, owner, authJson, href, collectionIds, bbox, time, query, notify, limit);
    var later := Follow(env, owner, authJson, next, notify, FirstFollowPage, MaxPages);
    ExtendSucceeds(SearchResult(owner, page).Items(), later.result);
    assert SentOf(x) == [x.sent.value];
    PrependSucceeds(owner, p, later, x.sent.value, page, Budget(FirstFollowPage, MaxPages));
  }

  /** `search_collection` returns its items exactly when the time string
      formats and the run it then makes is complete. */
  lemma SearchSucceeds<A, T>(env: Env, owner: A, authJson: Json, href: Json, collectionIds: seq<Json>, bbox: Json,
                             format: T -> string, start: Option<T>, end: Option<T>, query: Json,
                             notify: bool, limit: int)
    ensures var p := Search(env, owner, authJson, href, collectionIds, bbox, format, start, end, query, notify, limit);
      p.result.Success? <==> TimeField(format, start, end).Success?
                             && Complete(owner, p.sent, p.pages, 1 + Budget(FirstFollowPage, MaxPages))
  {
    if TimeField(format, start, end).Success? {
      SearchWithSucceeds(env, owner, authJson, href, collectionIds, bbox, TimeField(format, start, end).value,
                         query, notify, limit);
    }
  }

  // ----- Result order -----

  function Concat<T>(chunks: seq<seq<T>>): seq<T> {
    if chunks == [] then [] else chunks[0] + Concat(chunks[1..])
  }

  function Reversed<T>(s: seq<T>): (r: seq<T>)
    ensures |r| == |s|
  {
    if s == [] then [] else Reversed(s[1..]) + [s[0]]
  }

  lemma {:induction false} ConcatSnoc<T>(chunks: seq<seq<T>>, last: seq<T>)
    ensures Concat(chunks + [last]) == Concat(chunks) + last
  {
    if chunks != [] {
      assert (chunks + [last])[1..] == chunks[1..] + [last];
      ConcatSnoc(chunks[1..], last);
    } else {
      assert [] + [last] == [last];
    }
  }

  /** The items of each page, in the order the pages were received. */
  function PagesItems<A>(owner: A, pages: seq<Json>): (r: Result<seq<seq<Item<A>>>, Error>)
    ensures r.Success? ==> |r.value| == |pages|
  {
    if pages == [] then Success([])
    else
      var mine :- SearchResult(owner, pages[0]).Items();
      var rest :- PagesItems(owner, pages[1..]);
      Success([mine] + rest)
  }

  /** `load_next_page` returns the pages it received in reverse: the deepest
      page's items first, the page it fetched itself last. */
  lemma {:induction false} FollowOrder<A>(env: Env, owner: A, authJson: Json, link: Link, notify: bool, current: int, max: int)
    ensures var p := Follow(env, owner, authJson, link, notify, current, max);
      p.result.Success? ==>
        && PagesItems(owner, p.pages).Success?
        && p.result.value == Concat(Reversed(PagesItems(owner, p.pages).value))
    decreases Budget(current, max)
  {
    var p := Follow(env, owner, authJson, link, notify, current, max);
    if current <= max && p.result.Success? {
      var page := FetchLink(env, authJson, link).response.value;
      var here := SearchResult(owner, page);
      match here.NextLink().value
      case None =>
        FollowLastPage(env, owner, authJson, link, notify, current, max, page);
        OnePageOrder(owner, page);
      case Some(next) =>
        FollowNextPage(env, owner, authJson, link, notify, current, max, page, next);
        FollowOrder(env, owner, authJson, next, notify, current + 1, max);
        var deeper := Follow(env, owner, authJson, next, notify, current + 1, max);
        PrependPageOrder(owner, page, deeper.pages, deeper.result.value);
    }
  }

  /** The items of a single page, as the only chunk. */
  lemma OnePageOrder<A>(owner: A, page: Json)
    requires SearchResult(owner, page).Items().Success?
    ensures PagesItems(owner, [page]) == Success([SearchResult(owner, page).Items().value])
    ensures Concat(Reversed([SearchResult(owner, page).Items().value])) == SearchResult(owner, page).Items().value
  {
    var mine := SearchResult(owner, page).Items().value;
    assert [page][0] == page && [page][1..] == [];
    assert PagesItems(owner, [page][1..]) == Success([]);
    assert [mine] + [] == [mine];
    assert [mine][1..] == [];
    assert Reversed([mine]) == [mine];
    assert Concat([mine]) == mine + Concat([]);
  }

  /** A page received before `pages` puts its items after theirs once the
      chunks are reversed. */
  lemma PrependPageOrder<A>(owner: A, page: Json, pages: seq<Json>, deeper: seq<Item<A>>)
    requires SearchResult(owner, page).Items().Success?
    requires PagesItems(owner, pages).Success?
    requires deeper == Concat(Reversed(PagesItems(owner, pages).value))
    ensures PagesItems(owner, [page] + pages).Success?
    ensures deeper + SearchResult(owner, page).Items().value == Concat(Reversed(PagesItems(owner, [page] + pages).value))
  {
    var mine := SearchResult(owner, page).Items().value;
    var rest := PagesItems(owner, pages).value;
    assert ([page] + pages)[0] == page && ([page] + pages)[1..] == pages;
    assert PagesItems(owner, [page] + pages).value == [mine] + rest;
    assert ([mine] + rest)[1..] == rest;
    assert Reversed([mine] + rest) == Reversed(rest) + [mine];
    ConcatSnoc(Reversed(rest), mine);
  }

  /** `search_collection` returns page 1's items first, then the later pages
      in reverse order of fetching. */
  lemma SearchOrder<A, T>(env: Env, owner: A, authJson: Json, href: Json, collectionIds: seq<Json>, bbox: Json,
                          format: T -> string, start: Option<T>, end: Option<T>, query: Json,
                          notify: bool, limit: int)
    ensures var p := Search(env, owner, authJson, href, collectionIds, bbox, format, start, end, query, notify, limit);
      p.result.Success? ==>
        && PagesItems(owner, p.pages).Success?
        && var chunks := PagesItems(owner, p.pages).value;
           p.result.value == chunks[0] + Concat(Reversed(chunks[1..]))
  {
    if TimeField(format, start, end).Success? {
      SearchWithOrder(env, owner, authJson, href, collectionIds, bbox, TimeField(format, start, end).value, query, notify, limit);
    }
  }

  lemma SearchWithOrder<A>(env: Env, owner: A, authJson: Json, href: Json, collectionIds: seq<Json>, bbox: Json,
                           time: string, query: Json, notify: bool, limit: int)
    ensures var p := SearchWith(env, owner, authJson, href, collectionIds, bbox, time, query, notify, limit);
      p.result.Success? ==>
        && PagesItems(owner, p.pages).Success?
        && var chunks := PagesItems(owner, p.pages).value;
           p.result.value == chunks[0] + Concat(Reversed(chunks[1..]))
  {
    var p := SearchWith(env, owner, authJson, href, collectionIds, bbox, time, query, notify, limit);
    if p.result.Success? {
      var page := Send(env, authJson, SearchUrl(href), JObj(SearchBody(collectionIds, bbox, time, limit, query))).response.value;
      var first := SearchResult(owner, page);
      var items := first.Items().value;
      assert [page][1..] == [];
      match first.NextLink().value
      case None =>
        assert p.pages == [page];
        assert PagesItems(owner, [page][1..]) == Success([]);
        assert PagesItems(owner, p.pages) == Success([items] + []);
      case Some(next) =>
        var later := Follow(env, owner, authJson, next, notify, FirstFollowPage, MaxPages);
        FollowOrder(env, owner, authJson, next, notify, FirstFollowPage, MaxPages);
        assert ([page] + later.pages)[1..] == later.pages;
        assert PagesItems(owner, p.pages).value == [items] + PagesItems(owner, later.pages).value;
    }
  }

  // ----- The page cap -----

  function Repeat<T>(s: seq<T>, n: nat): seq<T> {
    if n == 0 then [] else Repeat(s, n - 1) + s
  }

  /** A server whose page links back to itself forever: `load_next_page`
      fetches exactly the pages the cap allows, notifies once per fetch, and
      returns that page's items once per fetch. */
  lemma {:induction false} EndlessChainStopsAtCap<A>(env: Env, owner: A, authJson: Json, link: Link, notify: bool,
                                                    current: int, max: int, page: Json, items: seq<Item<A>>)
    requires FetchLink(env, authJson, link).response == Success(page)
    requires SearchResult(owner, page).NextLink() == Success(Some(link))
    requires SearchResult(owner, page).Items() == Success(items)
    ensures var p := Follow(env, owner, authJson, link, notify, current, max);
      && p.result == Success(Repeat(items, Budget(current, max)))
      && |p.sent| == |p.pages| == Budget(current, max)
      && p.notices == (if notify then Budget(current, max) else 0)
    decreases Budget(current, max)
  {
    if current <= max {
      FollowNextPage(env, owner, authJson, link, notify, current, max, page, link);
      EndlessChainStopsAtCap(env, owner, authJson, link, notify, current + 1, max, page, items);
      assert Budget(current, max) == Budget(current + 1, max) + 1;
    }
  }

  /** The same server behind `search_collection` with the default cap: one
      search request and nine follow-up fetches, ten in all. */
  lemma EndlessSearchSendsTenRequests<A, T>(env: Env, owner: A, authJson: Json, href: Json, format: T -> string,
                                          start: T, notify: bool, page: Json, link: Link, url: string,
                                          items: seq<Item<A>>)
    requires forall req :: env.server(req) == Success(page)
    requires AuthOf(authJson).Success?
    requires link.Method() == Success(JStr("GET")) && link.Href() == Success(JStr(url))
    requires SearchResult(owner, page).NextLink() == Success(Some(link))
    requires SearchResult(owner, page).Items() == Success(items)
    ensures var p := Search(env, owner, authJson, href, [], JArr([]), format, Some(start), None, JNull, notify, DefaultLimit);
      && |p.sent| == 10
      && p.notices == (if notify then 9 else 0)
      && p.result == Success(items + Repeat(items, 9))
  {
    var x := FetchLink(env, authJson, link);
    assert x.sent.Some? && x.response == env.server(x.sent.value);
    EndlessChainStopsAtCap(env, owner, authJson, link, notify, FirstFollowPage, MaxPages, page, items);
  }

  // ----- A two-page search -----

  const NextPageUrl: string := "https://example.com/search?page=2"

  /** The `next` link of the first page: a GET of `NextPageUrl`. */
  function NextPageLink(): Link {
    Link(JObj(map["rel" := JStr("next"), "method" := JStr("GET"), "href" := JStr(NextPageUrl)]))
  }

  /** A first page with two features and a GET `next` link. */
  function FirstPage(f1: Json, f2: Json): Json {
    JObj(map["type" := JStr("FeatureCollection"),
             "features" := JArr([f1, f2]),
             "links" := JArr([NextPageLink().json])])
  }

  /** A last page with one feature and no links. */
  function LastPage(f3: Json): Json {
    JObj(map["features" := JArr([f3])])
  }

  lemma FirstPageReads<A>(owner: A, f1: Json, f2: Json)
    ensures SearchResult(owner, FirstPage(f1, f2)).NextLink() == Success(Some(NextPageLink()))
    ensures SearchResult(owner, FirstPage(f1, f2)).Items() == Success([Item(owner, f1), Item(owner, f2)])
  {
    var first := SearchResult(owner, FirstPage(f1, f2));
    assert first.json.fields["links"].elems == [NextPageLink().json];
    var links := first.Links().value;
    assert |links| == 1 && links[0] == NextPageLink();
    assert links == [NextPageLink()];
    assert first.json.fields["features"].elems == [f1, f2];
    var items := first.Items().value;
    assert |items| == 2 && items[0] == Item(owner, f1) && items[1] == Item(owner, f2);
    assert items == [Item(owner, f1), Item(owner, f2)];
  }

  lemma LastPageReads<A>(owner: A, f3: Json)
    ensures SearchResult(owner, LastPage(f3)).NextLink() == Success(None)
    ensures SearchResult(owner, LastPage(f3)).Items() == Success([Item(owner, f3)])
  {
    var last := SearchResult(owner, LastPage(f3));
    assert last.Links() == Success([]);
    assert last.json.fields["features"].elems == [f3];
    var items := last.Items().value;
    assert |items| == 1 && items[0] == Item(owner, f3);
    assert items == [Item(owner, f3)];
  }

  /** Without auth, following `NextPageLink` is a plain GET of `NextPageUrl`. */
  lemma FetchNextPage(env: Env, page: Json)
    requires env.server(Request(UrlModel.Raw(NextPageUrl), None, JNull)) == Success(page)
    ensures FetchLink(env, JNull, NextPageLink()).response == Success(page)
  {
    UnauthenticatedRequestIsUnchanged(env, NextPageUrl, JNull);
  }

  /** A search answered by a two-page server returns the three items, page 1
      first, after two requests and one `on_next_page` call. */
  lemma TwoPageSearch<A, T>(env: Env, owner: A, href: Json, format: T -> string, start: T, f1: Json, f2: Json, f3: Json)
    requires forall req :: env.server(req) == if req.body != JNull then Success(FirstPage(f1, f2)) else Success(LastPage(f3))
    ensures var p := Search(env, owner, JNull, href, [], JArr([]), format, Some(start), None, JNull, true, DefaultLimit);
      && p.result == Success([Item(owner, f1), Item(owner, f2), Item(owner, f3)])
      && p.notices == 1 && |p.sent| == 2
  {
    var time := TimeField(format, Some(start), None).value;
    TwoPageSearchWith(env, owner, href, time, f1, f2, f3);
  }

  lemma TwoPageSearchWith<A>(env: Env, owner: A, href: Json, time: string, f1: Json, f2: Json, f3: Json)
    requires forall req :: env.server(req) == if req.body != JNull then Success(FirstPage(f1, f2)) else Success(LastPage(f3))
    ensures var p := SearchWith(env, owner, JNull, href, [], JArr([]), time, JNull, true, DefaultLimit);
      && p.result == Success([Item(owner, f1), Item(owner, f2), Item(owner, f3)])
      && p.notices == 1 && |p.sent| == 2
  {
    FetchNextPage(env, LastPage(f3));
    var y := Send(env, JNull, SearchUrl(href), JObj(SearchBody([], JArr([]), time, DefaultLimit, JNull)));
    assert y.sent.Some? && y.response == Success(FirstPage(f1, f2));
    TwoPagesAnswered(env, owner, href, time, f1, f2, f3);
  }

  lemma TwoPagesAnswered<A>(env: Env, owner: A, href: Json, time: string, f1: Json, f2: Json, f3: Json)
    requires Send(env, JNull, SearchUrl(href), JObj(SearchBody([], JArr([]), time, DefaultLimit, JNull))).response
             == Success(FirstPage(f1, f2))
    requires FetchLink(env, JNull, NextPageLink()).response == Success(LastPage(f3))
    ensures var p := SearchWith(env, owner, JNull, href, [], JArr([]), time, JNull, true, DefaultLimit);
      && p.result == Success([Item(owner, f1), Item(owner, f2), Item(owner, f3)])
      && p.notices == 1 && |p.sent| == 2
  {
    FirstPageReads(owner, f1, f2);
    LastPageReads(owner, f3);
    FollowLastPage(env, owner, JNull, NextPageLink(), true, FirstFollowPage, MaxPages, LastPage(f3));
    SearchNextPage(env, owner, JNull, href, [], JArr([]), time, JNull, true, DefaultLimit, FirstPage(f1, f2), NextPageLink());
    assert [Item(owner, f1), Item(owner, f2)] + [Item(owner, f3)] == [Item(owner, f1), Item(owner, f2), Item(owner, f3)];
  }
}
