/** One page of search results (models/search_result.py): a read-only view
    over the decoded response, with a back-reference to the API that fetched
    it. The owner is a handle of any type `A`; items carry it too. */
module SearchResultModel {
  import opened Wrappers
  import opened Json
  import opened LinkModel

  /** An item wrapper over one raw feature; its own fields are not modelled. */
  datatype Item<A> = Item(api: A, feature: Json)

  /** A link `next` passes over: a JSON object whose `rel` is not 'next'. */
  predicate Skips(l: Link) {
    l.Rel().Success? && l.Rel().value != JStr("next")
  }

  /** A link `next` stops at. */
  predicate IsNext(l: Link) {
    l.Rel() == Success(JStr("next"))
  }

  datatype SearchResult<A> = SearchResult(api: A, json: Json) {

    /** `self._json.get(key, default)`, which raises unless the page is a dict. */
    function FieldOr(key: string, default: Json): (r: Result<Json, Error>)
      ensures json.JObj? ==> r == Success(GetOr(json.fields, key, default))
      ensures !json.JObj? ==> r.Failure?
    {
      match json
      case JObj(fields) => Success(GetOr(fields, key, default))
      case _ => Failure(AttributeError("get"))
    }

    function Type(): Result<Json, Error> { FieldOr("type", JNull) }

    function Context(): Result<Json, Error> { FieldOr("context", JNull) }

    /** One Item per raw feature, in feature order; none when `features` is absent. */
    function Items(): (r: Result<seq<Item<A>>, Error>)
      ensures json.JObj? && "features" !in json.fields ==> r.Success? && r.value == []
      ensures json.JObj? && "features" in json.fields && json.fields["features"].JArr? ==>
                && r.Success? && |r.value| == |json.fields["features"].elems|
                && forall i | 0 <= i < |r.value| :: r.value[i] == Item(api, json.fields["features"].elems[i])
      ensures r.Success? ==> forall i | 0 <= i < |r.value| :: r.value[i].api == api
      ensures !json.JObj? ==> r.Failure?
    {
      var features :- FieldOr("features", JArr([]));
      var raw :- Elements(features);
      Success(seq(|raw|, i requires 0 <= i < |raw| => Item(api, raw[i])))
    }

    /** One Link per entry of `links`, in order; none when `links` is absent. */
    function Links(): (r: Result<seq<Link>, Error>)
      ensures json.JObj? && "links" !in json.fields ==> r.Success? && r.value == []
      ensures json.JObj? && "links" in json.fields && json.fields["links"].JArr? ==>
                && r.Success? && |r.value| == |json.fields["links"].elems|
                && forall i | 0 <= i < |r.value| :: r.value[i] == Link(json.fields["links"].elems[i])
      ensures !json.JObj? ==> r.Failure?
    {
      var links :- FieldOr("links", JArr([]));
      var raw :- Elements(links);
      Success(seq(|raw|, i requires 0 <= i < |raw| => Link(raw[i])))
    }

    /** The `next` property, as a value: the links, then the first-match scan. */
    function NextLink(): Result<Option<Link>, Error> {
      var links :- Links();
      FirstNext(links)
    }

    /** The `next` property as the source runs it: a scan over the links that
        returns at the first one whose `rel` is 'next'. */
    method Next() returns (r: Result<Option<Link>, Error>)
      ensures r == NextLink()
    {
      var all := Links();
      if all.Failure? {
        return Failure(all.error);
      }
      var links := all.value;
      var i := 0;
      while i < |links|
        invariant 0 <= i <= |links|
        invariant FirstNext(links) == FirstNext(links[i..])
      {
        var rel := links[i].Rel();
        if rel.Failure? {
          return Failure(rel.error);
        }
        if rel.value == JStr("next") {
          return Success(Some(links[i]));
        }
        assert links[i..][1..] == links[i + 1..];
        i := i + 1;
      }
      return Success(None);
    }
  }

  /** The first link whose `rel` is 'next'. Reading `rel` of a link that is not
      a JSON object raises, so the scan fails there. */
  function FirstNext(links: seq<Link>): (r: Result<Option<Link>, Error>)
    ensures r.Success? && r.value.Some? ==> r.value.value in links && IsNext(r.value.value)
  {
    if links == [] then Success(None)
    else
      match links[0].Rel()
      case Failure(e) => Failure(e)
      case Success(rel) => if rel == JStr("next") then Success(Some(links[0])) else FirstNext(links[1..])
  }

  /** The link found is the earliest 'next' link: every one before it is an
      object whose `rel` is something else. */
  lemma {:induction false} FirstNextIsEarliest(links: seq<Link>, k: nat)
    requires k < |links| && IsNext(links[k])
    requires forall j | 0 <= j < k :: Skips(links[j])
    ensures FirstNext(links) == Success(Some(links[k]))
  {
    if k > 0 {
      FirstNextIsEarliest(links[1..], k - 1);
    }
  }

  /** With no 'next' link among objects only, `next` is None. */
  lemma {:induction false} FirstNextNone(links: seq<Link>)
    requires forall j | 0 <= j < |links| :: Skips(links[j])
    ensures FirstNext(links) == Success(None)
  {
    if links != [] {
      FirstNextNone(links[1..]);
    }
  }

  /** A non-object reached before any 'next' link makes `next` raise. */
  lemma {:induction false} FirstNextFails(links: seq<Link>, k: nat)
    requires k < |links| && !links[k].json.JObj?
    requires forall j | 0 <= j < k :: Skips(links[j])
    ensures FirstNext(links) == Failure(AttributeError("get"))
  {
    if k > 0 {
      FirstNextFails(links[1..], k - 1);
    }
  }

  /** `next` returns exactly a link that is present and is a 'next' link, or
      None only when every link is an object with another `rel`. */
  lemma {:induction false} FirstNextNoneOnlyIfAllSkip(links: seq<Link>)
    requires FirstNext(links) == Success(None)
    ensures forall j | 0 <= j < |links| :: Skips(links[j])
  {
    if links != [] {
      FirstNextNoneOnlyIfAllSkip(links[1..]);
    }
  }
}
