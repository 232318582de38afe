/** A hypermedia link as a read-only view over the JSON value it was built
    from (models/link.py). Building a Link never inspects the value; each
    accessor is one `.get(key, None)` on it, which raises when the value is
    not a JSON object. */
module LinkModel {
  import opened Wrappers
  import opened Json

  datatype Link = Link(json: Json) {

    /** `self._json.get(key, None)`. */
    function Field(key: string): (r: Result<Json, Error>)
      ensures json.JObj? ==> r == Success(if key in json.fields then json.fields[key] else JNull)
      ensures !json.JObj? ==> r == Failure(AttributeError("get"))
    {
      match json
      case JObj(fields) => Success(Get(fields, key))
      case _ => Failure(AttributeError("get"))
    }

    function Href(): Result<Json, Error> { Field("href") }
    function Rel(): Result<Json, Error> { Field("rel") }
    function Type(): Result<Json, Error> { Field("type") }
    function Title(): Result<Json, Error> { Field("title") }
    function Method(): Result<Json, Error> { Field("method") }
    function Body(): Result<Json, Error> { Field("body") }
  }

  /** `Link()`: the default argument is an empty dict. */
  const EmptyLink: Link := Link(JObj(map[]))

  /** The link object holding exactly the given fields. */
  function LinkOf(href: Json, rel: Json, kind: Json, title: Json, verb: Json, body: Json): Link {
    Link(JObj(map["href" := href, "rel" := rel, "type" := kind, "title" := title,
                  "method" := verb, "body" := body]))
  }

  /** Every accessor of `Link()` reads None. */
  lemma EmptyLinkReadsNone()
    ensures EmptyLink.Href() == Success(JNull) && EmptyLink.Rel() == Success(JNull)
    ensures EmptyLink.Type() == Success(JNull) && EmptyLink.Title() == Success(JNull)
    ensures EmptyLink.Method() == Success(JNull) && EmptyLink.Body() == Success(JNull)
  {
  }

  /** Each accessor returns its own field verbatim: no validation of `rel` or
      `method` against known values, and `body` is any JSON value unchanged. */
  lemma AccessorsReturnFields(href: Json, rel: Json, kind: Json, title: Json, verb: Json, body: Json)
    ensures var l := LinkOf(href, rel, kind, title, verb, body);
      && l.Href() == Success(href) && l.Rel() == Success(rel) && l.Type() == Success(kind)
      && l.Title() == Success(title) && l.Method() == Success(verb) && l.Body() == Success(body)
  {
  }

  /** An absent field and a field holding null read the same. */
  lemma AbsentFieldReadsNone(fields: map<string, Json>, key: string)
    requires key !in fields
    ensures Link(JObj(fields)).Field(key) == Link(JObj(fields[key := JNull])).Field(key) == Success(JNull)
  {
  }
}
