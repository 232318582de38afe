/** URLs as the auth strategies see them. Parsing a URL string (urlparse
    followed by parse_qs) is outside the model: it is a function the caller
    supplies. A URL is either the text as given, or one rebuilt from parts by
    `f'{scheme}://{netloc}{path}?{urlencode(query)}'`, kept as those parts. */
module UrlModel {
  import opened Json

  /** The six components urlparse yields, with the query already split into
      a parameter map (parameter name to value). */
  datatype UrlParts = UrlParts(scheme: string, netloc: string, path: string, params: string,
                               query: map<Json, Json>, fragment: string)

  datatype Target =
    | Raw(text: string)
    | Rebuilt(scheme: string, netloc: string, path: string, query: map<Json, Json>)

  /** The parts of a URL. A rebuilt URL has no `;params` and no fragment, and
      reading it back yields the parts it was built from. */
  function View(parse: string -> UrlParts, url: Target): (u: UrlParts)
    ensures url.Raw? ==> u == parse(url.text)
    ensures url.Rebuilt? ==> u.params == "" && u.fragment == ""
  {
    match url
    case Raw(text) => parse(text)
    case Rebuilt(scheme, netloc, path, query) => UrlParts(scheme, netloc, path, "", query, "")
  }
}
