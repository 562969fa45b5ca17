/** What the message handlers see of the network and of URL encoding. */
module Fetch {
  import opened JsText

  /** What `fetch` did: answered with a status and a body, or threw. */
  datatype Transport = Responded(ok: bool, status: int, body: JsString) | TransportError(error: JsString)

  /** The record `safeFetch` resolves to. */
  datatype FetchOutcome = FetchOutcome(ok: bool, status: int, text: JsString)

  /** The outcome of `safeFetch` for each URL: the network is an input of the model. */
  type Network = JsString -> FetchOutcome

  /** `safeFetch`: never throws; a transport failure becomes `ok = false`, status 0 and the
      error's text as the body. */
  function SafeFetch(t: Transport): (r: FetchOutcome)
    ensures t.TransportError? ==> !r.ok && r.status == 0 && r.text == t.error
    ensures t.Responded? ==> r.ok == t.ok && r.status == t.status && r.text == t.body
  {
    match t
    case Responded(ok, status, body) => FetchOutcome(ok, status, body)
    case TransportError(error) => FetchOutcome(false, 0, error)
  }

  /** `encodeURIComponent`, which throws a URIError (for a lone surrogate). */
  datatype Encoded = Encoded(value: JsString) | UriError(message: JsString)

  type UriEncoder = JsString -> Encoded

  /** The named failures the registry handlers report in their `error` field. */
  datatype LookupError = FetchFailed | SearchFailed | DetailLinkNotFound | DetailFetchFailed {
    function Code(): JsString {
      match this
      case FetchFailed => Lit("fetch_failed")
      case SearchFailed => Lit("search_failed")
      case DetailLinkNotFound => Lit("detail_link_not_found")
      case DetailFetchFailed => Lit("detail_fetch_failed")
    }
  }
}
