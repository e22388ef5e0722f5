/**
 * `fetchRoute`: one GET to the OpenRouteService driving-directions endpoint. The key comes
 * from the environment, the two points arrive latitude-first and are written into the query
 * longitude-first, and every failure is reported to the caller as `null` (`None`).
 */
module OpenRouteService {
  import opened Wrappers
  import opened Geo

  /**
   * The parameters of the request: the key and both points in the order they are written into
   * the query string. The host's `fetch` receives these parameters rather than the URL text.
   */
  datatype DirectionsQuery = DirectionsQuery(apiKey: string, start: Pair<real>, end: Pair<real>)

  /**
   * What the host's `fetch` produces: a rejected promise, or a response whose body either
   * parses (`Some`) or makes `response.json()` reject (`None`).
   */
  datatype Transport<B> = NetworkError | Response(ok: bool, statusText: string, body: Option<B>)

  /** `!apiKey` is false: the variable is set and not the empty string. */
  predicate KeyConfigured(apiKey: Option<string>)
    ensures apiKey.None? ==> !KeyConfigured(apiKey)
    ensures apiKey == Some("") ==> !KeyConfigured(apiKey)
    ensures apiKey.Some? && |apiKey.value| > 0 ==> KeyConfigured(apiKey)
  {
    apiKey.Some? && apiKey.value != ""
  }

  /** The request `fetchRoute` issues, if any: none without a key. */
  function Request(apiKey: Option<string>, start: Pair<real>, end: Pair<real>): (r: Option<DirectionsQuery>)
    ensures r.Some? <==> KeyConfigured(apiKey)
    ensures r.Some? ==>
      r.value.apiKey == apiKey.value &&
      FromLngFirst(r.value.start) == FromLatFirst(start) && FromLngFirst(r.value.end) == FromLatFirst(end)
  {
    if !KeyConfigured(apiKey) then None
    else Some(DirectionsQuery(apiKey.value, Swap(start), Swap(end)))
  }

  /** The outcome of an issued request: the parsed body of an ok response, otherwise `null`. */
  function Outcome<B>(t: Transport<B>): (r: Option<B>)
    ensures r.Some? <==> t.Response? && t.ok && t.body.Some?
    ensures r.Some? ==> r == t.body
  {
    match t
    case NetworkError => None
    case Response(ok, _, body) => if ok then body else None
  }

  /**
   * `fetchRoute(start, end)`. A value comes back only when a key is configured and the
   * request for the swapped points got an ok response whose body parsed, and that value is
   * the body itself; every other path gives `None` and none throws.
   */
  function FetchRoute<B>(apiKey: Option<string>, start: Pair<real>, end: Pair<real>,
                         fetch: DirectionsQuery -> Transport<B>): (data: Option<B>)
    ensures !KeyConfigured(apiKey) ==> data == None
    ensures data.Some? <==>
      KeyConfigured(apiKey) &&
      var t := fetch(DirectionsQuery(apiKey.value, Swap(start), Swap(end)));
      t.Response? && t.ok && t.body.Some?
    ensures data.Some? ==> data == fetch(DirectionsQuery(apiKey.value, Swap(start), Swap(end))).body
  {
    match Request(apiKey, start, end)
    case None => None
    case Some(q) => Outcome(fetch(q))
  }

  /** Without a key no request is made: the result is `None` whatever `fetch` would have done. */
  lemma MissingKeyIssuesNoRequest<B>(apiKey: Option<string>, start: Pair<real>, end: Pair<real>,
                                     fetch: DirectionsQuery -> Transport<B>,
                                     other: DirectionsQuery -> Transport<B>)
    requires !KeyConfigured(apiKey)
    ensures Request(apiKey, start, end) == None
    ensures FetchRoute(apiKey, start, end, fetch) == FetchRoute(apiKey, start, end, other) == None
  {
  }

  /**
   * The provider reads `start=<lng>,<lat>`: handed the latitude-first arrays the detail view
   * builds, it reads back exactly the two points.
   */
  lemma QueryIsLongitudeFirst(apiKey: Option<string>, origin: LatLng, destination: LatLng)
    requires KeyConfigured(apiKey)
    ensures var q := Request(apiKey, ToLatFirst(origin), ToLatFirst(destination));
      q.Some? && q.value.apiKey == apiKey.value &&
      q.value.start == (origin.lng, origin.lat) && q.value.end == (destination.lng, destination.lat) &&
      FromLngFirst(q.value.start) == origin && FromLngFirst(q.value.end) == destination
  {
  }

  /** Non-ok responses, unparsable bodies and network errors all become `None`, never a failure. */
  lemma FailuresBecomeNull<B>(apiKey: Option<string>, start: Pair<real>, end: Pair<real>,
                              fetch: DirectionsQuery -> Transport<B>)
    requires KeyConfigured(apiKey)
    requires var t := fetch(Request(apiKey, start, end).value);
      t.NetworkError? || (t.Response? && (!t.ok || t.body.None?))
    ensures FetchRoute(apiKey, start, end, fetch) == None
  {
  }

  /** An ok response with a parsed body is returned unchanged. */
  lemma OkBodyReturned<B>(apiKey: Option<string>, start: Pair<real>, end: Pair<real>,
                          fetch: DirectionsQuery -> Transport<B>, statusText: string, body: B)
    requires KeyConfigured(apiKey)
    requires fetch(Request(apiKey, start, end).value) == Response(true, statusText, Some(body))
    ensures FetchRoute(apiKey, start, end, fetch) == Some(body)
  {
  }
}
