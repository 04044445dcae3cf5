/**
 * The three caching proxy routes of server/index.ts: `/api/feed/:city`, `/api/search` and
 * `/api/map/bounds`. Each handler is a pure step from the cache, the request, the clock and
 * the upstream outcome to the new cache, the HTTP response and the number of upstream calls.
 */
module Proxy {
  import opened Wrappers
  import opened TtlCache

  /** What the upstream provider call yields when it is made: a parsed body or a thrown error. */
  datatype Upstream<V> = Fetched(body: V) | FetchFailed

  /** A JSON response body: the upstream payload passed through, or `{status:'error', message}`. */
  datatype Body<V> = Payload(data: V) | ErrorEnvelope(message: string)

  datatype Response<V> = Response(status: int, body: Body<V>)

  /** The state after one request, and how many upstream calls it made. */
  datatype Outcome<V> = Outcome(cache: Cache<V>, response: Response<V>, upstreamCalls: nat)

  const FEED_ERROR: string := "Failed to fetch data"
  const SEARCH_ERROR: string := "Search failed"
  const MAP_ERROR: string := "Failed to fetch map data"
  const KEYWORD_REQUIRED: string := "Keyword required"

  /** Query-string values as Express hands them over; `None` when the parameter is absent. */
  datatype Request =
    | FeedRequest(city: string)
    | SearchRequest(keyword: Option<string>)
    | MapRequest(lat1: Option<string>, lng1: Option<string>, lat2: Option<string>, lng2: Option<string>)

  function FeedKey(city: string): string {
    "feed:" + city
  }

  function SearchKey(keyword: string): string {
    "search:" + keyword
  }

  /** The map key; each omitted corner takes its own whole-world default. */
  function MapKey(lat1: Option<string>, lng1: Option<string>, lat2: Option<string>, lng2: Option<string>): string {
    "map:" + lat1.GetOr("-90") + ":" + lng1.GetOr("-180") + ":" + lat2.GetOr("90") + ":" + lng2.GetOr("180")
  }

  /** A search whose keyword is missing or empty fails the `!keyword` test. */
  predicate KeywordMissing(keyword: Option<string>) {
    keyword.None? || keyword.value == ""
  }

  /** The cache key a request uses, or `None` for a search rejected before the cache is read. */
  function CacheKey(req: Request): Option<string> {
    match req
    case FeedRequest(city) => Some(FeedKey(city))
    case SearchRequest(keyword) => if KeywordMissing(keyword) then None else Some(SearchKey(keyword.value))
    case MapRequest(lat1, lng1, lat2, lng2) => Some(MapKey(lat1, lng1, lat2, lng2))
  }

  /** The route-specific message of the 500 envelope. */
  function FailureMessage(req: Request): string {
    match req
    case FeedRequest(_) => FEED_ERROR
    case SearchRequest(_) => SEARCH_ERROR
    case MapRequest(_, _, _, _) => MAP_ERROR
  }

  /**
   * The pattern the three routes share once the key is known: serve a fresh entry without
   * calling upstream; otherwise call upstream once, store and return its body, or answer 500
   * and leave the cache alone.
   */
  function Serve<V>(cache: Cache<V>, key: string, now: int, upstream: Upstream<V>, failure: string): (o: Outcome<V>)
    ensures o.upstreamCalls <= 1
    ensures o.upstreamCalls == 0 <==> GetCached(cache, key, now).Some?
    ensures o.upstreamCalls == 0 ==> o.cache == cache && o.response == Response(200, Payload(GetCached(cache, key, now).value))
    ensures o.response.status == 200 || o.response.status == 500
    ensures o.response.status == 200 ==> o.response.body.Payload? && GetCached(o.cache, key, now) == Some(o.response.body.data)
    ensures o.response.status == 500 <==> o.upstreamCalls == 1 && upstream.FetchFailed?
    ensures o.response.status == 500 ==> o.cache == cache && o.response.body == ErrorEnvelope(failure)
    ensures o.upstreamCalls == 1 && upstream.Fetched? ==> o.cache == SetCache(cache, key, upstream.body, now)
    ensures forall k :: k != key ==> (k in o.cache <==> k in cache) && (k in cache ==> o.cache[k] == cache[k])
  {
    match GetCached(cache, key, now)
    case Some(hit) => Outcome(cache, Response(200, Payload(hit)), 0)
    case None =>
      match upstream
      case Fetched(body) => Outcome(SetCache(cache, key, body, now), Response(200, Payload(body)), 1)
      case FetchFailed => Outcome(cache, Response(500, ErrorEnvelope(failure)), 1)
  }

  /** `GET /api/feed/:city`. */
  function HandleFeed<V>(cache: Cache<V>, city: string, now: int, upstream: Upstream<V>): (o: Outcome<V>)
    ensures o.response.status == 500 ==> o.response.body == ErrorEnvelope("Failed to fetch data")
    ensures o.response.status == 200 ==>
      o.response.body.Payload? && GetCached(o.cache, "feed:" + city, now) == Some(o.response.body.data)
  {
    Serve(cache, FeedKey(city), now, upstream, FEED_ERROR)
  }

  /** `GET /api/search?keyword=`: 400 before anything else when the keyword is missing or empty. */
  function HandleSearch<V>(cache: Cache<V>, keyword: Option<string>, now: int, upstream: Upstream<V>): (o: Outcome<V>)
    ensures o.response.status == 400 <==> keyword.None? || keyword.value == ""
    ensures o.response.status == 400 ==>
      o.cache == cache && o.upstreamCalls == 0 && o.response.body == ErrorEnvelope("Keyword required")
    ensures o.response.status == 500 ==> o.response.body == ErrorEnvelope("Search failed")
    ensures o.response.status == 200 ==>
      o.response.body.Payload? && GetCached(o.cache, "search:" + keyword.value, now) == Some(o.response.body.data)
  {
    if KeywordMissing(keyword) then
      Outcome(cache, Response(400, ErrorEnvelope(KEYWORD_REQUIRED)), 0)
    else
      Serve(cache, SearchKey(keyword.value), now, upstream, SEARCH_ERROR)
  }

  /** `GET /api/map/bounds?lat1=&lng1=&lat2=&lng2=`. */
  function HandleMapBounds<V>(cache: Cache<V>, lat1: Option<string>, lng1: Option<string>,
                              lat2: Option<string>, lng2: Option<string>, now: int, upstream: Upstream<V>): (o: Outcome<V>)
    ensures o.response.status == 500 ==> o.response.body == ErrorEnvelope("Failed to fetch map data")
    ensures lat1.None? && lng1.None? && lat2.None? && lng2.None? && o.response.status == 200 ==>
      o.response.body.Payload? && GetCached(o.cache, "map:-90:-180:90:180", now) == Some(o.response.body.data)
  {
    var key := MapKey(lat1, lng1, lat2, lng2);
    assert lat1.None? && lng1.None? && lat2.None? && lng2.None? ==> key == "map:-90:-180:90:180";
    Serve(cache, key, now, upstream, MAP_ERROR)
  }

  /** Routes a request to its handler. */
  function Handle<V>(cache: Cache<V>, req: Request, now: int, upstream: Upstream<V>): (o: Outcome<V>)
    ensures o.upstreamCalls <= 1
    ensures o.response.status == 200 || o.response.status == 400 || o.response.status == 500
    ensures o.response.status == 400 <==> req.SearchRequest? && KeywordMissing(req.keyword)
    ensures o.response.status == 500 ==> o.response.body == ErrorEnvelope(FailureMessage(req)) && o.cache == cache
    ensures CacheKey(req).None? ==>
      o == Outcome(cache, Response(400, ErrorEnvelope(KEYWORD_REQUIRED)), 0)
    ensures CacheKey(req).Some? ==>
      o == Serve(cache, CacheKey(req).value, now, upstream, FailureMessage(req))
  {
    match req
    case FeedRequest(city) => HandleFeed(cache, city, now, upstream)
    case SearchRequest(keyword) => HandleSearch(cache, keyword, now, upstream)
    case MapRequest(lat1, lng1, lat2, lng2) => HandleMapBounds(cache, lat1, lng1, lat2, lng2, now, upstream)
  }

  /** A request's upstream call count is one exactly when it passes validation and misses the cache. */
  lemma UpstreamCallsExactly<V>(cache: Cache<V>, req: Request, now: int, upstream: Upstream<V>)
    ensures Handle(cache, req, now, upstream).upstreamCalls == 1 <==>
      CacheKey(req).Some? && GetCached(cache, CacheKey(req).value, now).None?
  {
  }

  /** Expired entries are never purged: a miss that fails upstream leaves the stale entry stored. */
  lemma StaleEntryKept<V>(cache: Cache<V>, req: Request, now: int)
    requires CacheKey(req).Some? && CacheKey(req).value in cache
    requires now - cache[CacheKey(req).value].timestamp >= CACHE_TTL
    ensures Handle(cache, req, now, FetchFailed).upstreamCalls == 1
    ensures CacheKey(req).value in Handle(cache, req, now, FetchFailed).cache
    ensures Handle(cache, req, now, FetchFailed).cache[CacheKey(req).value] == cache[CacheKey(req).value]
  {
  }

  /** A search with no usable keyword answers 400 and neither reads nor writes the cache nor calls upstream. */
  lemma SearchValidation<V>(cache: Cache<V>, keyword: Option<string>, now: int, upstream: Upstream<V>)
    requires keyword == None || keyword == Some("")
    ensures Handle(cache, SearchRequest(keyword), now, upstream) ==
      Outcome(cache, Response(400, ErrorEnvelope("Keyword required")), 0)
  {
  }

  /**
   * Miss then hit: the first request for an uncached key calls upstream once and returns its
   * body; a repeat within the TTL calls nobody and returns the same body.
   */
  lemma MissThenHit<V>(cache: Cache<V>, req: Request, t1: int, body: V, t2: int, upstream2: Upstream<V>)
    requires CacheKey(req).Some? && GetCached(cache, CacheKey(req).value, t1).None?
    requires t2 - t1 < CACHE_TTL
    ensures Handle(cache, req, t1, Fetched(body)).upstreamCalls == 1
    ensures Handle(cache, req, t1, Fetched(body)).response == Response(200, Payload(body))
    ensures Handle(Handle(cache, req, t1, Fetched(body)).cache, req, t2, upstream2) ==
      Outcome(Handle(cache, req, t1, Fetched(body)).cache, Response(200, Payload(body)), 0)
  {
    var key := CacheKey(req).value;
    SetThenGet(cache, key, body, t1, t2);
  }

  /**
   * A failed fetch is not cached: it answers 500 with the route's message, and a later
   * request for the same key (on a clock that has not gone back) calls upstream again.
   */
  lemma FailureNotCached<V>(cache: Cache<V>, req: Request, t1: int, t2: int, upstream2: Upstream<V>)
    requires CacheKey(req).Some? && GetCached(cache, CacheKey(req).value, t1).None?
    requires t1 <= t2
    ensures Handle(cache, req, t1, FetchFailed) ==
      Outcome(cache, Response(500, ErrorEnvelope(FailureMessage(req))), 1)
    ensures Handle(Handle(cache, req, t1, FetchFailed).cache, req, t2, upstream2).upstreamCalls == 1
  {
  }

  /** Keys from different routes never collide: their first letters already differ. */
  lemma KeysNamespaced(city: string, keyword: string, lat1: Option<string>, lng1: Option<string>,
                       lat2: Option<string>, lng2: Option<string>)
    ensures FeedKey(city) != SearchKey(keyword)
    ensures FeedKey(city) != MapKey(lat1, lng1, lat2, lng2)
    ensures SearchKey(keyword) != MapKey(lat1, lng1, lat2, lng2)
  {
    assert FeedKey(city)[0] == 'f';
    assert SearchKey(keyword)[0] == 's';
    assert MapKey(lat1, lng1, lat2, lng2)[0] == 'm';
  }

  /**
   * A request of one route leaves the entry of another route's key exactly as it was, so that
   * key serves the same at every time, stale entries included.
   */
  lemma RoutesIsolated<V>(cache: Cache<V>, req: Request, now: int, upstream: Upstream<V>, other: Request, later: int)
    requires CacheKey(other).Some?
    requires req.FeedRequest? != other.FeedRequest? || req.SearchRequest? != other.SearchRequest?
    ensures CacheKey(other).value in Handle(cache, req, now, upstream).cache <==> CacheKey(other).value in cache
    ensures CacheKey(other).value in cache ==>
      Handle(cache, req, now, upstream).cache[CacheKey(other).value] == cache[CacheKey(other).value]
    ensures GetCached(Handle(cache, req, now, upstream).cache, CacheKey(other).value, later) ==
      GetCached(cache, CacheKey(other).value, later)
  {
    if CacheKey(req).Some? {
      match req {
        case FeedRequest(c) =>
          match other {
            case SearchRequest(w) => KeysNamespaced(c, w.value, None, None, None, None);
            case MapRequest(a, b, x, y) => KeysNamespaced(c, "", a, b, x, y);
            case FeedRequest(_) =>
          }
        case SearchRequest(w) =>
          match other {
            case FeedRequest(c) => KeysNamespaced(c, w.value, None, None, None, None);
            case MapRequest(a, b, x, y) => KeysNamespaced("", w.value, a, b, x, y);
            case SearchRequest(_) =>
          }
        case MapRequest(a, b, x, y) =>
          match other {
            case FeedRequest(c) => KeysNamespaced(c, "", a, b, x, y);
            case SearchRequest(w) => KeysNamespaced("", w.value, a, b, x, y);
            case MapRequest(_, _, _, _) =>
          }
      }
    }
  }

  /** Within one route, two cities or two keywords share an entry only when they are equal. */
  lemma KeysInjective(a: string, b: string)
    ensures FeedKey(a) == FeedKey(b) ==> a == b
    ensures SearchKey(a) == SearchKey(b) ==> a == b
  {
    if FeedKey(a) == FeedKey(b) {
      assert a == FeedKey(a)[5..] == FeedKey(b)[5..] == b;
    }
    if SearchKey(a) == SearchKey(b) {
      assert a == SearchKey(a)[7..] == SearchKey(b)[7..] == b;
    }
  }

  /** Bounds default one corner at a time; with none given the key is the whole world. */
  lemma MapDefaults()
    ensures MapKey(None, None, None, None) == "map:-90:-180:90:180"
    ensures MapKey(Some("10"), None, None, None) == "map:10:-180:90:180"
  {
  }

  /**
   * Bounds are joined with `:` unescaped, so two different bounding boxes can share a
   * cache entry when a corner value itself contains `:`.
   */
  lemma MapKeyAmbiguous()
    ensures MapKey(Some("1:2"), Some("3"), None, None) == MapKey(Some("1"), Some("2:3"), None, None)
  {
  }

  /** The key starts with one of the three route prefixes. */
  predicate RoutePrefixed(k: string) {
    "feed:" <= k || "search:" <= k || "map:" <= k
  }

  /** Every key in the cache carries one of the three route prefixes. */
  predicate Namespaced<V>(cache: Cache<V>) {
    forall k :: k in cache ==> RoutePrefixed(k)
  }

  /** Handling any request keeps the cache namespaced. */
  lemma HandleKeepsNamespaced<V>(cache: Cache<V>, req: Request, now: int, upstream: Upstream<V>)
    requires Namespaced(cache)
    ensures Namespaced(Handle(cache, req, now, upstream).cache)
  {
    var o := Handle(cache, req, now, upstream);
    if CacheKey(req).Some? {
      var key := CacheKey(req).value;
      assert o.cache.Keys <= cache.Keys + {key};
      match req
      case FeedRequest(city) => assert "feed:" <= key;
      case SearchRequest(keyword) => assert "search:" <= key;
      case MapRequest(a, b, c, d) => assert "map:" <= key;
    }
  }

  /** One timed request of a run, with the outcome upstream would give it. */
  datatype Step<V> = Step(req: Request, now: int, upstream: Upstream<V>)

  /** The cache after a run of requests from `cache`, and the total number of upstream calls. */
  function Replay<V>(cache: Cache<V>, steps: seq<Step<V>>): (r: (Cache<V>, nat))
    ensures r.1 <= |steps|
    ensures Namespaced(cache) ==> Namespaced(r.0)
    ensures r.0.Keys >= cache.Keys
    decreases |steps|
  {
    if |steps| == 0 then (cache, 0)
    else
      var o := Handle(cache, steps[0].req, steps[0].now, steps[0].upstream);
      var rest := Replay(o.cache, steps[1..]);
      assert Namespaced(cache) ==> Namespaced(o.cache) by {
        if Namespaced(cache) {
          HandleKeepsNamespaced(cache, steps[0].req, steps[0].now, steps[0].upstream);
        }
      }
      (rest.0, o.upstreamCalls + rest.1)
  }
}
