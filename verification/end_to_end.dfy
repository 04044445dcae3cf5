/**
 * How the pieces meet: a client query goes through the caching proxy, the envelope is
 * unwrapped on the client, and the reading is classified into a band.
 */
module EndToEnd {
  import opened Wrappers
  import TtlCache
  import Proxy
  import Queries
  import AqiLevels

  /** The fields of a city feed this model looks at. */
  datatype CityAqi = CityAqi(idx: int, aqi: real, name: string)

  type Feed = Queries.Envelope<CityAqi>

  /**
   * A city feed fetched on an empty cache reaches the client unchanged, unwraps to its data
   * when the provider said `'ok'`, and a reading of 42 is classified as good.
   */
  lemma FeedScenario(now: int, body: Feed)
    requires body.status == "ok" && body.data.aqi == 42.0
    ensures Proxy.Handle(TtlCache.EmptyCache(), Proxy.FeedRequest("@2554"), now, Proxy.Fetched(body)).response ==
      Proxy.Response(200, Proxy.Payload(body))
    ensures Queries.Unwrap(body, Queries.CITY_ERROR) == Success(body.data)
    ensures AqiLevels.GetAQILevel(body.data.aqi).level == AqiLevels.Good
  {
    AqiLevels.ClassifyInBand(0, 42.0);
  }

  /**
   * A provider answer with status `'error'` is not a proxy failure: the proxy answers 200 and
   * caches it for the TTL, and only the client turns it into an error.
   */
  lemma LogicalErrorIsCached(cache: TtlCache.Cache<Feed>, city: string, now: int, body: Feed, later: int)
    requires body.status == "error"
    requires TtlCache.GetCached(cache, Proxy.FeedKey(city), now).None?
    requires now <= later < now + TtlCache.CACHE_TTL
    ensures Proxy.Handle(cache, Proxy.FeedRequest(city), now, Proxy.Fetched(body)).response ==
      Proxy.Response(200, Proxy.Payload(body))
    ensures TtlCache.GetCached(Proxy.Handle(cache, Proxy.FeedRequest(city), now, Proxy.Fetched(body)).cache,
                               Proxy.FeedKey(city), later) == Some(body)
    ensures Queries.Unwrap(body, Queries.CITY_ERROR) == Failure("Failed to fetch city data")
  {
    TtlCache.SetThenGet(cache, Proxy.FeedKey(city), body, now, later);
  }

  /** The path `useCityAQI` requests for a numeric id, as the `:city` route parameter the proxy sees. */
  function CityParam(id: int): string {
    "@" + Queries.IntString(id)
  }

  /**
   * The client's path is `/feed/` followed by that parameter, and the parameter holds no `/`,
   * so Express binds all of it to the one `:city` segment.
   */
  lemma CityPathCarriesParam(id: int)
    requires id != 0
    ensures Queries.CityRequest(Some(Queries.CityNumber(id))).Some?
    ensures Queries.CityRequest(Some(Queries.CityNumber(id))).value[..6] == "/feed/"
    ensures Queries.CityRequest(Some(Queries.CityNumber(id))).value[6..] == CityParam(id)
    ensures '/' !in CityParam(id)
  {
    var digits := Queries.NatString(if id < 0 then -id else id);
    var p := CityParam(id);
    if id < 0 {
      assert p == ['@', '-'] + digits;
    } else {
      assert p == ['@'] + digits;
    }
    assert forall i :: 0 <= i < |p| ==> p[i] != '/';
  }

  /**
   * The whole world the client sends when it has no bounds lands on the proxy's default entry:
   * rendered as `-90`, `-180`, `90` and `180`, its corners give the key of a request with no
   * bounds at all.
   */
  lemma WorldRequestIsDefaultEntry(render: real -> string)
    requires render(-90.0) == "-90" && render(-180.0) == "-180" && render(90.0) == "90" && render(180.0) == "180"
    ensures var b := Queries.MapParams(None);
      Proxy.MapKey(Some(render(b.lat1)), Some(render(b.lng1)), Some(render(b.lat2)), Some(render(b.lng2))) ==
      Proxy.MapKey(None, None, None, None)
  {
  }

  /**
   * A search the client sends is never rejected by the proxy: the client waits for two
   * characters, and the proxy rejects only a missing or empty keyword. `decode` stands for the
   * query-string decoding Express applies, which undoes the client's encoding.
   */
  lemma EnabledSearchAccepted<V>(cache: TtlCache.Cache<V>, query: string, encode: string -> string,
                                 decode: string -> string, now: int, upstream: Proxy.Upstream<V>)
    requires |query| >= 2
    requires decode(encode(query)) == query
    ensures Queries.SearchPath(query, encode).Some?
    ensures decode(Queries.SearchPath(query, encode).value[16..]) == query
    ensures Proxy.Handle(cache, Proxy.SearchRequest(Some(query)), now, upstream).response.status in {200, 500}
  {
    assert Queries.SearchPath(query, encode).value[16..] == encode(query);
  }

  /** Two different favourite city ids never share a proxy cache entry. */
  lemma DistinctCitiesDistinctEntries(a: int, b: int)
    requires a != b
    ensures Proxy.FeedKey(CityParam(a)) != Proxy.FeedKey(CityParam(b))
  {
    Queries.IntStringInjective(a, b);
    Proxy.KeysInjective(CityParam(a), CityParam(b));
    assert CityParam(a)[1..] == Queries.IntString(a);
    assert CityParam(b)[1..] == Queries.IntString(b);
  }
}
