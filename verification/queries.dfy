/**
 * The pure parts of the client's data hooks (src/hooks/useAQI.ts): when each query is enabled,
 * which proxy path it requests, how the `{status, data}` envelope is unwrapped, and which map
 * stations are kept for the globe.
 */
module Queries {
  import opened Wrappers

  /** The `{status, data}` envelope the upstream provider wraps every answer in. */
  datatype Envelope<T> = Envelope(status: string, data: T)

  const CITY_ERROR: string := "Failed to fetch city data"
  const SEARCH_ERROR: string := "Search failed"
  const STATIONS_ERROR: string := "Failed to fetch stations"
  const GEO_ERROR: string := "Failed to fetch geo data"

  /** The check every `queryFn` makes: `data.data` when the status is exactly `'ok'`, otherwise an error. */
  function Unwrap<T>(env: Envelope<T>, message: string): (r: Result<T>)
    ensures r.Success? <==> env.status == "ok"
    ensures r.Success? ==> r.value == env.data
    ensures r.Failure? ==> r.error == message
  {
    if env.status != "ok" then Failure(message) else Success(env.data)
  }

  // ---------------------------------------------------------------- city by id

  /** A city id is a string or a number. */
  datatype CityId = CityText(text: string) | CityNumber(n: int)

  /** `!!cityId`: absent, the empty string and the number 0 are falsy. */
  predicate CityEnabled(cityId: Option<CityId>) {
    match cityId
    case None => false
    case Some(CityText(s)) => s != ""
    case Some(CityNumber(n)) => n != 0
  }

  function DigitChar(d: nat): char
    requires d < 10
  {
    "0123456789"[d]
  }

  function DigitValue(c: char): nat {
    if '0' <= c <= '9' then (c as int - '0' as int) as nat else 0
  }

  /** Decimal digits of a natural number, most significant first, without leading zeros. */
  function NatString(n: nat): (s: string)
    ensures |s| > 0
    ensures forall i :: 0 <= i < |s| ==> '0' <= s[i] <= '9'
    ensures s[0] == '0' ==> n == 0
  {
    if n < 10 then [DigitChar(n)] else NatString(n / 10) + [DigitChar(n % 10)]
  }

  /**
   * How a template literal renders an integer id: its decimal digits, with `-` when negative.
   * This is JavaScript's rendering only below 10^21 in magnitude, the range of station uids.
   */
  function IntString(n: int): string {
    if n < 0 then "-" + NatString(-n) else NatString(n)
  }

  /** Reads back a string of decimal digits. */
  function ParseNat(s: string): nat {
    if |s| == 0 then 0 else 10 * ParseNat(s[..|s| - 1]) + DigitValue(s[|s| - 1])
  }

  /** Rendering then reading back gives the number: the rendering loses nothing. */
  lemma {:induction false} NatStringRoundTrip(n: nat)
    ensures ParseNat(NatString(n)) == n
  {
    var s := NatString(n);
    if n >= 10 {
      NatStringRoundTrip(n / 10);
      assert s[..|s| - 1] == NatString(n / 10);
    }
  }

  /** Two different numeric ids are rendered differently. */
  lemma IntStringInjective(a: int, b: int)
    requires a != b
    ensures IntString(a) != IntString(b)
  {
    if a < 0 && b < 0 {
      NegativeDigits(a, b);
    } else if a >= 0 && b >= 0 {
      NatStringRoundTrip(a);
      NatStringRoundTrip(b);
    } else if a < 0 {
      SignDiffers(a, b);
    } else {
      SignDiffers(b, a);
    }
  }

  lemma NegativeDigits(a: int, b: int)
    requires a < 0 && b < 0 && a != b
    ensures IntString(a) != IntString(b)
  {
    ParseAfterSign(a);
    ParseAfterSign(b);
  }

  lemma ParseAfterSign(n: int)
    requires n < 0
    ensures ParseNat(IntString(n)[1..]) == -n
  {
    DigitsAfterSign(n);
    NatStringRoundTrip(-n);
  }

  lemma DigitsAfterSign(n: int)
    requires n < 0
    ensures IntString(n)[1..] == NatString(-n)
  {
    assert IntString(n) == "-" + NatString(-n);
  }

  lemma SignDiffers(a: int, b: int)
    requires a < 0 <= b
    ensures IntString(a) != IntString(b)
  {
    var na := NatString(-a);
    assert ("-" + na)[0] == '-';
    assert '0' <= NatString(b)[0] <= '9';
  }

  function CityIdText(id: CityId): string {
    match id
    case CityText(s) => s
    case CityNumber(n) => IntString(n)
  }

  /** `useCityAQI`: the path it requests, or `None` while the query is disabled. */
  function CityRequest(cityId: Option<CityId>): (r: Option<string>)
    ensures r.Some? <==> CityEnabled(cityId)
    ensures r.Some? ==> r.value == "/feed/@" + CityIdText(cityId.value)
  {
    if CityEnabled(cityId) then Some("/feed/@" + CityIdText(cityId.value)) else None
  }

  /** Different numeric city ids never request the same path. */
  lemma CityRequestsDistinct(a: int, b: int)
    requires a != 0 && b != 0 && a != b
    ensures CityRequest(Some(CityNumber(a))).Some? && CityRequest(Some(CityNumber(b))).Some?
    ensures CityRequest(Some(CityNumber(a))) != CityRequest(Some(CityNumber(b)))
  {
    IntStringInjective(a, b);
    var pa := "/feed/@" + IntString(a);
    var pb := "/feed/@" + IntString(b);
    assert pa[7..] == IntString(a) && pb[7..] == IntString(b);
  }

  // ---------------------------------------------------------------- city by name, search

  /**
   * `useCityByName`: enabled for a non-empty name; the name goes through `encode`, which stands
   * for `encodeURIComponent`.
   */
  function CityByNameRequest(name: Option<string>, encode: string -> string): (r: Option<string>)
    ensures r.Some? <==> name.Some? && |name.value| > 0
    ensures r.Some? ==> r.value == "/feed/" + encode(name.value)
  {
    if name.Some? && name.value != "" then Some("/feed/" + encode(name.value)) else None
  }

  /** With an injective encoder, two different names never request the same path. */
  lemma CityByNameInjective(a: string, b: string, encode: string -> string)
    requires a != "" && b != "" && a != b
    requires forall x, y :: encode(x) == encode(y) ==> x == y
    ensures CityByNameRequest(Some(a), encode).Some? && CityByNameRequest(Some(b), encode).Some?
    ensures CityByNameRequest(Some(a), encode) != CityByNameRequest(Some(b), encode)
  {
    var pa := "/feed/" + encode(a);
    var pb := "/feed/" + encode(b);
    assert pa[6..] == encode(a) && pb[6..] == encode(b);
  }

  /** `useSearch`: enabled once the query has at least two characters. */
  function SearchPath(query: string, encode: string -> string): (r: Option<string>)
    ensures r.Some? <==> |query| >= 2
    ensures r.Some? ==> r.value == "/search?keyword=" + encode(query)
  {
    if |query| >= 2 then Some("/search?keyword=" + encode(query)) else None
  }

  // ---------------------------------------------------------------- map stations

  datatype Bounds = Bounds(lat1: real, lng1: real, lat2: real, lng2: real)

  /** The whole world, used when no bounds are given. */
  const WORLD: Bounds := Bounds(-90.0, -180.0, 90.0, 180.0)

  /** `useMapStations`: the bounds sent as query parameters. */
  function MapParams(bounds: Option<Bounds>): (b: Bounds)
    ensures bounds.None? ==> b.lat1 == -90.0 && b.lng1 == -180.0 && b.lat2 == 90.0 && b.lng2 == 180.0
    ensures bounds.Some? ==> b == bounds.value
  {
    bounds.GetOr(WORLD)
  }

  /** A station's `aqi` is a number or, when the station has no reading, a string such as `"-"`. */
  datatype AqiValue = AqiNumber(x: real) | AqiText(s: string)

  datatype Station = Station(uid: int, aqi: AqiValue, lat: real, lon: real, name: string, time: string)

  /** `typeof s.aqi === 'number' && s.aqi > 0`. */
  predicate Plottable(s: Station) {
    s.aqi.AqiNumber? && s.aqi.x > 0.0
  }

  /** The stations the globe plots, in the order received. */
  function KeepPlottable(stations: seq<Station>): (r: seq<Station>)
    ensures forall s :: s in r <==> s in stations && Plottable(s)
    ensures |r| <= |stations|
  {
    if |stations| == 0 then []
    else
      var rest := KeepPlottable(stations[1..]);
      assert forall s :: s in stations <==> s == stations[0] || s in stations[1..];
      if Plottable(stations[0]) then [stations[0]] + rest else rest
  }

  /** Filtering commutes with concatenation, so kept stations stay in their relative order. */
  lemma {:induction false} KeepPlottableAppend(a: seq<Station>, b: seq<Station>)
    ensures KeepPlottable(a + b) == KeepPlottable(a) + KeepPlottable(b)
  {
    if |a| == 0 {
      assert a + b == b;
    } else {
      assert (a + b)[1..] == a[1..] + b;
      KeepPlottableAppend(a[1..], b);
    }
  }

  /** A list of plottable stations passes through unchanged; in particular the filter is idempotent. */
  lemma {:induction false} KeepPlottableIdentity(stations: seq<Station>)
    requires forall i :: 0 <= i < |stations| ==> Plottable(stations[i])
    ensures KeepPlottable(stations) == stations
    ensures KeepPlottable(KeepPlottable(stations)) == KeepPlottable(stations)
  {
    if |stations| > 0 {
      KeepPlottableIdentity(stations[1..]);
    }
  }

  /** The station query's result: the plottable stations of an `'ok'` envelope, or its error. */
  function StationsResult(env: Envelope<seq<Station>>): (r: Result<seq<Station>>)
    ensures r.Success? <==> env.status == "ok"
    ensures r.Success? ==> forall s :: s in r.value <==> s in env.data && Plottable(s)
    ensures r.Failure? ==> r.error == "Failed to fetch stations"
  {
    match Unwrap(env, STATIONS_ERROR)
    case Success(stations) => Success(KeepPlottable(stations))
    case Failure(e) => Failure(e)
  }

  // ---------------------------------------------------------------- geolocation

  /**
   * `useGeoAQI`: enabled once both coordinates are defined (0 included). Coordinates are
   * taken in the text a template literal renders them as.
   */
  function GeoRequest(lat: Option<string>, lng: Option<string>): (r: Option<string>)
    ensures r.Some? <==> lat.Some? && lng.Some?
    ensures r.Some? ==> r.value == "/feed/geo:" + lat.value + ";" + lng.value
  {
    if lat.Some? && lng.Some? then Some("/feed/geo:" + lat.value + ";" + lng.value) else None
  }

  /**
   * A coordinate lookup and a city-id lookup never request the same path (`/feed/geo:` against
   * `/feed/@`), so they never share a proxy cache entry.
   */
  lemma GeoPathsAreNotCityPaths(lat: Option<string>, lng: Option<string>, id: Option<CityId>)
    requires GeoRequest(lat, lng).Some? && CityRequest(id).Some?
    ensures GeoRequest(lat, lng).value != CityRequest(id).value
  {
    assert GeoRequest(lat, lng).value[6] == 'g';
    assert CityRequest(id).value[6] == '@';
  }

  /** Different coordinates request different paths, as long as the latitude text holds no `;`. */
  lemma GeoRequestInjective(lat1: string, lng1: string, lat2: string, lng2: string)
    requires ';' !in lat1 && ';' !in lat2
    requires lat1 != lat2 || lng1 != lng2
    ensures GeoRequest(Some(lat1), Some(lng1)) != GeoRequest(Some(lat2), Some(lng2))
  {
    var s1 := lat1 + ";" + lng1;
    var s2 := lat2 + ";" + lng2;
    if |lat1| < |lat2| {
      assert s1[|lat1|] == ';' && s2[|lat1|] == lat2[|lat1|];
    } else if |lat2| < |lat1| {
      assert s2[|lat2|] == ';' && s1[|lat2|] == lat1[|lat2|];
    } else if lat1 != lat2 {
      assert s1[..|lat1|] == lat1 && s2[..|lat1|] == lat2;
    } else {
      assert s1[|lat1| + 1..] == lng1 && s2[|lat1| + 1..] == lng2;
    }
    assert s1 != s2;
    var p1 := GeoRequest(Some(lat1), Some(lng1)).value;
    var p2 := GeoRequest(Some(lat2), Some(lng2)).value;
    assert p1 == "/feed/geo:" + s1 && p2 == "/feed/geo:" + s2;
    assert p1[10..] == s1 && p2[10..] == s2;
  }
}
