# AirWatch core logic in Dafny

AirWatch is a web client that shows air-quality-index (AQI) readings on a 3D globe, backed by a
small Express proxy over the WAQI data provider. This project models the parts of it that are
logic rather than rendering, and proves properties of them:

- **AQI bands** (`AqiLevels`): the fixed table of six severity bands, the first-match
  classification `getAQILevel` with its fall-back to the last band, and `getAQIColor`.
- **TTL cache** (`TtlCache`): the proxy's in-memory map from key to payload and timestamp,
  `getCached` and `setCache`, with a five-minute TTL. The clock is a parameter.
- **Proxy routes** (`Proxy`): `/api/feed/:city`, `/api/search` and `/api/map/bounds` as pure steps
  from (cache, request, clock, upstream outcome) to (new cache, HTTP response, upstream-call
  count), plus a replay of a sequence of requests.
- **Client store** (`Store`): the application state record and the bodies of its actions
  (`toggleTheme`, `addFavorite`, `removeFavorite`, `setSelectedCity`, `addToCompare`,
  `removeFromCompare`, `clearCompare`) and the persisted snapshot `partialize`.
- **Pollutant chart** (`PollutantChart`): the pollutant threshold table, the bar colour step
  function `getBarColor`, and the `chartData` list of bars.
- **Data hooks** (`Queries`): the envelope check of each `queryFn`, the request paths, the
  `enabled` predicates and the map-station filter.
- **End to end** (`EndToEnd`): a request through the proxy, unwrapped on the client and
  classified; how a provider-level error is cached; and how client ids map to cache keys.

Numbers are `real` (AQI readings, pollutant values, bounds) or `int` (uids, millisecond
timestamps); the upstream payload is a type parameter.

Behaviours of the code worth knowing, all modelled as written:

- Map bounds default one corner at a time (JavaScript destructuring defaults), so `lat1=10`
  alone gives the key `map:10:-180:90:180`, not the whole-world key `map:-90:-180:90:180`
  (`Proxy.MapDefaults`).
- The bounds are joined with an unescaped `:`, so two bounding boxes that differ only in where a
  `:` sits share one cache entry (`Proxy.MapKeyAmbiguous`).
- A reading in a gap between bands (50.5, 100.5, ...) is rated hazardous, like negative readings
  and readings above 500 (`AqiLevels.UncoveredIsHazardous`, `AqiLevels.GapBreaksMonotonicity`).
- A provider answer with status `'error'` is stored in the cache and served for the whole TTL
  (`EndToEnd.LogicalErrorIsCached`).

## Model

| member | source | states |
|---|---|---|
| AqiLevels.FirstMatch | src/types/index.ts:128 | the scan returns the first band whose inclusive bounds contain the reading, and none only when no band of the list does |
| AqiLevels.GetAQILevel | src/types/index.ts:127-129 | the result is always a band of the table; it contains the reading when some band does, and is the last (hazardous) band otherwise |
| AqiLevels.GetAQIColor | src/types/index.ts:131-133 | the colour is always one of the six band colours |
| AqiLevels.RangesWellFormed | src/types/index.ts:14-21 | six bands, starting at 0 and ending at 500, each with min < max, each max + 1 equal to the next min, levels in severity order |
| AqiLevels.RangesAscending | src/types/index.ts:14-21 | every band lies entirely below every later band |
| AqiLevels.BandsDisjoint | src/types/index.ts:14-21 | no reading lies in two bands |
| AqiLevels.CoveredIff | src/types/index.ts:14-21 | the readings some band contains are exactly the six closed intervals [0,50], [51,100], [101,150], [151,200], [201,300], [301,500] |
| AqiLevels.ClassifyIntegerReading | src/types/index.ts:127-129 | every integer from 0 to 500 is classified into the unique band that contains it |
| AqiLevels.ClassifyInBand | src/types/index.ts:127-133 | a reading inside a band is classified as that band and gets its colour |
| AqiLevels.BoundariesExact | src/types/index.ts:14-21 | 0 and 50 are good, 51 and 100 moderate, 101 and 150 unhealthy-for-sensitive, 151 and 200 unhealthy, 201 and 300 very unhealthy, 301 and 500 hazardous |
| AqiLevels.UncoveredIsHazardous | src/types/index.ts:128 | negative readings, readings above 500 and fractional readings in the gaps between bands all fall back to hazardous |
| AqiLevels.Saturation | src/types/index.ts:127-129 | every reading of 301 or more, however large, gets the same band as 500 |
| AqiLevels.MonotoneOnCovered | src/types/index.ts:14-21 | among readings inside the bands, a larger reading never gets a less severe band |
| AqiLevels.GapBreaksMonotonicity | src/types/index.ts:128 | the fall-back makes 50.5 more severe than 51 |
| AqiLevels.ColorIdentifiesBand | src/types/index.ts:131-133 | two readings get the same colour exactly when they get the same band |
| TtlCache.EmptyCache | server/index.ts:19 | the proxy starts with no entries |
| TtlCache.GetCached | server/index.ts:22-28 | a payload is returned exactly when the key has an entry less than 300000 ms old at the given time, and it is the stored payload |
| TtlCache.SetCache | server/index.ts:30-32 | the key gets the payload stamped with the given time; every other entry is kept as it was |
| TtlCache.SetThenGet | server/index.ts:20-32 | a stored payload is served back unchanged while its age is below the TTL and not once it reaches it |
| TtlCache.ExpiryBoundary | server/index.ts:24 | an entry is a hit at age TTL - 1 ms and a miss at age exactly TTL |
| TtlCache.SetLeavesOtherKeys | server/index.ts:30-32 | storing under one key leaves what every other key serves unchanged |
| TtlCache.SetReplaces | server/index.ts:30-32 | storing twice under one key keeps only the second payload and timestamp |
| Proxy.Serve | server/index.ts:40-51 | a fresh entry is served with no upstream call and no cache change; otherwise one upstream call, whose body is stored and returned, or whose failure gives 500 with the route message and leaves the cache unchanged; every other key keeps exactly its entry |
| Proxy.HandleFeed | server/index.ts:35-52 | failures answer 500 "Failed to fetch data"; a 200 leaves its payload served under `feed:` + city |
| Proxy.HandleSearch | server/index.ts:55-75 | 400 "Keyword required" exactly when the keyword is missing or empty, then with the cache untouched and no upstream call; failures answer 500 "Search failed"; a 200 leaves its payload served under `search:` + keyword |
| Proxy.HandleMapBounds | server/index.ts:78-97 | failures answer 500 "Failed to fetch map data"; with no bounds given a 200 leaves its payload served under `map:-90:-180:90:180` |
| Proxy.Handle | server/index.ts:35-97 | at most one upstream call; the status is 200, 400 or 500; 400 exactly for a search without a usable keyword, with nothing else happening; 500 carries the route's message and leaves the cache as it was; every other request follows the shared cache pattern with its route's key |
| Proxy.StaleEntryKept | server/index.ts:22-28 | an expired entry is not served, and it stays stored when the fresh fetch fails: reads never purge |
| Proxy.UpstreamCallsExactly | server/index.ts:35-97 | a request calls upstream exactly when it passes validation and its key has no fresh entry |
| Proxy.SearchValidation | server/index.ts:57-60 | a search with a missing or empty keyword answers 400, leaves the cache as it was and calls nobody |
| Proxy.MissThenHit | server/index.ts:40-47 | a miss calls upstream once and returns its body; a repeat within the TTL calls nobody, returns the same body and leaves the cache as it is |
| Proxy.FailureNotCached | server/index.ts:48-51 | a failed fetch answers 500 with the route message and leaves the cache as it was, so a later request calls upstream again |
| Proxy.RoutesIsolated | server/index.ts:38-81 | a request of one route leaves the entry of another route's key exactly as it was (present or absent, same payload and timestamp), so that key serves the same at every time |
| Proxy.KeysNamespaced | server/index.ts:38-81 | feed, search and map keys never coincide |
| Proxy.KeysInjective | server/index.ts:38-62 | two cities, or two keywords, share a cache entry only when they are equal |
| Proxy.MapDefaults | server/index.ts:80-81 | with no bounds the key is `map:-90:-180:90:180`; each omitted bound is defaulted on its own |
| Proxy.MapKeyAmbiguous | server/index.ts:81 | two different bounding boxes share a key when a bound contains `:` |
| Proxy.HandleKeepsNamespaced | server/index.ts:35-97 | after any request every cached key still starts with `feed:`, `search:` or `map:` |
| Proxy.Replay | server/index.ts:19-97 | over any run of requests the upstream calls number at most the requests, keys are only ever added, and namespacing is kept |
| Store.Initial | src/store/index.ts:8-11 | the store starts dark, with no favourites, no selected city and an empty compare list, and satisfies the invariant |
| Store.ToggleTheme | src/store/index.ts:13-16 | the theme changes and nothing else does |
| Store.ToggleThemeTwice | src/store/index.ts:13-16 | toggling twice gives back the original state |
| Store.AddFavorite | src/store/index.ts:18-23 | a city whose uid is already a favourite changes nothing; otherwise it is appended at the end; afterwards the uid is a favourite, uids stay unique, and the other fields are untouched |
| Store.DropUid | src/store/index.ts:27 | the kept favourites are exactly those whose uid differs |
| Store.DropUidKeepsUnique | src/store/index.ts:25-28 | removing keeps favourite uids unique |
| Store.DropAbsentUid | src/store/index.ts:25-28 | removing a uid no favourite has changes nothing |
| Store.DropUidAppend | src/store/index.ts:27 | filtering a concatenation filters each part, so the kept favourites keep their order |
| Store.RemoveFavorite | src/store/index.ts:25-28 | exactly the favourites with the uid are gone, uniqueness is kept, the other fields are untouched |
| Store.AddThenRemoveFavorite | src/store/index.ts:18-28 | adding a city with a new uid and removing that uid restores the state |
| Store.SetSelectedCity | src/store/index.ts:30-31 | only the selected city changes |
| Store.AddToCompare | src/store/index.ts:33-40 | a uid already listed, or a full list of three, changes nothing; otherwise the uid is appended; length at most 3 and no duplicates are kept; other fields are untouched |
| Store.Without | src/store/index.ts:44 | the kept uids are exactly those different from the removed one, and duplicates are not introduced |
| Store.WithoutAppend | src/store/index.ts:44 | filtering a concatenation filters each part, so the kept uids keep their order |
| Store.RemoveFromCompare | src/store/index.ts:42-45 | exactly that uid leaves the compare list; no duplicates are introduced; other fields are untouched |
| Store.AddThenRemoveCompare | src/store/index.ts:33-45 | adding an accepted uid and removing it restores the state |
| Store.ClearCompare | src/store/index.ts:47-48 | the compare list is empty and nothing else changes |
| Store.Partialize | src/store/index.ts:52-55 | the snapshot holds exactly the theme and the favourites |
| Store.RunFromValid | src/store/index.ts:13-48 | any run of actions from a state with unique favourite uids and a short duplicate-free compare list keeps those properties |
| Store.RunKeepsValid | src/store/index.ts:7-49 | every state reachable from the initial one satisfies the invariant |
| Store.SessionActionsNotPersisted | src/store/index.ts:30-55 | selection and compare actions never change the persisted snapshot |
| PollutantChart.BarColorIndex | src/components/PollutantChart.tsx:25-32 | the chosen colour is the first whose threshold the value does not exceed, the sixth when it exceeds them all (a missing threshold counts as exceeded) |
| PollutantChart.GetBarColor | src/components/PollutantChart.tsx:25-32 | the colour is one of the six, and it is green exactly when the value is at most the first threshold |
| PollutantChart.TableThresholdsAscending | src/components/PollutantChart.tsx:16-23 | every pollutant has five strictly ascending thresholds |
| PollutantChart.BarColorBands | src/components/PollutantChart.tsx:25-32 | with ascending thresholds colour k is chosen exactly for values in (thresholds[k-1], thresholds[k]], and the darkest exactly for values above thresholds[4] |
| PollutantChart.ThresholdsInclusive | src/components/PollutantChart.tsx:26-30 | a value equal to thresholds[k] gets colour k |
| PollutantChart.BarColorMonotone | src/components/PollutantChart.tsx:17-32 | with ascending thresholds a larger value never gets a cleaner colour |
| PollutantChart.BarColorsAreBandColors | src/components/PollutantChart.tsx:26-31 | the six bar colours are the six AQI band colours in the same order |
| PollutantChart.Entries | src/components/PollutantChart.tsx:35-51 | every bar comes from a table row whose key has a reading, with that row's label, unit and thresholds and the reading unchanged; every such row gives a bar |
| PollutantChart.EntriesLength | src/components/PollutantChart.tsx:35-51 | there is one bar per table row whose key has a reading |
| PollutantChart.EntriesInTableOrder | src/components/PollutantChart.tsx:35-45 | bars come out in table order |
| PollutantChart.EntriesIgnoreOtherKeys | src/components/PollutantChart.tsx:35-38 | readings under keys outside the table do not affect the bars |
| PollutantChart.ChartDataShape | src/components/PollutantChart.tsx:35-51 | for the real table: one bar per present pollutant, in the order pm25, pm10, o3, no2, so2, co, and the weather readings t, h, w, p change nothing |
| PollutantChart.EmptyChartIff | src/components/PollutantChart.tsx:53-59 | the "no pollutant data" branch is taken exactly when none of the six pollutant keys has a reading |
| Queries.Unwrap | src/hooks/useAQI.ts:14-16 | the data is returned exactly when the status is `'ok'`; otherwise the error carries the hook's message |
| Queries.NatString | src/hooks/useAQI.ts:14 | an integer id renders as a non-empty string of decimal digits without a leading zero |
| Queries.NatStringRoundTrip | src/hooks/useAQI.ts:14 | reading the rendered digits back gives the number |
| Queries.IntStringInjective | src/hooks/useAQI.ts:14 | different integer ids render differently |
| Queries.CityRequest | src/hooks/useAQI.ts:10-19 | the query runs exactly when the id is truthy (not absent, not empty, not 0), and then requests `/feed/@` followed by the id |
| Queries.CityRequestsDistinct | src/hooks/useAQI.ts:14 | different numeric ids request different paths |
| Queries.CityByNameRequest | src/hooks/useAQI.ts:23-32 | the query runs exactly for a non-empty name and requests `/feed/` followed by the encoded name |
| Queries.CityByNameInjective | src/hooks/useAQI.ts:27 | with an injective encoder, two different non-empty names request different paths |
| Queries.SearchPath | src/hooks/useAQI.ts:36-46 | the query runs exactly when the text has at least two characters, and requests `/search?keyword=` followed by the encoded text |
| Queries.MapParams | src/hooks/useAQI.ts:49-55 | given bounds are sent as they are; without bounds the whole world -90, -180, 90, 180 is sent |
| Queries.KeepPlottable | src/hooks/useAQI.ts:57 | the kept stations are exactly those whose `aqi` is a number above 0 |
| Queries.KeepPlottableAppend | src/hooks/useAQI.ts:57 | filtering a concatenation filters each part, so kept stations keep their order |
| Queries.KeepPlottableIdentity | src/hooks/useAQI.ts:57 | a list of plottable stations passes through unchanged, so filtering twice is filtering once |
| Queries.StationsResult | src/hooks/useAQI.ts:52-58 | an `'ok'` envelope yields exactly its plottable stations; any other status yields "Failed to fetch stations" |
| Queries.GeoRequest | src/hooks/useAQI.ts:64-73 | the query runs exactly when both coordinates are defined, and requests `/feed/geo:` lat `;` lng |
| Queries.GeoPathsAreNotCityPaths | src/hooks/useAQI.ts:14-68 | a coordinate lookup never requests the same path as a city-id lookup (`/feed/geo:` against `/feed/@`) |
| Queries.GeoRequestInjective | src/hooks/useAQI.ts:68 | different coordinates request different paths when the latitude text holds no `;` |
| EndToEnd.FeedScenario | server/index.ts:35-52 | a city feed fetched on an empty cache reaches the client verbatim with status 200, unwraps to its data, and a reading of 42 is good |
| EndToEnd.LogicalErrorIsCached | server/index.ts:45-47 | a city feed whose provider status is `'error'` is answered with 200, served from the cache for the TTL, and only rejected by the client |
| EndToEnd.CityPathCarriesParam | src/hooks/useAQI.ts:14 | the client's path for a numeric id is `/feed/` followed by `@` and the id, and that parameter holds no `/`, so it is the whole `:city` segment the proxy route binds |
| EndToEnd.DistinctCitiesDistinctEntries | server/index.ts:38 | two different numeric city ids never share a proxy cache entry |
| EndToEnd.WorldRequestIsDefaultEntry | src/hooks/useAQI.ts:54 | the whole world the client sends without bounds, rendered as -90, -180, 90, 180, has the proxy key of a request with no bounds |
| EndToEnd.EnabledSearchAccepted | src/hooks/useAQI.ts:40-44 | a search the client sends (two characters or more), once its encoding is undone, is never answered 400 by the proxy: the status is 200 or 500 |

## Left out

- Express, axios and `fetch` plumbing, `console.error`, the port and token environment defaults, `app.listen` and the health route: I/O; the upstream outcome and the clock are parameters instead.
- Upstream URL assembly and `encodeURIComponent`: foreign library behaviour; the client's encoder is a function parameter, and the upstream URL is not modelled.
- The `if (cached)` truthiness test: a hit is modelled as `Some(payload)`, since provider bodies are objects.
- The time an entry is stamped with: the model uses the request's `now` for both the lookup and the store, while the server reads the clock again after the upstream call returns.
- Concurrent requests for the same key: requests are handled one after another; the server does no coalescing.
- Array-valued query parameters (`?keyword=a&keyword=b`): Express query values are modelled as single strings.
- The serverless functions under `api/`: they have no cache; their `s-maxage` headers (300 s for feed and search, 600 s for map bounds) and the client's ten-minute `staleTime` for stations differ from the proxy's five-minute TTL, and the model does not reconcile them.
- NaN and infinite numbers: readings are reals, so a NaN reading (which JavaScript would also send to the hazardous fall-back) is not represented.
- Queries.NatString: numeric city ids are taken as integers below 10^21 in magnitude (station uids); JavaScript renders larger numbers in exponent form (`1e+21`), cannot hold integers above 2^53 exactly, and renders non-integer ids such as `1.5` with a decimal point, none of which is modelled.
- Queries.SearchPath: counts characters, whereas JavaScript's `length` counts UTF-16 code units, so a query of one character outside the Basic Multilingual Plane is enabled in the source and not in the model.
- Queries.GeoRequest: takes the coordinates in the text a template literal renders them as; JavaScript's number-to-string formatting of non-integers is not modelled.
- `useUserLocation`: browser geolocation, I/O.
- Zustand's `persist` storage and react-query caching and retries: only the reducer bodies, `partialize`, and each `queryFn`/`enabled` are modelled.
- All rendering: the globe, gauge, forecast chart, weather widget, layout, search bar and pages.
