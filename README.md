# Places caching proxy, modelled in Dafny

The system is a caching proxy in front of a places/geocoding provider. Four
request handlers (search, nearby, geocode, details) check a response cache,
and search also a local table of places, before calling the provider. Places
that search discovers are stored with get-or-create. Each handler first runs
a middleware that admits internal requests and checks bearer tokens against a
token table.

The model keeps the shared state the handlers change in one object,
`Views.Service`:

- `cache`: a map from key strings to JSON bodies, with Python truthiness;
- `tokens` and `places`: the two tables, as sequences of rows;
- `calls`: a log of every request sent to the provider.

The provider is an oracle `upstream: Request -> Reply` passed to every
handler. "No upstream call" means `calls` is unchanged. An uncaught Python
exception is the response `ServerError` (HTTP 500). Examples are a missing
key read with `item[...]`, `.get` on a JSON list, an over-long insert, or a
duplicated token.

Modules:

- `Text`: `startswith`, `split(" ")`, and the `icontains` substring test;
- `Models`: the `Token` and `Place` rows and the place-table invariant
  (`place_id` unique, declared lengths respected);
- `Upstream`: provider records, replies and the five request shapes;
- `Shapes`: bodies, cache keys, truthiness and the response projections;
- `Auth`: the middleware;
- `Search`: the value-level meaning of the search tiers;
- `Views`: the handlers as methods of `Service`;
- `Scenarios`: client methods that run handlers on a fresh service and state
  what a caller observes.

Behaviour the model pins down:

- A falsy cached value counts as a miss. An empty cached listing makes the
  next identical search ask the provider again.
- The fetch helper caches the raw provider object under the handler's own
  key. The handler then overwrites it with the shaped answer. When the handler
  answers 404 or raises, the raw object stays, and the next identical
  geocode or forward-mode details request gets a 200 with that raw object
  (`Scenarios.GeocodeMissThenRawHit`, `Scenarios.DetailsMissThenRawHit`).
  Reverse-mode details shapes the cached raw object again, so a reply
  without results gives a 404 each time (views.py:204-207,
  `Scenarios.ReverseWithoutResults`).
- `Bearer a b` authorizes as `a`. `Bearer  a` (two spaces) authorizes as the
  empty string.
- The token column is not unique. Two rows with the same string make
  `objects.get` raise, so holders of that token get a 500.
- Reverse-mode details share the `details:` key space with forward mode.
  They go through the fetch helper, so they can be answered from a cached
  value.
- An absent `country` and the literal country `None` share one geocode key.
- An absent `limit` means 10 (views.py:56).
- `limit=0` skips the local tier even when stored names match, so the
  provider is asked. On a truthy 200 reply the answer is an empty list. A
  failed or falsy reply is a 503 (views.py:80-81).

Further facts about the code that the model follows:

- Forward details with no `result` still caches the raw 200 object. The
  write is at views.py:37, before the 404 at views.py:226-227.
- Reverse details caches its raw reply, and the fetch helper can answer it
  from the cache (views.py:204).
- Geocode and details answer 404, not 503, when the provider call fails
  (views.py:172-173, 226-227).
- A cached value is used only when it is truthy, not whenever it is present
  (views.py:28, 62). `Shapes.CacheHit` is that test, and every handler
  contract uses it.
- `limit` may be 0.

## Model

| member | source | states |
|---|---|---|
| `Text.Split` | application/views.py:18 | `split(" ")` gives at least one field; it gives two or more exactly when the text has a space, and no field contains the separator |
| `Text.SplitJoin` | application/views.py:18 | joining the fields of a split with the separator gives back the input |
| `Text.ContainsIff` | application/views.py:66 | the recursive substring test holds iff the needle occurs at some position (both directions) |
| `Text.ContainsIgnoringCaseIff` | application/views.py:66 | `icontains` holds iff the lower-cased query occurs in the lower-cased name |
| `Models.FindPlace` | application/models.py:12 | lookup by `place_id` returns the first row carrying that id, or none when no row does |
| `Models.FindPlaceUnique` | application/models.py:12 | in a table with unique ids, the lookup finds the one row with that id |
| `Models.FindPlaceExtends` | application/views.py:85-94 | a successful lookup keeps its answer when rows are appended |
| `Models.AppendFreshPlace` | application/models.py:12-17 | inserting a row whose id is absent and whose columns fit keeps the table valid |
| `Auth.BearerSplit` | application/views.py:18 | a header starting with `Bearer ` splits into at least two fields; the second is the first field of the text after the prefix |
| `Auth.ExtractToken` | application/views.py:18 | with the bearer prefix, the token is the longest space-free prefix of the rest; without it, the whole header |
| `Auth.BearerToken` | application/views.py:18 | `Bearer <t>` and `Bearer <t> <rest>` both yield `t` for a space-free `t` |
| `Auth.CountToken` | application/views.py:19-22 | the number of token rows for a string is zero iff no row has it, and at most one when strings are distinct |
| `Auth.Middleware` | application/views.py:11-23 | an internal request passes; a missing header is a 401 "Authorization header missing"; a 401 "Invalid or expired token" comes iff no row holds the token; passing implies internal or a held token |
| `Auth.CountAtMostOne` | application/views.py:19-22 | a string that no two rows hold is counted at most once, whatever other strings repeat |
| `Auth.AdmittedIffTokenRow` | application/views.py:13-22 | when no two rows hold the request's token, a request passes iff it is internal or its token is a row; other strings may repeat |
| `Auth.CountTwo` | application/views.py:20 | two rows with the same string are counted at least twice |
| `Auth.DuplicateTokenRaises` | application/views.py:19-22 | two rows holding the request's token make the check answer a server error |
| `Auth.OverlongTokenRejected` | application/models.py:6 | a token longer than 255 characters never matches a stored row and gets a 401 |
| `Shapes.GeocodeKeyNoneCollides` | application/views.py:161 | an absent country and the country `None` give the same cache key |
| `Shapes.ReverseKeyCollides` | application/views.py:204-217 | the reverse-mode key for lat and lng equals the forward-mode key for the place id `lat:lng` |
| `Shapes.CacheHit` | application/views.py:27-28 | a cached value is used only if its key is present; an empty list and an empty upstream object count as misses; a shaped geocode, details or reverse record is always a hit |
| `Shapes.ItemsOrEmpty` | application/views.py:84 | `data.get("results", [])` raises exactly on a JSON list and gives the results or `[]` on an upstream object |
| `Shapes.ShapeNearby` | application/views.py:133-141 | one entry per upstream result, in order, with name, `vicinity` as address, lat and lng; it raises iff some result lacks name or location |
| `Shapes.GeoOf` | application/views.py:175-179 | the geocode result exists iff lat, lng and formatted address are present, and carries exactly those |
| `Shapes.DetailsOf` | application/views.py:229-236 | the details record exists iff the location is present; name, address, phone and website are copied as they are, possibly null |
| `Search.Matching` | application/views.py:66 | the filter keeps exactly the stored places whose name contains the query case-insensitively |
| `Search.MatchingCounts` | application/views.py:66 | each matching row is kept as often as the table holds it, and every other row is dropped |
| `Search.Take` | application/views.py:66 | the slice `[:n]` has `min(n, len)` elements and they are the first ones |
| `Search.LocalHitsSpec` | application/views.py:66-67 | the local tier answers iff `limit > 0` and some stored name matches; it returns at most `limit` matching stored places |
| `Search.LocalListingLength` | application/views.py:66-73 | a store-answered search has `min(limit, #matches)` entries |
| `Search.Defaults` | application/views.py:87-93 | the defaults record exists iff the item has `place_id`, `name`, lat and lng; it copies them, takes the formatted address as it is (possibly null) and records the query |
| `Search.GetOrCreate` | application/views.py:85-94 | get-or-create raises iff a required key is missing, or the id is new and the row does not fit its columns; otherwise the table is unchanged or gains exactly the returned row |
| `Search.GetOrCreateSpec` | application/views.py:85-94 | get-or-create keeps the table valid and only appends; its row is the table's row for the item's id; either nothing changed or exactly the defaults were inserted |
| `Search.UpsertAll` | application/views.py:83-100 | the loop over the results gives one entry per item when it completes, and fewer entries than items when an item raises |
| `Search.UpsertAllSpec` | application/views.py:83-100 | the loop keeps the table valid, append-only; when it completes it has one entry per item, each mirroring the stored row for that item's id |
| `Search.UpstreamListingLength` | application/views.py:84-100 | an upstream-answered search has `min(limit, #results)` entries |
| `Search.RaisedIsFinal` | application/views.py:83-94 | after an exception later items change nothing; the rows inserted before it remain |
| `Search.FirstWriteWins` | application/views.py:85-100 | an item whose id is already stored is answered with the old row, not the fresh upstream record |
| `Search.InsertedRowsFromItems` | application/views.py:85-94 | every inserted row is the defaults of some upstream item and carries the query |
| `Search.NoRaiseWhenInsertable` | application/views.py:85-94 | when every item has its required keys and fits the columns, the loop does not raise |
| `Views.NearbyAnswer` | application/views.py:130-141 | 503 iff the fetch gave nothing or a falsy object; a 200 is the nearby shape of the results, and a truthy object whose results all have name and location gets that 200 |
| `Views.GeocodeAnswer` | application/views.py:172-179 | 404 iff there is no object or no non-empty `results`; a 200 shapes the first result only, and a first result with lat, lng and formatted address gets that 200 |
| `Views.ReverseAnswer` | application/views.py:206-214 | 404 iff there are no results; a 200 has the first result's formatted address and echoes the request's lat and lng, and a first result with a formatted address gets that 200 |
| `Views.DetailsAnswer` | application/views.py:226-236 | 404 iff the object is missing, falsy or has no `result`; a 200 is the details record of `result`, and a `result` with a location gets that 200 |
| `Views.Service.constructor` | application/models.py:10-17 | a service starts with an empty cache and no upstream calls, over a valid place table |
| `Views.Service.FetchGoogleData` | application/views.py:26-38 | a truthy hit is returned with no call; a miss makes one call; status 200 caches and returns the raw object; any other status returns none and leaves the cache |
| `Views.Service.Search` | application/views.py:49-103 | middleware, then 400 "Query is required", then the truthy cache hit verbatim, then the local tier with `limit` (10 when absent) (cache written, no call, table unchanged), then upstream: 503 when the fetch fails or is falsy, else the get-or-create fold, with the shaped list replacing the raw object in the cache; the table stays valid |
| `Views.Service.Nearby` | application/views.py:108-144 | middleware, 400 without lat and lng, a cache hit verbatim, else one nearby call with `lat,lng` and the radius (default 1000); the shaped list replaces the raw object unless the answer is an error; the place table is outside its frame |
| `Views.Service.Geocode` | application/views.py:149-182 | middleware, 400 without an address; the region is sent only for a truthy country; a 404 leaves the raw object cached; a 200 caches the first-result shape |
| `Views.Service.Details` | application/views.py:187-239 | middleware, 400 unless a place id or both coordinates are given; reverse mode answers through the fetch helper and never caches its shaped answer; forward mode 404s without `result` and caches the six-field record on success |
| `Scenarios.BearerAdmitted` | application/views.py:18-23 | a held bearer token passes the middleware |
| `Scenarios.RepeatedSearchHitsCache` | application/views.py:60-63 | a repeated search with results is answered from the cache, with one upstream call in all |
| `Scenarios.EmptySearchAsksAgain` | application/views.py:61-63 | the first search answers an empty list and leaves the empty list cached under its key; that entry counts as a miss, so the repeat asks upstream again, with two calls in all |
| `Scenarios.GeocodeMissThenRawHit` | application/views.py:171-173 | a geocode with no results is a 404, and the repeat gets a 200 with the raw upstream object |
| `Scenarios.DetailsMissThenRawHit` | application/views.py:224-227 | a details reply without `result` is a 404, and the repeat gets a 200 with the raw object |
| `Scenarios.ReverseWithoutResults` | application/views.py:200-207 | reverse mode with no results is a 404 "No details found"; only the raw reply is cached; the repeat is a 404 again with one upstream call in all |
| `Scenarios.CoffeeAt` | application/views.py:66 | an occurrence of "coffee" in the lower-cased name makes the place match |
| `Scenarios.LocalSearchSkipsUpstream` | application/views.py:65-73 | two stored places matching "coffee" with limit 2 give both entries and no upstream call |
| `Scenarios.KnownPlaceKeepsStoredFields` | application/views.py:85-100 | a stored place keeps its name and address against a newer upstream record, and the table is unchanged |

## Left out

- HTTP, `requests.get`, the provider URL and API key, and JSON decoding are not modelled. A reply is a status and an already-decoded object. Non-object JSON bodies and decoding failures are not modelled.
- There are no timeouts on upstream calls, because time is not modelled.
- Cache expiry (`timeout=3600`) is not modelled. Entries never expire and are never evicted, because time is not modelled.
- Coordinates are opaque strings copied through. Float parsing and arithmetic are not modelled.
- Concurrency is not modelled: simultaneous requests, cache stampedes, and the insert race inside `get_or_create`.
- The log line at views.py:29 is I/O only and is left out.
- The `application` view (views.py:43-44) only renders a template and is left out.
- `limit` is absent or a natural number. A non-integer `limit` (an `int()` failure) and a negative `limit` (negative slicing) are not modelled.
- Search.Matching: returns matches in table order. The database's order for an unordered filter is unspecified, so the model fixes one admissible order.
- Search.NameMatches: folds ASCII letters only. Full Unicode case folding and database collations are not modelled.
- Search.GetOrCreate: assumes a database that enforces the declared 255-character lengths and raises on an over-long insert. SQLite does not enforce them.
- Search.UpsertAll: assumes the default autocommit. Rows inserted before an exception stay, because no request-wide transaction is modelled.
- Auth.CountToken: compares token strings exactly. A case-insensitive database collation is not modelled.
- A JSON `null` value is treated like an absent key.
- Surrogate `id` columns and the `created_at`/`updated_at` timestamps are not read by any handler and are left out.
- The routing table (application/urls.py) is not part of this model. It exposes only `/` and `api/search`; the other handlers are modelled anyway.
- The admin registration (application/admin.py) is not part of this model; it has no behaviour.
- The serializer (application/dto.py) is not part of this model; no view uses it.
