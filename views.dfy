/**
 * The request handlers over the shared state they update: the response
 * cache, the token and place tables, and the log of upstream requests made.
 * Every handler runs the middleware first; the upstream provider is the
 * oracle `upstream`, queried only where the handler calls the fetch helper.
 */
module Views {
  import opened Wrappers
  import opened Models
  import opened Upstream
  import opened Shapes
  import opened Auth
  import opened Search

  const LatLngRequired := "lat and lng are required"
  const AddressRequired := "Address is required"
  const NoResults := "No results found"
  const IdOrLatLngRequired := "place_id OR lat & lng required"
  const NoDetails := "No details found"

  /** What the fetch helper returns after calling upstream: the object on status 200, else `None`. */
  function Downloaded(reply: Reply): Option<Body> {
    if reply.status == StatusOk then Some(Raw(reply.payload)) else None
  }

  /** The cache after the fetch helper's write, which happens only for a downloaded object. */
  function CacheRaw(cache: map<string, Body>, key: string, data: Option<Body>): map<string, Body> {
    if data.Some? then cache[key := data.value] else cache
  }

  /**
   * Nearby after the fetch: a missing or falsy object is a 503; otherwise one
   * entry per result, raising when a result lacks a required key.
   */
  function NearbyAnswer(data: Option<Body>): (r: Response)
    ensures r == Error(ServiceUnavailable, UpstreamFailed) <==> data.None? || !Truthy(data.value)
    ensures r.Ok? ==>
      && data.Some?
      && r.body.Listing?
      && ItemsOrEmpty(data.value).Some?
      && ShapeNearby(ItemsOrEmpty(data.value).value) == Some(r.body.entries)
    ensures (data.Some? && Truthy(data.value) && ItemsOrEmpty(data.value).Some?
             && ShapeNearby(ItemsOrEmpty(data.value).value).Some?) ==>
      r == Ok(Listing(ShapeNearby(ItemsOrEmpty(data.value).value).value))
  {
    if data.None? || !Truthy(data.value) then Error(ServiceUnavailable, UpstreamFailed)
    else match ItemsOrEmpty(data.value)
      case None => ServerError
      case Some(items) =>
        match ShapeNearby(items)
        case None => ServerError
        case Some(entries) => Ok(Listing(entries))
  }

  /** `not data or not data.get('results')`, where the `.get` raises on a JSON list. */
  predicate NoResultsIn(data: Option<Body>) {
    data.None? || !Truthy(data.value) || ResultsOf(data.value).Absent? || ResultsOf(data.value) == Present([])
  }

  /** Geocode after the fetch: 404 without results, otherwise the first result only. */
  function GeocodeAnswer(data: Option<Body>): (r: Response)
    ensures r == Error(NotFound, NoResults) <==> NoResultsIn(data)
    ensures r.Ok? ==>
      && data.Some?
      && ResultsOf(data.value).Present?
      && |ResultsOf(data.value).value| > 0
      && GeoOf(ResultsOf(data.value).value[0]) == Some(r.body)
    ensures (!NoResultsIn(data) && ResultsOf(data.value).Present?
             && GeoOf(ResultsOf(data.value).value[0]).Some?) ==>
      r == Ok(GeoOf(ResultsOf(data.value).value[0]).value)
  {
    if NoResultsIn(data) then Error(NotFound, NoResults)
    else match ResultsOf(data.value)
      case Present(items) =>
        (match GeoOf(items[0])
         case None => ServerError
         case Some(g) => Ok(g))
      case _ => ServerError
  }

  /**
   * Reverse-mode details after the fetch: 404 without results, otherwise the
   * first result's formatted address with the request's own lat and lng.
   */
  function ReverseAnswer(data: Option<Body>, lat: string, lng: string): (r: Response)
    ensures r == Error(NotFound, NoDetails) <==> NoResultsIn(data)
    ensures r.Ok? ==>
      && data.Some?
      && ResultsOf(data.value).Present?
      && |ResultsOf(data.value).value| > 0
      && r.body.Reverse?
      && Some(r.body.addressText) == ResultsOf(data.value).value[0].formattedAddress
      && r.body.lat == lat && r.body.lng == lng
    ensures (!NoResultsIn(data) && ResultsOf(data.value).Present?
             && ResultsOf(data.value).value[0].formattedAddress.Some?) ==>
      r == Ok(Reverse(ResultsOf(data.value).value[0].formattedAddress.value, lat, lng))
  {
    if NoResultsIn(data) then Error(NotFound, NoDetails)
    else match ResultsOf(data.value)
      case Present(items) =>
        (match items[0].formattedAddress
         case None => ServerError
         case Some(a) => Ok(Reverse(a, lat, lng)))
      case _ => ServerError
  }

  /** Forward-mode details after the fetch: 404 without a `result` key, otherwise its six fields. */
  function DetailsAnswer(data: Option<Body>): (r: Response)
    ensures r == Error(NotFound, NoDetails) <==>
      data.None? || !Truthy(data.value) || ResultOf(data.value).None?
    ensures r.Ok? ==>
      && data.Some?
      && ResultOf(data.value).Some?
      && DetailsOf(ResultOf(data.value).value) == Some(r.body)
    ensures (data.Some? && Truthy(data.value) && ResultOf(data.value).Some?
             && DetailsOf(ResultOf(data.value).value).Some?) ==>
      r == Ok(DetailsOf(ResultOf(data.value).value).value)
  {
    if data.None? || !Truthy(data.value) || ResultOf(data.value).None? then Error(NotFound, NoDetails)
    else match DetailsOf(ResultOf(data.value).value)
      case None => ServerError
      case Some(d) => Ok(d)
  }

  class Service {
    var cache: map<string, Body>
    var tokens: seq<Token>
    var places: seq<Place>
    /** Every upstream request made, in order. */
    var calls: seq<Request>

    ghost predicate Valid()
      reads this
    {
      StoreValid(places)
    }

    /** Neither the cache, nor the place table, nor the upstream log changed. */
    twostate predicate Untouched()
      reads this
    {
      cache == old(cache) && places == old(places) && calls == old(calls)
    }

    constructor (tokens: seq<Token>, places: seq<Place>)
      requires StoreValid(places)
      ensures Valid()
      ensures this.tokens == tokens && this.places == places
      ensures cache == map[] && calls == []
    {
      this.tokens := tokens;
      this.places := places;
      cache := map[];
      calls := [];
    }

    /**
     * `fetch_google_data`: a truthy cached value is returned as it is, with no
     * upstream call; otherwise upstream is asked once, and a 200 reply's object
     * is cached raw under `key` and returned, any other status gives `None`.
     */
    method FetchGoogleData(key: string, request: Request, upstream: Request -> Reply)
      returns (data: Option<Body>)
      modifies this`cache, this`calls
      ensures CacheHit(old(cache), key) ==>
        data == Some(old(cache)[key]) && cache == old(cache) && calls == old(calls)
      ensures !CacheHit(old(cache), key) ==>
        && calls == old(calls) + [request]
        && data == Downloaded(upstream(request))
        && cache == CacheRaw(old(cache), key, data)
    {
      if CacheHit(cache, key) {
        return Some(cache[key]);
      }
      calls := calls + [request];
      var reply := upstream(request);
      if reply.status != StatusOk {
        return None;
      }
      data := Some(Raw(reply.payload));
      cache := cache[key := data.value];
    }

    /**
     * The search handler: authorization, then the query check, then the
     * three tiers: a truthy cache entry, the local store, and upstream with
     * get-or-create, whose shaped list replaces the raw object in the cache.
     */
    method Search(h: Headers, query: Option<string>, limit: Option<nat>, upstream: Request -> Reply)
      returns (resp: Response)
      requires Valid()
      modifies this`cache, this`places, this`calls
      ensures Valid()
      ensures Middleware(h, tokens).Some? ==> resp == Middleware(h, tokens).value && Untouched()
      ensures Middleware(h, tokens).None? && !Given(query) ==>
        resp == Error(BadRequest, QueryRequired) && Untouched()
      ensures Middleware(h, tokens).None? && Given(query) ==>
        var n := LimitOrDefault(limit);
        var q := query.value;
        var key := SearchKey(q);
        var local := LocalHits(old(places), q, n);
        var reply := upstream(TextSearch(q));
        && (CacheHit(old(cache), key) ==> resp == Ok(old(cache)[key]) && Untouched())
        && (!CacheHit(old(cache), key) && local != [] ==>
              && resp == Ok(Listing(ShapePlaces(local)))
              && cache == old(cache)[key := Listing(ShapePlaces(local))]
              && places == old(places) && calls == old(calls))
        && (!CacheHit(old(cache), key) && local == [] ==>
              && calls == old(calls) + [TextSearch(q)]
              && (reply.status != StatusOk || !PayloadTruthy(reply.payload) ==>
                    && resp == Error(ServiceUnavailable, UpstreamFailed)
                    && places == old(places)
                    && cache == CacheRaw(old(cache), key, Downloaded(reply)))
              && (reply.status == StatusOk && PayloadTruthy(reply.payload) ==>
                    var f := UpsertAll(old(places), Take(ResultList(reply.payload), n), q);
                    && places == f.rows
                    && (f.raised ==> resp == ServerError && cache == old(cache)[key := Raw(reply.payload)])
                    && (!f.raised ==>
                          resp == Ok(Listing(f.entries)) && cache == old(cache)[key := Listing(f.entries)])))
    {
      var denial := Middleware(h, tokens);
      if denial.Some? {
        return denial.value;
      }
      if !Given(query) {
        return Error(BadRequest, QueryRequired);
      }
      var n := LimitOrDefault(limit);
      var q := query.value;
      var key := SearchKey(q);
      if CacheHit(cache, key) {
        return Ok(cache[key]);
      }
      var local := LocalHits(places, q, n);
      if local != [] {
        var listing := Listing(ShapePlaces(local));
        cache := cache[key := listing];
        return Ok(listing);
      }
      var data := FetchGoogleData(key, TextSearch(q), upstream);
      if data.None? || !Truthy(data.value) {
        return Error(ServiceUnavailable, UpstreamFailed);
      }
      var items := Take(ItemsOrEmpty(data.value).value, n);
      ghost var rows0 := places;
      ghost var cache0 := cache;
      var results: seq<Entry> := [];
      var i := 0;
      while i < |items|
        invariant 0 <= i <= |items|
        invariant UpsertAll(rows0, items[..i], q) == Fold(places, results, false)
        invariant StoreValid(places)
        invariant cache == cache0 && calls == old(calls) + [TextSearch(q)]
      {
        GetOrCreateSpec(places, items[i], q);
        var step := GetOrCreate(places, items[i], q);
        assert items[..i + 1][..i] == items[..i];
        if step.Raised? {
          RaisedIsFinal(rows0, items, q, i + 1);
          return ServerError;
        }
        places := step.rows;
        results := results + [ShapePlace(step.place)];
        i := i + 1;
      }
      assert items[..i] == items;
      cache := cache[key := Listing(results)];
      resp := Ok(Listing(results));
    }

    /**
     * The nearby handler: never consults the place table (its frame leaves
     * `places` out); one entry per upstream result, address from `vicinity`.
     */
    method Nearby(h: Headers, lat: Option<string>, lng: Option<string>, radius: Option<string>,
                  upstream: Request -> Reply)
      returns (resp: Response)
      modifies this`cache, this`calls
      ensures Middleware(h, tokens).Some? ==> resp == Middleware(h, tokens).value && Untouched()
      ensures Middleware(h, tokens).None? && (!Given(lat) || !Given(lng)) ==>
        resp == Error(BadRequest, LatLngRequired) && Untouched()
      ensures Middleware(h, tokens).None? && Given(lat) && Given(lng) ==>
        var key := NearbyKey(lat.value, lng.value, RadiusText(radius));
        var request := NearbySearch(LatLng(lat.value, lng.value), RadiusText(radius));
        var data := Downloaded(upstream(request));
        && (CacheHit(old(cache), key) ==> resp == Ok(old(cache)[key]) && Untouched())
        && (!CacheHit(old(cache), key) ==>
              && calls == old(calls) + [request]
              && resp == NearbyAnswer(data)
              && cache == (if resp.Ok? then old(cache)[key := resp.body] else CacheRaw(old(cache), key, data)))
    {
      var denial := Middleware(h, tokens);
      if denial.Some? {
        return denial.value;
      }
      if !Given(lat) || !Given(lng) {
        return Error(BadRequest, LatLngRequired);
      }
      var key := NearbyKey(lat.value, lng.value, RadiusText(radius));
      if CacheHit(cache, key) {
        return Ok(cache[key]);
      }
      var data := FetchGoogleData(key, NearbySearch(LatLng(lat.value, lng.value), RadiusText(radius)), upstream);
      resp := NearbyAnswer(data);
      if resp.Ok? {
        cache := cache[key := resp.body];
      }
    }

    /**
     * The geocode handler: the region is sent only for a truthy country; a
     * reply without results is a 404, yet its raw object stays cached.
     */
    method Geocode(h: Headers, address: Option<string>, country: Option<string>, upstream: Request -> Reply)
      returns (resp: Response)
      modifies this`cache, this`calls
      ensures Middleware(h, tokens).Some? ==> resp == Middleware(h, tokens).value && Untouched()
      ensures Middleware(h, tokens).None? && !Given(address) ==>
        resp == Error(BadRequest, AddressRequired) && Untouched()
      ensures Middleware(h, tokens).None? && Given(address) ==>
        var key := GeocodeKey(address.value, country);
        var request := GeocodeAddress(address.value, if Given(country) then country else None);
        var data := Downloaded(upstream(request));
        && (CacheHit(old(cache), key) ==> resp == Ok(old(cache)[key]) && Untouched())
        && (!CacheHit(old(cache), key) ==>
              && calls == old(calls) + [request]
              && resp == GeocodeAnswer(data)
              && cache == (if resp.Ok? then old(cache)[key := resp.body] else CacheRaw(old(cache), key, data)))
    {
      var denial := Middleware(h, tokens);
      if denial.Some? {
        return denial.value;
      }
      if !Given(address) {
        return Error(BadRequest, AddressRequired);
      }
      var key := GeocodeKey(address.value, country);
      if CacheHit(cache, key) {
        return Ok(cache[key]);
      }
      var region := if Given(country) then country else None;
      var data := FetchGoogleData(key, GeocodeAddress(address.value, region), upstream);
      resp := GeocodeAnswer(data);
      if resp.Ok? {
        cache := cache[key := resp.body];
      }
    }

    /**
     * The details handler. Without a place id it reverse-geocodes the
     * coordinates through the fetch helper (which may answer from the cache)
     * and never caches its shaped answer; with one it looks the place up.
     */
    method Details(h: Headers, placeId: Option<string>, lat: Option<string>, lng: Option<string>,
                   upstream: Request -> Reply)
      returns (resp: Response)
      modifies this`cache, this`calls
      ensures Middleware(h, tokens).Some? ==> resp == Middleware(h, tokens).value && Untouched()
      ensures Middleware(h, tokens).None? && !Given(placeId) && (!Given(lat) || !Given(lng)) ==>
        resp == Error(BadRequest, IdOrLatLngRequired) && Untouched()
      ensures Middleware(h, tokens).None? && !Given(placeId) && Given(lat) && Given(lng) ==>
        var key := ReverseKey(lat.value, lng.value);
        var request := ReverseGeocode(LatLng(lat.value, lng.value));
        var hit := CacheHit(old(cache), key);
        var data := if hit then Some(old(cache)[key]) else Downloaded(upstream(request));
        && resp == ReverseAnswer(data, lat.value, lng.value)
        && calls == old(calls) + (if hit then [] else [request])
        && cache == (if hit then old(cache) else CacheRaw(old(cache), key, data))
      ensures Middleware(h, tokens).None? && Given(placeId) ==>
        var key := DetailsKey(placeId.value);
        var request := PlaceDetailsById(placeId.value);
        var data := Downloaded(upstream(request));
        && (CacheHit(old(cache), key) ==> resp == Ok(old(cache)[key]) && Untouched())
        && (!CacheHit(old(cache), key) ==>
              && calls == old(calls) + [request]
              && resp == DetailsAnswer(data)
              && cache == (if resp.Ok? then old(cache)[key := resp.body] else CacheRaw(old(cache), key, data)))
    {
      var denial := Middleware(h, tokens);
      if denial.Some? {
        return denial.value;
      }
      if !Given(placeId) && (!Given(lat) || !Given(lng)) {
        return Error(BadRequest, IdOrLatLngRequired);
      }
      if !Given(placeId) {
        var data := FetchGoogleData(ReverseKey(lat.value, lng.value), ReverseGeocode(LatLng(lat.value, lng.value)), upstream);
        return ReverseAnswer(data, lat.value, lng.value);
      }
      var key := DetailsKey(placeId.value);
      if CacheHit(cache, key) {
        return Ok(cache[key]);
      }
      var data := FetchGoogleData(key, PlaceDetailsById(placeId.value), upstream);
      resp := DetailsAnswer(data);
      if resp.Ok? {
        cache := cache[key := resp.body];
      }
    }
  }
}
