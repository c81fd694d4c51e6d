/**
 * The JSON bodies the handlers return and cache, the cache keys they build,
 * Python truthiness of the values they test, and the projections that shape
 * upstream records into responses.
 */
module Shapes {
  import opened Wrappers
  import opened Models
  import opened Upstream

  /** `{"name", "address", "lat", "lng"}`, one element of a search or nearby listing. */
  datatype Entry = Entry(name: string, address: Option<string>, lat: Coord, lng: Coord)

  /** A response body; the cache holds the same kind of value. */
  datatype Body =
    | Raw(payload: Payload)                       // an upstream object, as the fetch helper caches it
    | Listing(entries: seq<Entry>)                // a JSON list (search, nearby)
    | Geo(lat: Coord, lng: Coord, formattedAddress: string)
    | Details(name: Option<string>, address: Option<string>, lat: Coord, lng: Coord,
              phone: Option<string>, website: Option<string>)
    | Reverse(addressText: string, lat: Coord, lng: Coord)

  /** `Response(body)` with status 200, an error response, or an uncaught exception (500). */
  datatype Response = Ok(body: Body) | Error(status: int, message: string) | ServerError

  const BadRequest := 400
  const Unauthorized := 401
  const NotFound := 404
  const ServiceUnavailable := 503

  /** A query parameter or header is truthy: present and not the empty string. */
  predicate Given(o: Option<string>) {
    o.Some? && o.value != ""
  }

  /** A decoded JSON object is truthy when it has at least one key. */
  predicate PayloadTruthy(p: Payload) {
    p.results.Some? || p.result.Some? || p.otherKeys
  }

  /** Python truthiness of a body: an empty list is falsy; a shaped object always has keys. */
  predicate Truthy(b: Body) {
    match b
    case Raw(p) => PayloadTruthy(p)
    case Listing(es) => es != []
    case _ => true
  }

  /** `cache.get(key)` yields a truthy value: a missing key and a falsy value both count as a miss. */
  predicate CacheHit(cache: map<string, Body>, key: string)
    ensures CacheHit(cache, key) ==> key in cache
    ensures key in cache && cache[key] == Listing([]) ==> !CacheHit(cache, key)
    ensures key in cache && cache[key] == Raw(Payload(None, None, false)) ==> !CacheHit(cache, key)
    ensures key in cache && (cache[key].Geo? || cache[key].Details? || cache[key].Reverse?) ==> CacheHit(cache, key)
  {
    key in cache && Truthy(cache[key])
  }

  /** The text an f-string gives an optional parameter: an absent one prints as `None`. */
  function Format(o: Option<string>): string {
    if o.Some? then o.value else "None"
  }

  const DefaultRadius := "1000"

  /** `request.query_params.get('radius', 1000)`: a given value is kept even when empty. */
  function RadiusText(radius: Option<string>): string {
    if radius.Some? then radius.value else DefaultRadius
  }

  function SearchKey(query: string): string { "search:" + query }

  function NearbyKey(lat: string, lng: string, radius: string): string {
    "nearby:" + lat + ":" + lng + ":" + radius
  }

  function GeocodeKey(address: string, country: Option<string>): string {
    "geocode:" + address + ":" + Format(country)
  }

  function DetailsKey(placeId: string): string { "details:" + placeId }

  function ReverseKey(lat: string, lng: string): string { "details:" + lat + ":" + lng }

  /** The `location` / `latlng` parameter: `"<lat>,<lng>"`. */
  function LatLng(lat: string, lng: string): string { lat + "," + lng }

  /** An absent country and the literal country `None` share one geocode cache entry. */
  lemma GeocodeKeyNoneCollides(address: string)
    ensures GeocodeKey(address, None) == GeocodeKey(address, Some("None"))
  {
  }

  /** Reverse-mode details share the key space of forward details: place id `"<lat>:<lng>"` collides. */
  lemma ReverseKeyCollides(lat: string, lng: string)
    ensures ReverseKey(lat, lng) == DetailsKey(lat + ":" + lng)
  {
  }

  /** What `data.get("results")` gives: absent, a list, or an exception when `data` is a JSON list. */
  datatype Field<T> = Absent | Present(value: T) | NotADict

  function ResultsOf(b: Body): Field<seq<Item>> {
    match b
    case Raw(p) => if p.results.Some? then Present(p.results.value) else Absent
    case Listing(_) => NotADict
    case _ => Absent
  }

  /** The `results` list of an upstream object, empty when the key is absent. */
  function ResultList(p: Payload): seq<Item> {
    if p.results.Some? then p.results.value else []
  }

  /** `data.get("results", [])`; `None` stands for the exception a JSON list raises. */
  function ItemsOrEmpty(b: Body): (r: Option<seq<Item>>)
    ensures r.None? <==> b.Listing?
    ensures b.Raw? ==> r == Some(ResultList(b.payload))
  {
    match ResultsOf(b)
    case NotADict => None
    case Absent => Some([])
    case Present(items) => Some(items)
  }

  /** `data['result']` when `'result' in data`; only an upstream object can carry that key. */
  function ResultOf(b: Body): Option<Item> {
    if b.Raw? then b.payload.result else None
  }

  /** The projection of a stored place into a listing entry. */
  function ShapePlace(p: Place): Entry {
    Entry(p.name, p.address, p.lat, p.lng)
  }

  function ShapePlaces(ps: seq<Place>): seq<Entry> {
    seq(|ps|, i requires 0 <= i < |ps| => ShapePlace(ps[i]))
  }

  /** The keys `item['name']` and `item['geometry']['location'][...]` are all there. */
  predicate HasNameAndLocation(item: Item) {
    item.name.Some? && item.lat.Some? && item.lng.Some?
  }

  /** One nearby entry; its address is the `vicinity` field. `None`: a required key is missing. */
  function NearbyEntry(item: Item): Option<Entry> {
    if HasNameAndLocation(item)
    then Some(Entry(item.name.value, item.vicinity, item.lat.value, item.lng.value))
    else None
  }

  /**
   * The nearby list comprehension: one entry per upstream result, in order;
   * it raises (`None`) exactly when some result lacks a required key.
   */
  function ShapeNearby(items: seq<Item>): (r: Option<seq<Entry>>)
    ensures r.Some? <==> forall k :: 0 <= k < |items| ==> HasNameAndLocation(items[k])
    ensures r.Some? ==> |r.value| == |items|
    ensures r.Some? ==> forall k :: 0 <= k < |items| ==>
      && Some(r.value[k].name) == items[k].name
      && r.value[k].address == items[k].vicinity
      && Some(r.value[k].lat) == items[k].lat
      && Some(r.value[k].lng) == items[k].lng
    decreases |items|
  {
    if items == [] then Some([])
    else match NearbyEntry(items[0])
      case None => None
      case Some(e) =>
        match ShapeNearby(items[1..])
        case None => None
        case Some(rest) => Some([e] + rest)
  }

  /** The geocode result `{lat, lng, formatted_address}`; all three keys are required. */
  function GeoOf(item: Item): (r: Option<Body>)
    ensures r.Some? <==> item.lat.Some? && item.lng.Some? && item.formattedAddress.Some?
    ensures r.Some? ==> r.value == Geo(item.lat.value, item.lng.value, item.formattedAddress.value)
  {
    if item.lat.Some? && item.lng.Some? && item.formattedAddress.Some?
    then Some(Geo(item.lat.value, item.lng.value, item.formattedAddress.value))
    else None
  }

  /** The six-field details record; only the location is required, the rest may be null. */
  function DetailsOf(item: Item): (r: Option<Body>)
    ensures r.Some? <==> item.lat.Some? && item.lng.Some?
    ensures r.Some? ==>
      && r.value.Details?
      && r.value.name == item.name
      && r.value.address == item.formattedAddress
      && Some(r.value.lat) == item.lat
      && Some(r.value.lng) == item.lng
      && r.value.phone == item.phone
      && r.value.website == item.website
  {
    if item.lat.Some? && item.lng.Some?
    then Some(Details(item.name, item.formattedAddress, item.lat.value, item.lng.value, item.phone, item.website))
    else None
  }
}
