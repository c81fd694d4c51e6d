/**
 * What the handlers see of the upstream places provider: the request each
 * handler sends and the decoded reply. HTTP, the API key and JSON decoding are
 * outside the model.
 */
module Upstream {
  import opened Wrappers
  import opened Models

  /** The HTTP status the fetch helper accepts. */
  const StatusOk := 200

  /**
   * One record of a reply's `results` list, or its single `result`. Every
   * key may be absent; `lat`/`lng` stand for `geometry.location.lat`/`.lng`,
   * absent when any step of that path is missing.
   */
  datatype Item = Item(
    placeId: Option<string>,
    name: Option<string>,
    formattedAddress: Option<string>,
    vicinity: Option<string>,
    lat: Option<Coord>,
    lng: Option<Coord>,
    phone: Option<string>,
    website: Option<string>)

  /**
   * A decoded JSON object: its `results` and `result` keys, and whether it
   * carries any other key (the provider always sends `status`).
   */
  datatype Payload = Payload(results: Option<seq<Item>>, result: Option<Item>, otherKeys: bool)

  datatype Reply = Reply(status: int, payload: Payload)

  /** The four provider endpoints and the query parameters each handler sends. */
  datatype Request =
    | TextSearch(query: string)
    | NearbySearch(location: string, radius: string)
    | GeocodeAddress(address: string, region: Option<string>)
    | ReverseGeocode(latlng: string)
    | PlaceDetailsById(placeId: string)
}
