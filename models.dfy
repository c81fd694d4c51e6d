/**
 * The two database tables: API tokens and resolved places. Surrogate ids and
 * the created/updated timestamps are not read by any handler and are left out.
 */
module Models {
  import opened Wrappers

  /** Coordinates are copied through unchanged, so they stay opaque text. */
  type Coord = string

  /** The declared `max_length` of every `CharField`. */
  const MaxChars := 255

  /** A token row: only the string, no expiry and no status. */
  datatype Token = Token(token: string)

  /** A place row; `address` and `query` are nullable columns. */
  datatype Place = Place(
    placeId: string,
    name: string,
    address: Option<string>,
    lat: Coord,
    lng: Coord,
    query: Option<string>)

  predicate ValidToken(t: Token) {
    |t.token| <= MaxChars
  }

  /** The column lengths a stored place respects. */
  predicate ValidPlace(p: Place) {
    && |p.placeId| <= MaxChars
    && |p.name| <= MaxChars
    && (p.query.Some? ==> |p.query.value| <= MaxChars)
  }

  /** `place_id` is a unique column: no two rows share it. */
  predicate UniquePlaceIds(rows: seq<Place>) {
    forall i, j :: 0 <= i < j < |rows| ==> rows[i].placeId != rows[j].placeId
  }

  /** The invariant the database maintains for the place table. */
  predicate StoreValid(rows: seq<Place>) {
    && UniquePlaceIds(rows)
    && forall i :: 0 <= i < |rows| ==> ValidPlace(rows[i])
  }

  /** The lookup `Place.objects.get(place_id=placeId)`: the index of the first row with that id. */
  function FindPlace(rows: seq<Place>, placeId: string): (r: Option<nat>)
    ensures r.Some? ==> r.value < |rows| && rows[r.value].placeId == placeId
    ensures r.Some? ==> forall j :: 0 <= j < r.value ==> rows[j].placeId != placeId
    ensures r.None? ==> forall j :: 0 <= j < |rows| ==> rows[j].placeId != placeId
    decreases |rows|
  {
    if rows == [] then None
    else if rows[0].placeId == placeId then Some(0)
    else match FindPlace(rows[1..], placeId)
      case None => None
      case Some(i) => Some(i + 1)
  }

  /** In a valid store the row found for an id is the only one carrying it. */
  lemma FindPlaceUnique(rows: seq<Place>, i: nat)
    requires UniquePlaceIds(rows) && i < |rows|
    ensures FindPlace(rows, rows[i].placeId) == Some(i)
  {
  }

  /** `a` is a prefix of `b`: the rows of `a` are still there, unchanged, in `b`. */
  predicate IsPrefix<T(==)>(a: seq<T>, b: seq<T>) {
    |a| <= |b| && b[..|a|] == a
  }

  /** A lookup that succeeds in a table keeps its answer when rows are appended. */
  lemma FindPlaceExtends(rows: seq<Place>, more: seq<Place>, placeId: string)
    requires IsPrefix(rows, more) && FindPlace(rows, placeId).Some?
    ensures FindPlace(more, placeId) == FindPlace(rows, placeId)
  {
  }

  /** Appending a valid row whose id is absent keeps the store valid. */
  lemma AppendFreshPlace(rows: seq<Place>, p: Place)
    requires StoreValid(rows) && FindPlace(rows, p.placeId).None? && ValidPlace(p)
    ensures StoreValid(rows + [p])
  {
  }
}
