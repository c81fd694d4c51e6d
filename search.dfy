/**
 * The value-level meaning of the search handler's tiers: the local store
 * lookup (`name__icontains` with a limit) and the get-or-create loop over the
 * upstream results, which inserts unseen places and answers from the rows.
 */
module Search {
  import opened Wrappers
  import opened Text
  import opened Models
  import opened Upstream
  import opened Shapes

  const DefaultLimit := 10

  /** `int(request.query_params.get("limit", 10))` for a parameter that is absent or a natural number. */
  function LimitOrDefault(limit: Option<nat>): nat {
    if limit.Some? then limit.value else DefaultLimit
  }
  const QueryRequired := "Query is required"
  const UpstreamFailed := "Google API request failed"

  /** `name__icontains=query` */
  predicate NameMatches(p: Place, query: string) {
    ContainsIgnoringCase(p.name, query)
  }

  /** `Place.objects.filter(name__icontains=query)`, in table order. */
  function Matching(rows: seq<Place>, query: string): (r: seq<Place>)
    ensures |r| <= |rows|
    ensures forall p :: p in r ==> p in rows && NameMatches(p, query)
    ensures forall p :: p in rows && NameMatches(p, query) ==> p in r
    decreases |rows|
  {
    if rows == [] then []
    else (if NameMatches(rows[0], query) then [rows[0]] else []) + Matching(rows[1..], query)
  }

  /** Matching keeps every matching row as often as the table holds it, in particular no row twice
      unless the table has it twice, and drops every other row. */
  lemma {:induction false} MatchingCounts(rows: seq<Place>, query: string, p: Place)
    ensures multiset(Matching(rows, query))[p] == if NameMatches(p, query) then multiset(rows)[p] else 0
    decreases |rows|
  {
    if rows != [] {
      assert rows == [rows[0]] + rows[1..];
      MatchingCounts(rows[1..], query, p);
    }
  }

  /** The slice `s[:n]` for a non-negative `n`. */
  function Take<T>(s: seq<T>, n: nat): (r: seq<T>)
    ensures |r| == if n < |s| then n else |s|
    ensures forall k :: 0 <= k < |r| ==> r[k] == s[k]
  {
    if n < |s| then s[..n] else s
  }

  /** The local tier: at most `limit` stored places whose name contains the query. */
  function LocalHits(rows: seq<Place>, query: string, limit: nat): seq<Place> {
    Take(Matching(rows, query), limit)
  }

  /**
   * The local tier answers exactly when the limit is positive and some stored
   * name contains the query; every place it returns is such a stored place.
   */
  lemma LocalHitsSpec(rows: seq<Place>, query: string, limit: nat)
    ensures LocalHits(rows, query, limit) != [] <==>
      limit > 0 && exists i :: 0 <= i < |rows| && NameMatches(rows[i], query)
    ensures |LocalHits(rows, query, limit)| <= limit
    ensures forall p :: p in LocalHits(rows, query, limit) ==> p in rows && NameMatches(p, query)
  {
    var m := Matching(rows, query);
    if limit > 0 && exists i :: 0 <= i < |rows| && NameMatches(rows[i], query) {
      var i :| 0 <= i < |rows| && NameMatches(rows[i], query);
      assert rows[i] in m;
    }
    if LocalHits(rows, query, limit) != [] {
      assert m[0] in m;
    }
    forall p | p in LocalHits(rows, query, limit) ensures p in m {
      var k :| 0 <= k < |LocalHits(rows, query, limit)| && LocalHits(rows, query, limit)[k] == p;
      assert m[k] == p;
    }
  }

  /** A search answered by the store has `min(limit, #matches)` entries. */
  lemma LocalListingLength(rows: seq<Place>, query: string, limit: nat)
    ensures |ShapePlaces(LocalHits(rows, query, limit))| ==
      if limit < |Matching(rows, query)| then limit else |Matching(rows, query)|
  {
  }

  /** One step of the loop: the lookup found a row, or the step raised. */
  datatype Step = Stored(rows: seq<Place>, place: Place) | Raised

  /**
   * The row `get_or_create` would insert for an upstream record. `None`: a key
   * the defaults read with `item[...]` is missing, which raises before any lookup.
   */
  function Defaults(item: Item, query: string): (r: Option<Place>)
    ensures r.Some? <==> item.placeId.Some? && item.name.Some? && item.lat.Some? && item.lng.Some?
    ensures r.Some? ==>
      && Some(r.value.placeId) == item.placeId && Some(r.value.name) == item.name
      && r.value.address == item.formattedAddress
      && Some(r.value.lat) == item.lat && Some(r.value.lng) == item.lng
      && r.value.query == Some(query)
  {
    if item.placeId.Some? && item.name.Some? && item.lat.Some? && item.lng.Some?
    then Some(Place(item.placeId.value, item.name.value, item.formattedAddress,
                    item.lat.value, item.lng.value, Some(query)))
    else None
  }

  /**
   * `Place.objects.get_or_create(place_id=..., defaults=...)`: an existing row
   * is returned untouched; otherwise the defaults are inserted, which fails
   * when a column is longer than declared.
   */
  function GetOrCreate(rows: seq<Place>, item: Item, query: string): (r: Step)
    ensures r.Raised? <==>
      || Defaults(item, query).None?
      || (FindPlace(rows, Defaults(item, query).value.placeId).None? && !ValidPlace(Defaults(item, query).value))
    ensures r.Stored? ==> r.rows == rows || r.rows == rows + [r.place]
  {
    match Defaults(item, query)
    case None => Raised
    case Some(p) =>
      match FindPlace(rows, p.placeId)
      case Some(i) => Stored(rows, rows[i])
      case None => if ValidPlace(p) then Stored(rows + [p], p) else Raised
  }

  /**
   * The row a step answers with is the table's row for the item's id; the
   * table only grows, at most by that row, and stays valid.
   */
  lemma GetOrCreateSpec(rows: seq<Place>, item: Item, query: string)
    requires StoreValid(rows)
    ensures var s := GetOrCreate(rows, item, query);
      s.Stored? ==>
        && StoreValid(s.rows)
        && IsPrefix(rows, s.rows)
        && item.placeId == Some(s.place.placeId)
        && FindPlace(s.rows, s.place.placeId).Some?
        && s.rows[FindPlace(s.rows, s.place.placeId).value] == s.place
        && (s.rows == rows || (s.rows == rows + [s.place] && Defaults(item, query) == Some(s.place)))
  {
    var s := GetOrCreate(rows, item, query);
    if s.Stored? && s.rows != rows {
      var p := Defaults(item, query).value;
      AppendFreshPlace(rows, p);
      assert (rows + [p])[|rows|] == p;
      FindPlaceUnique(rows + [p], |rows|);
    }
  }

  /** The outcome of the loop: the table, the entries appended so far, and whether it raised. */
  datatype Fold = Fold(rows: seq<Place>, entries: seq<Entry>, raised: bool)

  /**
   * The `for item in results` loop: each item goes through get-or-create and
   * appends the shape of the row it resolved to. An exception ends the loop;
   * rows inserted before it stay.
   */
  function UpsertAll(rows: seq<Place>, items: seq<Item>, query: string): (r: Fold)
    ensures !r.raised ==> |r.entries| == |items|
    ensures r.raised ==> |r.entries| < |items|
    decreases |items|
  {
    if items == [] then Fold(rows, [], false)
    else
      var f := UpsertAll(rows, items[..|items| - 1], query);
      if f.raised then f
      else match GetOrCreate(f.rows, items[|items| - 1], query)
        case Raised => Fold(f.rows, f.entries, true)
        case Stored(rows', p) => Fold(rows', f.entries + [ShapePlace(p)], false)
  }

  /** An entry mirrors the stored row for its item's id, not the fresh upstream record. */
  predicate Mirrors(rows: seq<Place>, item: Item, e: Entry) {
    && item.placeId.Some?
    && FindPlace(rows, item.placeId.value).Some?
    && e == ShapePlace(rows[FindPlace(rows, item.placeId.value).value])
  }

  /**
   * The loop keeps the store valid and only appends to it; when it completes
   * it has one entry per item, each the shape of the stored row for that item.
   */
  lemma {:induction false} UpsertAllSpec(rows: seq<Place>, items: seq<Item>, query: string)
    requires StoreValid(rows)
    ensures var f := UpsertAll(rows, items, query);
      && StoreValid(f.rows)
      && IsPrefix(rows, f.rows)
      && (!f.raised ==> |f.entries| == |items|)
      && (!f.raised ==> forall k :: 0 <= k < |items| ==> Mirrors(f.rows, items[k], f.entries[k]))
    decreases |items|
  {
    if items != [] {
      var init := items[..|items| - 1];
      var last := items[|items| - 1];
      UpsertAllSpec(rows, init, query);
      var f := UpsertAll(rows, init, query);
      if !f.raised {
        GetOrCreateSpec(f.rows, last, query);
        match GetOrCreate(f.rows, last, query)
        case Raised =>
        case Stored(rows', p) =>
          var entries := f.entries + [ShapePlace(p)];
          forall k | 0 <= k < |items| ensures Mirrors(rows', items[k], entries[k]) {
            if k < |items| - 1 {
              assert items[k] == init[k];
              FindPlaceExtends(f.rows, rows', items[k].placeId.value);
            }
          }
      }
    }
  }

  /** A search answered by upstream has `min(limit, #results)` entries. */
  lemma UpstreamListingLength(rows: seq<Place>, results: seq<Item>, limit: nat, query: string)
    requires StoreValid(rows)
    requires !UpsertAll(rows, Take(results, limit), query).raised
    ensures |UpsertAll(rows, Take(results, limit), query).entries| ==
      if limit < |results| then limit else |results|
  {
    UpsertAllSpec(rows, Take(results, limit), query);
  }

  /** Once the loop has raised, later items change nothing. */
  lemma {:induction false} RaisedIsFinal(rows: seq<Place>, items: seq<Item>, query: string, i: nat)
    requires i <= |items| && UpsertAll(rows, items[..i], query).raised
    ensures UpsertAll(rows, items, query) == UpsertAll(rows, items[..i], query)
    decreases |items|
  {
    if i < |items| {
      var init := items[..|items| - 1];
      assert init[..i] == items[..i];
      RaisedIsFinal(rows, init, query, i);
    } else {
      assert items[..i] == items;
    }
  }

  /**
   * First write wins: an item whose id is already stored is answered with the
   * old row, whatever the upstream record now says.
   */
  lemma FirstWriteWins(rows: seq<Place>, items: seq<Item>, query: string, k: nat)
    requires StoreValid(rows) && k < |items|
    requires items[k].placeId.Some? && FindPlace(rows, items[k].placeId.value).Some?
    requires !UpsertAll(rows, items, query).raised
    ensures k < |UpsertAll(rows, items, query).entries|
    ensures UpsertAll(rows, items, query).entries[k] ==
      ShapePlace(rows[FindPlace(rows, items[k].placeId.value).value])
  {
    UpsertAllSpec(rows, items, query);
    var f := UpsertAll(rows, items, query);
    FindPlaceExtends(rows, f.rows, items[k].placeId.value);
    assert f.rows[FindPlace(rows, items[k].placeId.value).value] == rows[FindPlace(rows, items[k].placeId.value).value];
  }

  /** Every row the loop inserts is the defaults of one of the items, carrying the query. */
  lemma {:induction false} InsertedRowsFromItems(rows: seq<Place>, items: seq<Item>, query: string)
    requires StoreValid(rows)
    ensures var f := UpsertAll(rows, items, query);
      forall j :: |rows| <= j < |f.rows| ==>
        && f.rows[j].query == Some(query)
        && exists k :: 0 <= k < |items| && Defaults(items[k], query) == Some(f.rows[j])
    decreases |items|
  {
    if items != [] {
      var init := items[..|items| - 1];
      var last := items[|items| - 1];
      InsertedRowsFromItems(rows, init, query);
      UpsertAllSpec(rows, init, query);
      var f := UpsertAll(rows, init, query);
      forall j | |rows| <= j < |f.rows|
        ensures exists k :: 0 <= k < |items| && Defaults(items[k], query) == Some(f.rows[j])
      {
        var k :| 0 <= k < |init| && Defaults(init[k], query) == Some(f.rows[j]);
        assert items[k] == init[k];
      }
      if !f.raised {
        GetOrCreateSpec(f.rows, last, query);
        var s := GetOrCreate(f.rows, last, query);
        if s.Stored? && s.rows != f.rows {
          assert s.rows[..|f.rows|] == f.rows;
          assert Defaults(items[|items| - 1], query) == Some(s.rows[|f.rows|]);
        }
      }
    }
  }

  /** An upstream record that get-or-create can always store: all keys present, columns short enough. */
  predicate Insertable(item: Item, query: string) {
    Defaults(item, query).Some? && ValidPlace(Defaults(item, query).value)
  }

  /** When every item is insertable the loop never raises. */
  lemma {:induction false} NoRaiseWhenInsertable(rows: seq<Place>, items: seq<Item>, query: string)
    requires forall k :: 0 <= k < |items| ==> Insertable(items[k], query)
    ensures !UpsertAll(rows, items, query).raised
    decreases |items|
  {
    if items != [] {
      var init := items[..|items| - 1];
      assert forall k :: 0 <= k < |init| ==> init[k] == items[k];
      NoRaiseWhenInsertable(rows, init, query);
    }
  }
}
