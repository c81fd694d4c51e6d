/**
 * Clients of the handlers: each runs requests against a fresh service and
 * states what the caller observes, which follows from the handlers'
 * contracts alone.
 */
module Scenarios {
  import opened Wrappers
  import opened Text
  import opened Models
  import opened Upstream
  import opened Shapes
  import opened Auth
  import opened Search
  import opened Views

  /** A bearer token held in the token table lets the request through. */
  lemma BearerAdmitted(t: string)
    requires ' ' !in t
    ensures Middleware(Headers(None, Some(BearerPrefix + t)), [Token(t)]).None?
  {
  }

  /** A repeated search with results is answered from the cache: the upstream is asked once. */
  method RepeatedSearchHitsCache() returns (first: Response, second: Response, upstreamCalls: nat)
    ensures first.Ok? && first.body.Listing? && |first.body.entries| == 1
    ensures second == first
    ensures upstreamCalls == 1
  {
    var svc := new Service([Token("secret")], []);
    var h := Headers(None, Some(BearerPrefix + "secret"));
    BearerAdmitted("secret");
    var item := Item(Some("p1"), Some("Cafe"), Some("1 Main St"), None, Some("1.0"), Some("2.0"), None, None);
    var upstream := (r: Request) => Reply(StatusOk, Payload(Some([item]), None, true));
    assert LimitOrDefault(None) == DefaultLimit && Take([item], DefaultLimit) == [item];
    NoRaiseWhenInsertable([], [item], "cafe");
    assert LocalHits([], "cafe", DefaultLimit) == [];
    first := svc.Search(h, Some("cafe"), None, upstream);
    assert first.Ok? && first.body.Listing? && |first.body.entries| == 1;
    assert CacheHit(svc.cache, SearchKey("cafe")) && svc.cache[SearchKey("cafe")] == first.body;
    second := svc.Search(h, Some("cafe"), None, upstream);
    upstreamCalls := |svc.calls|;
  }

  /**
   * An upstream search with no results answers an empty list; the empty list
   * it caches counts as a miss, so the same search asks upstream again.
   */
  method EmptySearchAsksAgain() returns (first: Response, cached: Option<Body>, second: Response, upstreamCalls: nat)
    ensures first == Ok(Listing([])) && second == Ok(Listing([]))
    ensures cached == Some(Listing([]))
    ensures upstreamCalls == 2
  {
    var svc := new Service([], []);
    var h := Headers(Some("1"), None);
    var upstream := (r: Request) => Reply(StatusOk, Payload(Some([]), None, true));
    first := svc.Search(h, Some("zzzznotfound"), None, upstream);
    var key := SearchKey("zzzznotfound");
    cached := if key in svc.cache then Some(svc.cache[key]) else None;
    second := svc.Search(h, Some("zzzznotfound"), None, upstream);
    upstreamCalls := |svc.calls|;
  }

  /**
   * A geocode without results is a 404, but the raw reply stays cached under
   * the same key: the repeated request gets a 200 with the raw upstream object.
   */
  method GeocodeMissThenRawHit() returns (first: Response, second: Response, upstreamCalls: nat)
    ensures first == Error(NotFound, NoResults)
    ensures second == Ok(Raw(Payload(Some([]), None, true)))
    ensures upstreamCalls == 1
  {
    var svc := new Service([], []);
    var h := Headers(Some("1"), None);
    var upstream := (r: Request) => Reply(StatusOk, Payload(Some([]), None, true));
    first := svc.Geocode(h, Some("nowhere"), None, upstream);
    second := svc.Geocode(h, Some("nowhere"), None, upstream);
    upstreamCalls := |svc.calls|;
  }

  /**
   * Forward-mode details whose reply lacks `result` is a 404, yet the reply is
   * cached: the repeated request gets a 200 with that raw object.
   */
  method DetailsMissThenRawHit() returns (first: Response, second: Response, upstreamCalls: nat)
    ensures first == Error(NotFound, NoDetails)
    ensures second == Ok(Raw(Payload(None, None, true)))
    ensures upstreamCalls == 1
  {
    var svc := new Service([], []);
    var h := Headers(Some("1"), None);
    var upstream := (r: Request) => Reply(StatusOk, Payload(None, None, true));
    first := svc.Details(h, Some("unknown-id"), None, None, upstream);
    second := svc.Details(h, Some("unknown-id"), None, None, upstream);
    upstreamCalls := |svc.calls|;
  }

  /**
   * Reverse-mode details without results: 404, with only the raw reply cached.
   * The repeat is answered from that raw reply, so it is a 404 again, without a second call.
   */
  method ReverseWithoutResults() returns (resp: Response, rawCached: bool, shapedCached: bool,
                                         again: Response, upstreamCalls: nat)
    ensures resp == Error(NotFound, NoDetails)
    ensures rawCached && !shapedCached
    ensures again == resp && upstreamCalls == 1
  {
    var svc := new Service([], []);
    var h := Headers(Some("1"), None);
    var upstream := (r: Request) => Reply(StatusOk, Payload(Some([]), None, true));
    resp := svc.Details(h, None, Some("1.0"), Some("2.0"), upstream);
    var key := ReverseKey("1.0", "2.0");
    rawCached := key in svc.cache && svc.cache[key].Raw?;
    shapedCached := exists k :: k in svc.cache && svc.cache[k].Reverse?;
    again := svc.Details(h, None, Some("1.0"), Some("2.0"), upstream);
    upstreamCalls := |svc.calls|;
  }

  /** The text "coffee" occurs at position `i` of the lower-cased `name`. */
  lemma CoffeeAt(name: string, i: nat)
    requires i + 6 <= |name|
    requires Lower(name)[i..i + 6] == "coffee"
    ensures NameMatches(Place("", name, None, "", "", None), "coffee")
  {
    assert Lower("coffee") == "coffee";
    assert OccursAt(Lower(name), Lower("coffee"), i);
    ContainsIgnoringCaseIff(name, "coffee");
  }

  /** Two stored places match "coffee": the store answers both and upstream is not asked. */
  method LocalSearchSkipsUpstream() returns (resp: Response, upstreamCalls: nat)
    ensures resp.Ok? && resp.body.Listing? && |resp.body.entries| == 2
    ensures resp.body.entries[0].name == "Coffee House" && resp.body.entries[1].name == "Java Coffee"
    ensures upstreamCalls == 0
  {
    var house := Place("p1", "Coffee House", None, "1.0", "2.0", None);
    var java := Place("p2", "Java Coffee", None, "3.0", "4.0", None);
    assert Lower(house.name)[0..6] == "coffee";
    assert Lower(java.name)[5..11] == "coffee";
    CoffeeAt(house.name, 0);
    CoffeeAt(java.name, 5);
    assert NameMatches(house, "coffee") && NameMatches(java, "coffee");
    var rows := [house, java];
    assert rows[1..] == [java] && rows[1..][1..] == [];
    assert Matching(rows, "coffee") == [house, java];
    var svc := new Service([], rows);
    var upstream := (r: Request) => Reply(StatusOk, Payload(Some([]), None, true));
    resp := svc.Search(Headers(Some("1"), None), Some("coffee"), Some(2), upstream);
    upstreamCalls := |svc.calls|;
  }

  /**
   * A place already stored keeps its fields: upstream sends a new name and
   * address for the same id, and the answer shows the stored ones.
   */
  method KnownPlaceKeepsStoredFields() returns (resp: Response, storeChanged: bool)
    ensures resp == Ok(Listing([Entry("Cafe", Some("old address"), "1.0", "2.0")]))
    ensures !storeChanged
  {
    var stored := Place("p1", "Cafe", Some("old address"), "1.0", "2.0", Some("cafe"));
    var update := Item(Some("p1"), Some("Cafe Royal"), Some("new address"), None, Some("5.0"), Some("6.0"), None, None);
    var query := "Cafe Royal";
    ContainsIgnoringCaseIff(stored.name, query);
    assert !NameMatches(stored, query);
    var rows := [stored];
    assert rows[1..] == [];
    assert Matching(rows, query) == [];
    var svc := new Service([], rows);
    var upstream := (r: Request) => Reply(StatusOk, Payload(Some([update]), None, true));
    assert Take([update], DefaultLimit) == [update];
    assert [update][..0] == [];
    assert FindPlace(rows, "p1") == Some(0);
    assert UpsertAll(rows, [update], query) == Fold(rows, [ShapePlace(stored)], false);
    resp := svc.Search(Headers(Some("1"), None), Some(query), None, upstream);
    storeChanged := svc.places != rows;
  }
}
