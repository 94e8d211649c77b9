/**
 * The Outscraper client: the search string it sends, the mapping of one
 * raw place record onto the backend's business fields, and the loop
 * over the first result list. The API call itself is a parameter: the
 * model receives the list of result lists the API returned.
 */
module Outscraper {
  import opened Wrappers
  import opened Values
  import opened Text

  /** `f"{query} {location}".strip() if location else query`. */
  function SearchString(query: string, location: string): (s: string)
    ensures location == [] ==> s == query
  {
    if location == [] then query else Strip(query + " " + location)
  }

  /** With a query and a location that carry no surrounding whitespace, the two are joined by one space. */
  lemma SearchStringJoins(query: string, location: string)
    requires query != [] && !IsSpace(query[0])
    requires location != [] && !IsSpace(location[|location| - 1])
    ensures SearchString(query, location) == query + " " + location
  {
    var s := query + " " + location;
    assert s[0] == query[0] && s[|s| - 1] == location[|location| - 1];
  }

  /** Without a query the search string is the stripped location. */
  lemma SearchStringLocationOnly(location: string)
    requires location != []
    ensures SearchString("", location) == Strip(location)
  {
    assert "" + " " + location == " " + location;
    TrimStartAfterRun(" ", location, IsSpace);
  }

  /** A place record as Outscraper returns it; every key may be missing or null. */
  datatype RawPlace = RawPlace(
    name: Option<string>,
    phone: Option<string>,
    site: Option<string>,
    domain: Option<string>,
    fullAddress: Option<string>,
    address: Option<string>,
    rating: Option<real>,
    reviews: Option<int>,
    reviewsCount: Option<int>,
    placeType: Option<string>,
    category: Option<string>,
    categories: Option<string>,
    googleId: Option<string>,
    url: Option<string>,
    latitude: Option<real>,
    longitude: Option<real>,
    businessStatus: Option<string>,
    priceLevel: Option<string>,
    workingHours: Option<string>)

  /** The standard business record the rest of the backend reads. */
  datatype Business = Business(
    name: Option<string>,
    phone: Option<string>,
    website: Option<string>,
    address: Option<string>,
    rating: Option<real>,
    reviewsCount: Option<int>,
    category: Option<string>,
    mapsUrl: Option<string>,
    latitude: Option<real>,
    longitude: Option<real>,
    businessStatus: Option<string>,
    priceLevel: Option<string>,
    workingHours: Option<string>)

  const PlaceUrlPrefix: string := "https://www.google.com/maps/place/?q=place_id:"

  /** Python's `a or b or ... or z`: the first truthy operand, else the last one. */
  function FirstTruthy(options: seq<Option<string>>): (r: Option<string>)
    requires options != []
    ensures r in options
    ensures TruthyText(r) <==> exists k :: 0 <= k < |options| && TruthyText(options[k])
    decreases |options|
  {
    if |options| == 1 || TruthyText(options[0]) then options[0] else FirstTruthy(options[1..])
  }

  /** `result.get('google_id') and f"...{google_id}" or result.get('url')`. */
  function PlaceMapsUrl(googleId: Option<string>, url: Option<string>): (r: Option<string>)
    ensures TruthyText(googleId) ==> r == Some(PlaceUrlPrefix + googleId.value)
    ensures !TruthyText(googleId) ==> r == url
  {
    if TruthyText(googleId) then Some(PlaceUrlPrefix + googleId.value) else url
  }

  /** `_standardize_result`: one raw record onto the standard fields, with first-truthy fallbacks. */
  function StandardizeResult(p: RawPlace): (b: Business)
    ensures b.name == p.name && b.phone == p.phone && b.rating == p.rating
    ensures b.latitude == p.latitude && b.longitude == p.longitude
    ensures b.businessStatus == p.businessStatus && b.priceLevel == p.priceLevel
    ensures b.workingHours == p.workingHours
    ensures b.website == (if TruthyText(p.site) then p.site else p.domain)
    ensures b.address == (if TruthyText(p.fullAddress) then p.fullAddress else p.address)
    ensures b.reviewsCount == (if TruthyInt(p.reviews) then p.reviews else p.reviewsCount)
    ensures TruthyText(b.website) <==> TruthyText(p.site) || TruthyText(p.domain)
    ensures TruthyText(b.address) <==> TruthyText(p.fullAddress) || TruthyText(p.address)
    ensures TruthyInt(b.reviewsCount) <==> TruthyInt(p.reviews) || TruthyInt(p.reviewsCount)
    ensures TruthyText(b.category) <==> TruthyText(p.placeType) || TruthyText(p.category) || TruthyText(p.categories)
  {
    Business(
      p.name,
      p.phone,
      OrText(p.site, p.domain),
      OrText(p.fullAddress, p.address),
      p.rating,
      OrInt(p.reviews, p.reviewsCount),
      OrText(OrText(p.placeType, p.category), p.categories),
      PlaceMapsUrl(p.googleId, p.url),
      p.latitude,
      p.longitude,
      p.businessStatus,
      p.priceLevel,
      p.workingHours)
  }

  /** The category is the first truthy one of `type`, `category` and `categories`. */
  lemma CategoryIsFirstTruthy(p: RawPlace)
    ensures StandardizeResult(p).category == FirstTruthy([p.placeType, p.category, p.categories])
  {
    var opts := [p.placeType, p.category, p.categories];
    assert opts[1..] == [p.category, p.categories];
    assert opts[1..][1..] == [p.categories];
  }

  /** A record with zero reviews takes `reviews_count` instead: 0 is falsy. */
  lemma ZeroReviewsFallThrough(p: RawPlace)
    requires p.reviews == Some(0)
    ensures StandardizeResult(p).reviewsCount == p.reviewsCount
  {
  }

  /**
   * A record has a usable maps URL exactly when it has a truthy google_id or
   * url, and a place-id URL gives back the google_id it was built from.
   */
  lemma MapsUrlFromPlaceId(p: RawPlace)
    ensures TruthyText(StandardizeResult(p).mapsUrl) <==> TruthyText(p.googleId) || TruthyText(p.url)
    ensures TruthyText(p.googleId) ==>
      var m := StandardizeResult(p).mapsUrl.value;
      StartsWith(m, PlaceUrlPrefix) && m[|PlaceUrlPrefix|..] == p.googleId.value
  {
    if TruthyText(p.googleId) {
      var m := PlaceUrlPrefix + p.googleId.value;
      assert m[..|PlaceUrlPrefix|] == PlaceUrlPrefix;
      assert m[|PlaceUrlPrefix|..] == p.googleId.value;
    }
  }

  /** Standardization of a whole result list, element by element. */
  function StandardizeAll(places: seq<RawPlace>): (r: seq<Business>)
    ensures |r| == |places|
    ensures forall k :: 0 <= k < |places| ==> r[k] == StandardizeResult(places[k])
    decreases |places|
  {
    if places == [] then [] else [StandardizeResult(places[0])] + StandardizeAll(places[1..])
  }

  /** Only the first inner list answers the one query that was sent. */
  function FirstResultList(results: seq<seq<RawPlace>>): seq<RawPlace> {
    if results == [] then [] else results[0]
  }

  /**
   * `scrape_google_maps` after the API call: the search string it sent, and
   * one standard record per place of the first result list, in order.
   */
  method ScrapeGoogleMaps(query: string, location: string, results: seq<seq<RawPlace>>)
    returns (searchQuery: string, businesses: seq<Business>)
    ensures searchQuery == SearchString(query, location)
    ensures businesses == StandardizeAll(FirstResultList(results))
  {
    searchQuery := if location != [] then Strip(query + " " + location) else query;
    businesses := [];
    if results != [] && |results| > 0 {
      var places := results[0];
      var i := 0;
      while i < |places|
        invariant 0 <= i <= |places|
        invariant |businesses| == i
        invariant forall k :: 0 <= k < i ==> businesses[k] == StandardizeResult(places[k])
      {
        var business := StandardizeResult(places[i]);
        businesses := businesses + [business];
        i := i + 1;
      }
    }
  }
}
