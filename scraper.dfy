/**
 * The browser-driven Google Maps scraper with the browser abstracted away:
 * the driver is seen only through what it reports (the scroll heights of the
 * results panel, the listings and the text of each detail panel). What is
 * modelled is the search URL, the bounded scroll loop, the listing cap, and the
 * parsing of the detail panel's labels.
 */
module MapsScraper {
  import opened Wrappers
  import opened Text
  import Outscraper

  // ================================================================ search URL

  const SearchUrlPrefix: string := "https://www.google.com/maps/search/"

  /** The maps search URL: the search string with every space written as `+`. */
  function SearchUrl(query: string, location: string): (url: string)
    ensures StartsWith(url, SearchUrlPrefix)
    ensures |url| == |SearchUrlPrefix| + |Outscraper.SearchString(query, location)|
    ensures ' ' !in url[|SearchUrlPrefix|..]
  {
    var s := Outscraper.SearchString(query, location);
    var u := SearchUrlPrefix + ReplaceChar(s, ' ', '+');
    assert u[|SearchUrlPrefix|..] == ReplaceChar(s, ' ', '+');
    u
  }

  /** Every character of the search string reappears in place, with spaces as `+`. */
  lemma SearchUrlSpellsSearchString(query: string, location: string)
    ensures var s := Outscraper.SearchString(query, location);
      forall k :: 0 <= k < |s| ==>
        SearchUrl(query, location)[|SearchUrlPrefix| + k] == (if s[k] == ' ' then '+' else s[k])
  {
  }

  lemma {:induction false} SpacesBecomePlus(query: string, location: string)
    requires ' ' !in query && ' ' !in location
    ensures ReplaceChar(query + " " + location, ' ', '+') == query + "+" + location
  {
    var s := query + " " + location;
    forall k | 0 <= k < |s| ensures ReplaceChar(s, ' ', '+')[k] == (query + "+" + location)[k] {
      if k < |query| {
        assert s[k] == query[k];
      } else if k > |query| {
        assert s[k] == location[k - |query| - 1];
      }
    }
  }

  /** A one-word query and a one-word location are joined by a single `+`. */
  lemma SearchUrlOfWords(query: string, location: string)
    requires query != [] && location != []
    requires ' ' !in query && ' ' !in location
    requires !IsSpace(query[0]) && !IsSpace(location[|location| - 1])
    ensures SearchUrl(query, location) == SearchUrlPrefix + query + "+" + location
  {
    var s := Outscraper.SearchString(query, location);
    assert s == query + " " + location by {
      Outscraper.SearchStringJoins(query, location);
    }
    assert ReplaceChar(s, ' ', '+') == query + "+" + location by {
      SpacesBecomePlus(query, location);
    }
    SearchUrlOfReplaced(query, location, query + "+" + location);
  }

  /** The URL is the prefix followed by the search string with its spaces replaced. */
  lemma SearchUrlOfReplaced(query: string, location: string, tail: string)
    requires ReplaceChar(Outscraper.SearchString(query, location), ' ', '+') == tail
    ensures SearchUrl(query, location) == SearchUrlPrefix + tail
  {
  }

  // ================================================================ scrolling

  datatype ScrollStop =
    | NoPanel            // the results panel was not found
    | ReachedEnd         // a scroll left the height unchanged
    | AttemptsExhausted  // the attempt budget ran out
    | DriverError        // the driver stopped answering

  /** `max_results // 10 + 5`; Python's floor division by 10 is Dafny's division. */
  function MaxScrollAttempts(maxResults: int): int {
    maxResults / 10 + 5
  }

  /**
   * `_scroll_results_panel`, fed with the heights the panel reports after each
   * scroll. Every counted attempt changed the height, the last height is the
   * one the last counted attempt saw, and the loop stops at the first unchanged
   * height, when the budget is spent, or when the driver stops answering.
   */
  method ScrollResultsPanel(maxResults: int, panelFound: bool, heights: seq<int>)
    returns (attempts: nat, lastHeight: int, stop: ScrollStop)
    ensures stop == NoPanel <==> !panelFound
    ensures !panelFound ==> attempts == 0
    ensures attempts <= |heights|
    ensures attempts == 0 || attempts <= MaxScrollAttempts(maxResults)
    ensures lastHeight == (if attempts == 0 then 0 else heights[attempts - 1])
    ensures forall i :: 0 < i < attempts ==> heights[i] != heights[i - 1]
    ensures attempts > 0 ==> heights[0] != 0
    ensures stop == ReachedEnd ==>
      attempts < |heights| && attempts < MaxScrollAttempts(maxResults) && heights[attempts] == lastHeight
    ensures stop == AttemptsExhausted ==> attempts >= MaxScrollAttempts(maxResults)
    ensures stop == DriverError ==> attempts == |heights| && attempts < MaxScrollAttempts(maxResults)
  {
    attempts, lastHeight := 0, 0;
    if !panelFound {
      return 0, 0, NoPanel;
    }
    var maxAttempts := maxResults / 10 + 5;
    stop := AttemptsExhausted;
    while attempts < maxAttempts
      invariant attempts <= |heights|
      invariant attempts == 0 || attempts <= maxAttempts
      invariant lastHeight == (if attempts == 0 then 0 else heights[attempts - 1])
      invariant forall i :: 0 < i < attempts ==> heights[i] != heights[i - 1]
      invariant attempts > 0 ==> heights[0] != 0
      invariant stop == AttemptsExhausted
      decreases maxAttempts - attempts
    {
      if attempts >= |heights| {
        stop := DriverError;
        break;
      }
      var newHeight := heights[attempts];
      if newHeight == lastHeight {
        stop := ReachedEnd;
        break;
      }
      lastHeight := newHeight;
      attempts := attempts + 1;
    }
  }

  // ================================================================ detail panel

  /**
   * What the detail panel of one listing shows. `loaded` says whether the
   * heading appeared in time; each other field is None when the element (or
   * its attribute) is missing. The rating is the number the star label
   * carries, already read off.
   */
  datatype DetailPanel = DetailPanel(
    loaded: bool,
    heading: Option<string>,
    rating: Option<real>,
    reviewsLabel: Option<string>,
    categoryText: Option<string>,
    addressLabel: Option<string>,
    phoneLabel: Option<string>,
    websiteHref: Option<string>,
    currentUrl: Option<string>)

  datatype Details = Details(
    name: Option<string>,
    rating: Option<real>,
    reviewsCount: Option<int>,
    category: Option<string>,
    address: Option<string>,
    phone: Option<string>,
    website: Option<string>,
    mapsUrl: Option<string>)

  const AddressLabel: string := "Address: "
  const PhoneLabel: string := "Phone: "

  function DigitChar(d: int): char
    requires 0 <= d <= 9
  {
    ('0' as int + d) as char
  }

  function DigitValue(c: char): int
    requires IsDigit(c)
  {
    c as int - '0' as int
  }

  predicate AllDigits(s: string) {
    forall k :: 0 <= k < |s| ==> IsDigit(s[k])
  }

  /** The decimal rendering of n, with no sign, separators or leading zeros. */
  function Decimal(n: nat): (s: string)
    ensures s != [] && AllDigits(s)
    decreases n
  {
    if n < 10 then [DigitChar(n)] else Decimal(n / 10) + [DigitChar(n % 10)]
  }

  /** `int(s)` on a string of decimal digits. */
  function DecimalValue(s: string): nat
    requires AllDigits(s)
    decreases |s|
  {
    if s == [] then 0 else DecimalValue(s[..|s| - 1]) * 10 + DigitValue(s[|s| - 1])
  }

  lemma {:induction false} DecimalRoundTrip(n: nat)
    ensures DecimalValue(Decimal(n)) == n
    decreases n
  {
    if n >= 10 {
      DecimalRoundTrip(n / 10);
      var s := Decimal(n);
      assert s[..|s| - 1] == Decimal(n / 10);
    }
  }

  /** The longest prefix of t made of digits. */
  function DigitPrefix(t: string): (r: string)
    ensures AllDigits(r) && |r| <= |t| && r == t[..|r|]
    ensures |r| < |t| ==> !IsDigit(t[|r|])
    decreases |t|
  {
    if t != [] && IsDigit(t[0]) then [t[0]] + DigitPrefix(t[1..]) else []
  }

  /** `re.findall(r'(\d+)', t)[0]`: the first maximal run of digits, None when t has no digit. */
  function FirstDigitRun(t: string): (r: Option<string>)
    ensures r.None? <==> forall k :: 0 <= k < |t| ==> !IsDigit(t[k])
    ensures r.Some? ==> r.value != [] && AllDigits(r.value) && IsInfix(r.value, t)
    decreases |t|
  {
    if t == [] then None
    else if IsDigit(t[0]) then Some(DigitPrefix(t))
    else FirstDigitRun(t[1..])
  }

  /** The review count: the integer value of the first digit run once every comma is removed. */
  function ParseReviewCount(text: string): Option<int> {
    var run := FirstDigitRun(RemoveChar(text, ','));
    if run.None? then None else Some(DecimalValue(run.value))
  }

  lemma {:induction false} DigitPrefixOf(d: string, s: string)
    requires AllDigits(d)
    requires s == [] || !IsDigit(s[0])
    ensures DigitPrefix(d + s) == d
    decreases |d|
  {
    if d == [] {
      assert d + s == s;
    } else {
      assert (d + s)[0] == d[0] && (d + s)[1..] == d[1..] + s;
      DigitPrefixOf(d[1..], s);
    }
  }

  lemma {:induction false} FirstDigitRunSkips(p: string, t: string)
    requires forall k :: 0 <= k < |p| ==> !IsDigit(p[k])
    ensures FirstDigitRun(p + t) == FirstDigitRun(t)
    decreases |p|
  {
    if p == [] {
      assert p + t == t;
    } else {
      assert (p + t)[0] == p[0] && (p + t)[1..] == p[1..] + t;
      FirstDigitRunSkips(p[1..], t);
    }
  }

  /**
   * A count rendered in decimal inside a label is read back: the text before it
   * has no digits and the text after it does not continue the number.
   */
  lemma ReviewCountRoundTrip(prefix: string, n: nat, suffix: string)
    requires forall k :: 0 <= k < |prefix| ==> !IsDigit(prefix[k])
    requires suffix == [] || (!IsDigit(suffix[0]) && suffix[0] != ',')
    ensures ParseReviewCount(prefix + Decimal(n) + suffix) == Some(n)
  {
    var d := Decimal(n);
    var p', s' := RemoveChar(prefix, ','), RemoveChar(suffix, ',');
    CommasAroundDigits(prefix, d, suffix);
    NoDigitsKept(prefix);
    FirstDigitRunSkips(p', d + s');
    SuffixStillEnds(suffix);
    DigitPrefixOf(d, s');
    assert (d + s')[0] == d[0];
    DecimalRoundTrip(n);
  }

  /** Removing commas around a run of digits leaves the run whole. */
  lemma CommasAroundDigits(prefix: string, d: string, suffix: string)
    requires AllDigits(d)
    ensures RemoveChar(prefix + d + suffix, ',') == RemoveChar(prefix, ',') + (d + RemoveChar(suffix, ','))
  {
    assert ',' !in d by {
      forall k | 0 <= k < |d| ensures d[k] != ',' {
        assert IsDigit(d[k]);
      }
    }
    calc {
      RemoveChar(prefix + d + suffix, ',');
      { RemoveCharAppend(prefix + d, suffix, ','); }
      RemoveChar(prefix + d, ',') + RemoveChar(suffix, ',');
      { RemoveCharAppend(prefix, d, ','); }
      RemoveChar(prefix, ',') + RemoveChar(d, ',') + RemoveChar(suffix, ',');
      { RemoveCharAbsent(d, ','); }
      RemoveChar(prefix, ',') + d + RemoveChar(suffix, ',');
    }
  }

  /** Removing commas adds no digit. */
  lemma NoDigitsKept(text: string)
    requires forall k :: 0 <= k < |text| ==> !IsDigit(text[k])
    ensures forall k :: 0 <= k < |RemoveChar(text, ',')| ==> !IsDigit(RemoveChar(text, ',')[k])
  {
    var t := RemoveChar(text, ',');
    RemoveCharOnly(text, ',');
    forall k | 0 <= k < |t| ensures !IsDigit(t[k]) {
      assert t[k] in t;
      assert t[k] in text;
    }
  }

  /** A suffix that starts with neither a digit nor a comma still does so without its commas. */
  lemma SuffixStillEnds(suffix: string)
    requires suffix == [] || (!IsDigit(suffix[0]) && suffix[0] != ',')
    ensures var s' := RemoveChar(suffix, ','); s' == [] || !IsDigit(s'[0])
  {
    if suffix != [] {
      assert RemoveChar(suffix, ',') == [suffix[0]] + RemoveChar(suffix[1..], ',');
    }
  }

  /** Thousands separators do not matter: a comma anywhere is ignored. */
  lemma CommaIgnored(a: string, b: string)
    ensures ParseReviewCount(a + "," + b) == ParseReviewCount(a + b)
  {
    RemoveCharAppend(a + ",", b, ',');
    RemoveCharAppend(a, ",", ',');
    assert RemoveChar(",", ',') == [] by {
      assert ","[1..] == [];
    }
    assert RemoveChar(a, ',') + [] == RemoveChar(a, ',');
    RemoveCharAppend(a, b, ',');
  }

  /** "(1,234)" reads as 1234 reviews. */
  lemma GroupedReviewCount()
    ensures ParseReviewCount("(1,234)") == Some(1234)
  {
    CommaIgnored("(1", "234)");
    assert "(1" + "," + "234)" == "(1,234)";
    assert Decimal(1234) == "1234";
    ReviewCountRoundTrip("(", 1234, ")");
    assert "(" + Decimal(1234) + ")" == "(1" + "234)";
  }

  /** A label that holds no digit gives no review count. */
  lemma NoDigitsNoCount(text: string)
    requires forall k :: 0 <= k < |text| ==> !IsDigit(text[k])
    ensures ParseReviewCount(text).None?
  {
    NoDigitsKept(text);
  }

  /** A label shown as "Address: ..." or "Phone: ..." loses its label. */
  lemma LabelStripped(prefix: string, value: string)
    requires prefix == AddressLabel || prefix == PhoneLabel
    requires !IsInfix(prefix, value)
    ensures ReplaceAll(prefix + value, prefix, "") == value
  {
    ReplaceAllLeading(prefix, "", value);
  }

  /** A label further inside the text is removed as well, not only a leading one. */
  lemma InnerLabelRemoved(prefix: string, u: string, v: string)
    requires prefix == AddressLabel || prefix == PhoneLabel
    requires prefix[0] !in u && prefix[0] !in v
    ensures ReplaceAll(u + (prefix + v), prefix, "") == u + v
  {
    ReplaceAllOnce(prefix, "", u, v);
    assert "" + v == v;
  }

  /** `_extract_business_details`, stated on the panel: None when the panel did not load. */
  function DetailsOf(panel: DetailPanel): (r: Option<Details>)
    ensures r.None? <==> !panel.loaded
  {
    if !panel.loaded then None
    else Some(Details(
      panel.heading,
      panel.rating,
      if panel.reviewsLabel.None? then None else ParseReviewCount(panel.reviewsLabel.value),
      panel.categoryText,
      if panel.addressLabel.None? then None else Some(ReplaceAll(panel.addressLabel.value, AddressLabel, "")),
      if panel.phoneLabel.None? then None else Some(ReplaceAll(panel.phoneLabel.value, PhoneLabel, "")),
      panel.websiteHref,
      panel.currentUrl))
  }

  /** The business record filled in field by field, as the scraper does. */
  method ExtractBusinessDetails(panel: DetailPanel) returns (r: Option<Details>)
    ensures r == DetailsOf(panel)
  {
    if !panel.loaded {
      return None;
    }
    var data := Details(None, None, None, None, None, None, None, None);
    data := data.(name := panel.heading);
    data := data.(rating := panel.rating);
    if panel.reviewsLabel.Some? {
      data := data.(reviewsCount := ParseReviewCount(panel.reviewsLabel.value));
    }
    data := data.(category := panel.categoryText);
    if panel.addressLabel.Some? {
      data := data.(address := Some(ReplaceAll(panel.addressLabel.value, AddressLabel, "")));
    }
    if panel.phoneLabel.Some? {
      data := data.(phone := Some(ReplaceAll(panel.phoneLabel.value, PhoneLabel, "")));
    }
    data := data.(website := panel.websiteHref);
    data := data.(mapsUrl := panel.currentUrl);
    r := Some(data);
  }

  /** A loaded panel whose labels carry no inner label text gives the labelled values back. */
  lemma DetailsOfLabelledPanel(panel: DetailPanel, address: string, phone: string)
    requires panel.loaded
    requires panel.addressLabel == Some(AddressLabel + address) && !IsInfix(AddressLabel, address)
    requires panel.phoneLabel == Some(PhoneLabel + phone) && !IsInfix(PhoneLabel, phone)
    ensures DetailsOf(panel).value.address == Some(address)
    ensures DetailsOf(panel).value.phone == Some(phone)
    ensures DetailsOf(panel).value.name == panel.heading && DetailsOf(panel).value.mapsUrl == panel.currentUrl
  {
    LabelStripped(AddressLabel, address);
    LabelStripped(PhoneLabel, phone);
  }

  // ================================================================ listings

  /** What one listing yields: nothing when clicking it failed or its panel did not load. */
  function ListingRecord(listing: Option<DetailPanel>): (r: seq<Details>)
    ensures |r| <= 1
    ensures r != [] <==> listing.Some? && listing.value.loaded
  {
    if listing.None? || !listing.value.loaded then [] else [DetailsOf(listing.value).value]
  }

  /** The records of the listings, in listing order, skipping the failed ones. */
  function Harvest(listings: seq<Option<DetailPanel>>): (r: seq<Details>)
    ensures |r| <= |listings|
    decreases |listings|
  {
    if listings == [] then []
    else Harvest(listings[..|listings| - 1]) + ListingRecord(listings[|listings| - 1])
  }

  lemma {:induction false} HarvestAppend(a: seq<Option<DetailPanel>>, b: seq<Option<DetailPanel>>)
    ensures Harvest(a + b) == Harvest(a) + Harvest(b)
    decreases |b|
  {
    if b == [] {
      assert a + b == a;
    } else {
      var b' := b[..|b| - 1];
      assert (a + b)[..|a + b| - 1] == a + b';
      assert (a + b)[|a + b| - 1] == b[|b| - 1];
      HarvestAppend(a, b');
    }
  }

  /** A listing that fails is skipped and the run goes on with the next one. */
  lemma FailedListingSkipped(a: seq<Option<DetailPanel>>, b: seq<Option<DetailPanel>>)
    ensures Harvest(a + [None] + b) == Harvest(a) + Harvest(b)
  {
    var a1 := a + [None];
    assert a1[..|a1| - 1] == a;
    assert Harvest(a1) == Harvest(a);
    HarvestAppend(a1, b);
  }

  /** When every listing loads, the k-th record is the k-th listing's details. */
  lemma {:induction false} HarvestAllLoaded(listings: seq<Option<DetailPanel>>)
    requires forall k :: 0 <= k < |listings| ==> listings[k].Some? && listings[k].value.loaded
    ensures |Harvest(listings)| == |listings|
    ensures forall k :: 0 <= k < |listings| ==> Harvest(listings)[k] == DetailsOf(listings[k].value).value
    decreases |listings|
  {
    if listings != [] {
      HarvestAllLoaded(listings[..|listings| - 1]);
    }
  }

  /** How many listings are examined: none when max_results is not positive, else at most max_results. */
  function Cap(maxResults: int, n: nat): (c: nat)
    ensures c <= n
    ensures maxResults <= 0 ==> c == 0
    ensures maxResults > 0 ==> c == (if maxResults < n then maxResults else n)
  {
    if maxResults <= 0 then 0 else if maxResults < n then maxResults else n
  }

  /** The end of Python's slice `listings[:m]`: a negative m counts from the back. */
  function SliceEnd(n: nat, m: int): (e: nat)
    ensures e <= n
  {
    if m >= 0 then (if m < n then m else n) else if n + m > 0 then n + m else 0
  }

  /** The records `_extract_listings` returns; None stands for a failed listing lookup. */
  function ListingsHarvest(listings: Option<seq<Option<DetailPanel>>>, maxResults: int): seq<Details> {
    if listings.None? then [] else Harvest(listings.value[..Cap(maxResults, |listings.value|)])
  }

  /** At most `max_results` records come back, and none for a non-positive `max_results`. */
  lemma ListingsHarvestCapped(listings: Option<seq<Option<DetailPanel>>>, maxResults: int)
    ensures |ListingsHarvest(listings, maxResults)| <= (if maxResults <= 0 then 0 else maxResults)
  {
  }

  /**
   * `_extract_listings`: walks the sliced listings in order, stops at index
   * `max_results`, and keeps the record of every listing that yields one.
   */
  method ExtractListings(listings: Option<seq<Option<DetailPanel>>>, maxResults: int)
    returns (businesses: seq<Details>)
    ensures businesses == ListingsHarvest(listings, maxResults)
  {
    businesses := [];
    if listings.None? {
      return;
    }
    var all := listings.value;
    var end := SliceEnd(|all|, maxResults);
    var idx := 0;
    while idx < end
      invariant 0 <= idx <= end
      invariant idx <= Cap(maxResults, |all|)
      invariant businesses == Harvest(all[..idx])
    {
      if idx >= maxResults {
        break;
      }
      var record: Option<Details> := None;
      if all[idx].Some? {
        record := ExtractBusinessDetails(all[idx].value);
      }
      if record.Some? {
        businesses := businesses + [record.value];
      }
      assert all[..idx + 1][..idx] == all[..idx];
      idx := idx + 1;
    }
  }

  // ================================================================ the scraper

  const DriverInitFailed: string := "Failed to initialize Chrome driver: "
  const ScrapingFailed: string := "Scraping failed: "

  /** The message of the NameError raised when `webdriver.Chrome(service=service, ...)` reads `service`. */
  const ServiceUnbound: string := "name 'service' is not defined"

  /** Whether `_init_driver` binds `service` before starting Chrome: the line that binds it is commented out. */
  const ServiceBoundAsWritten: bool := false

  /**
   * `_init_driver`: None when Chrome started, otherwise the message of the
   * GoogleMapsScraperError it raises. Starting Chrome reads `service`; an
   * unbound name and a failure reported by Chrome (`chromeError`) both end in
   * the handler.
   */
  function InitDriver(serviceBound: bool, chromeError: Option<string>): (r: Option<string>)
    ensures r.None? <==> serviceBound && chromeError.None?
    ensures r.Some? ==> StartsWith(r.value, DriverInitFailed)
    ensures !serviceBound ==> r == Some(DriverInitFailed + ServiceUnbound)
    ensures serviceBound && chromeError.Some? ==> r == Some(DriverInitFailed + chromeError.value)
  {
    if !serviceBound then Some(DriverInitFailed + ServiceUnbound)
    else if chromeError.Some? then Some(DriverInitFailed + chromeError.value)
    else None
  }

  /** As written, the driver never starts, whatever Chrome would do. */
  lemma DriverNeverStartsAsWritten(chromeError: Option<string>)
    ensures InitDriver(ServiceBoundAsWritten, chromeError) == Some(DriverInitFailed + ServiceUnbound)
  {
  }

  /** What the browser shows for one search. */
  datatype MapsPage = MapsPage(
    panelFound: bool,
    heights: seq<int>,
    listings: Option<seq<Option<DetailPanel>>>)

  /** What `search` returns, or the message of the GoogleMapsScraperError it raises. */
  datatype SearchOutcome =
    | Scraped(url: string, businesses: seq<Details>)
    | ScrapeFailed(message: string)

  /** The scraper object; `results` holds the records of the last successful search. */
  class GoogleMapsScraper {
    var results: seq<Details>

    constructor ()
      ensures results == []
    {
      results := [];
    }

    /**
     * `search`, with `serviceBound` saying whether `_init_driver` can read
     * `service`: starts the driver, opens the search URL, scrolls the panel,
     * then collects the listings into `results`. A driver failure is re-raised
     * with the `Scraping failed: ` prefix and leaves `results` as it was.
     */
    method SearchWith(serviceBound: bool, query: string, location: string, maxResults: int,
                      chromeError: Option<string>, page: MapsPage)
      returns (r: SearchOutcome)
      modifies this
      ensures InitDriver(serviceBound, chromeError).Some? ==>
        r == ScrapeFailed(ScrapingFailed + InitDriver(serviceBound, chromeError).value) && results == old(results)
      ensures InitDriver(serviceBound, chromeError).None? ==>
        r == Scraped(SearchUrl(query, location), ListingsHarvest(page.listings, maxResults)) && results == r.businesses
    {
      var driverError := InitDriver(serviceBound, chromeError);
      if driverError.Some? {
        r := ScrapeFailed(ScrapingFailed + driverError.value);
        return;
      }
      var searchQuery := if location != [] then Strip(query + " " + location) else query;
      var url := SearchUrlPrefix + ReplaceChar(searchQuery, ' ', '+');
      var _, _, _ := ScrollResultsPanel(maxResults, page.panelFound, page.heights);
      results := ExtractListings(page.listings, maxResults);
      r := Scraped(url, results);
    }

    /** `search` as written: every call fails in `_init_driver`, opens nothing and keeps `results`. */
    method SearchAsWritten(query: string, location: string, maxResults: int,
                           chromeError: Option<string>, page: MapsPage)
      returns (r: SearchOutcome)
      modifies this
      ensures r == ScrapeFailed(ScrapingFailed + DriverInitFailed + ServiceUnbound)
      ensures results == old(results)
    {
      r := SearchWith(ServiceBoundAsWritten, query, location, maxResults, chromeError, page);
    }

    /**
     * `search` with `service` bound: when Chrome starts, the URL opened is the
     * search URL and `results` is the capped harvest of the listings; when it
     * does not, Chrome's failure is reported.
     */
    method Search(query: string, location: string, maxResults: int,
                  chromeError: Option<string>, page: MapsPage)
      returns (r: SearchOutcome)
      modifies this
      ensures chromeError.None? ==>
        r == Scraped(SearchUrl(query, location), ListingsHarvest(page.listings, maxResults)) && results == r.businesses
      ensures chromeError.Some? ==>
        r == ScrapeFailed(ScrapingFailed + DriverInitFailed + chromeError.value) && results == old(results)
    {
      r := SearchWith(true, query, location, maxResults, chromeError, page);
    }
  }
}
