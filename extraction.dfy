/**
 * The per-city extraction step of the scraper (`scrape_location`): the
 * search page yields listing links, each link is cut at its query string,
 * duplicates are dropped, at most `max_results` links are kept, and each
 * kept link that opens yields one business record.
 *
 * The headless browser itself is not modelled; a `Browser` value stands for
 * what it would answer: whether it launches, which listing links a search
 * shows, and which fields a listing page shows.
 */
module Extraction {
  import opened Wrappers
  import opened Text

  /** The value the scraper writes for a field the listing page does not show. */
  const NotAvailable: string := "N/A"

  /** One extracted business listing (the dict built per visited page). */
  datatype Record = Record(
    businessName: string,
    phone: string,
    website: string,
    address: string,
    category: string,
    city: string,
    state: string,
    googleMapsUrl: string)

  /** What a listing page shows: its heading, and each optional field when present. */
  datatype PageFields = PageFields(
    name: string,
    website: Option<string>,
    phone: Option<string>,
    address: Option<string>)

  /**
   * The browser's answers. `launchError` is the message of the exception
   * raised while launching it, if any; `search` gives, for a search term,
   * the `href` attribute of each listing link (None for a link without one),
   * or None when the results feed never appears or a page step raises;
   * `visit` gives a listing page's fields, or None when visiting it raises.
   */
  datatype Browser = Browser(
    launchError: Option<string>,
    search: string -> Option<seq<Option<string>>>,
    visit: string -> Option<PageFields>)

  /** What one call of the extractor does: return records, or raise. */
  datatype Extraction = Returned(records: seq<Record>) | Raised(message: string)

  ghost predicate Distinct<T>(s: seq<T>) {
    forall i, j :: 0 <= i < j < |s| ==> s[i] != s[j]
  }

  /** No two records come from the same listing link. */
  ghost predicate DistinctUrls(r: seq<Record>) {
    forall i, j :: 0 <= i < j < |r| ==> r[i].googleMapsUrl != r[j].googleMapsUrl
  }

  ghost function Elems<T>(s: seq<T>): set<T> {
    set x | x in s
  }

  /** The search typed into the maps search box. */
  function SearchTerm(category: string, city: string, state: string): string {
    category + " in " + city + ", " + state
  }

  /** A link without its query string: `href.split('?')[0]`. */
  function CutAtQuery(href: string): (url: string)
    ensures '?' !in url
    ensures url == Split(href, '?')[0]
  {
    BeforeFirstIsFirstPiece(href, '?');
    BeforeFirst(href, '?')
  }

  /** Python truthiness of an attribute value: present and non-empty. */
  predicate Truthy(href: Option<string>) {
    href.Some? && href.value != []
  }

  /** The cut links, in page order, of every link whose `href` is truthy. */
  function CutAll(hrefs: seq<Option<string>>): (urls: seq<string>)
    ensures |urls| <= |hrefs|
  {
    if hrefs == [] then []
    else
      var last := hrefs[|hrefs| - 1];
      CutAll(hrefs[..|hrefs| - 1]) + (if Truthy(last) then [CutAtQuery(last.value)] else [])
  }

  /** The URLs collected are exactly the cuts of the truthy links. */
  lemma {:induction false} CutAllMembers(hrefs: seq<Option<string>>, u: string)
    ensures u in CutAll(hrefs) <==>
      exists i :: 0 <= i < |hrefs| && Truthy(hrefs[i]) && u == CutAtQuery(hrefs[i].value)
  {
    if hrefs != [] {
      var init := hrefs[..|hrefs| - 1];
      var last := hrefs[|hrefs| - 1];
      CutAllMembers(init, u);
      assert CutAll(hrefs) == CutAll(init) + (if Truthy(last) then [CutAtQuery(last.value)] else []);
      if u in CutAll(init) {
        var i :| 0 <= i < |init| && Truthy(init[i]) && u == CutAtQuery(init[i].value);
        assert hrefs[i] == init[i];
      }
      if exists i :: 0 <= i < |hrefs| && Truthy(hrefs[i]) && u == CutAtQuery(hrefs[i].value) {
        var i :| 0 <= i < |hrefs| && Truthy(hrefs[i]) && u == CutAtQuery(hrefs[i].value);
        if i < |init| {
          assert init[i] == hrefs[i];
        }
      }
    }
  }

  /** No collected URL keeps a query string. */
  lemma CutAllNoQuery(hrefs: seq<Option<string>>)
    ensures forall u :: u in CutAll(hrefs) ==> '?' !in u
  {
    forall u | u in CutAll(hrefs) ensures '?' !in u {
      CutAllMembers(hrefs, u);
    }
  }

  /** The loop that collects the cut link of every truthy `href`. */
  method CollectUrls(hrefs: seq<Option<string>>) returns (urls: seq<string>)
    ensures urls == CutAll(hrefs)
  {
    urls := [];
    var i := 0;
    while i < |hrefs|
      invariant 0 <= i <= |hrefs|
      invariant urls == CutAll(hrefs[..i])
    {
      var href := hrefs[i];
      if Truthy(href) {
        urls := urls + [CutAtQuery(href.value)];
      }
      assert hrefs[..i + 1][..i] == hrefs[..i];
      i := i + 1;
    }
    assert hrefs[..i] == hrefs;
  }

  /**
   * The distinct elements of `s`, each once, in order of first occurrence
   * (one of the orders `list(set(s))` may produce).
   */
  function Dedupe<T(==)>(s: seq<T>): seq<T> {
    if s == [] then []
    else
      var d := Dedupe(s[..|s| - 1]);
      if s[|s| - 1] in d then d else d + [s[|s| - 1]]
  }

  /** Deduplication keeps every element exactly once, and no other. */
  lemma {:induction false} DedupeSpec<T(!new)>(s: seq<T>)
    ensures Distinct(Dedupe(s))
    ensures forall x :: x in Dedupe(s) <==> x in s
    ensures |Dedupe(s)| == |Elems(s)|
  {
    if s != [] {
      var init := s[..|s| - 1];
      var x := s[|s| - 1];
      DedupeSpec(init);
      var d := Dedupe(init);
      assert s == init + [x];
      assert forall y :: y in s <==> y in init || y == x;
      assert Elems(s) == Elems(init) + {x};
      assert Elems(d) == Elems(init);
      assert x in init ==> Elems(s) == Elems(init);
    }
  }

  function Min(a: int, b: int): int { if a <= b then a else b }

  function Max(a: int, b: int): int { if a >= b then a else b }

  /**
   * Python's `s[:m]`: the first `m` elements for `m >= 0`, and all but the
   * last `-m` elements for a negative `m`.
   */
  function PyTake<T>(s: seq<T>, m: int): (r: seq<T>)
    ensures |r| <= |s| && r == s[..|r|]
    ensures m >= 0 ==> |r| == Min(m, |s|)
    ensures m < 0 ==> |r| == Max(0, |s| + m)
  {
    if m >= 0 then (if m <= |s| then s[..m] else s)
    else if |s| + m >= 0 then s[..|s| + m] else []
  }

  /** `list(set(urls))[:max_results]`. */
  function SelectUrls(urls: seq<string>, maxResults: int): seq<string> {
    PyTake(Dedupe(urls), maxResults)
  }

  /**
   * The links a city visits are distinct links drawn from the collected ones;
   * there are `min(max_results, #distinct)` of them for a non-negative cap,
   * all of them when the cap covers every distinct link, and for a negative
   * cap Python's slice keeps all but the last `-max_results`.
   */
  lemma SelectUrlsSpec(urls: seq<string>, maxResults: int)
    ensures Distinct(SelectUrls(urls, maxResults))
    ensures forall u :: u in SelectUrls(urls, maxResults) ==> u in urls
    ensures maxResults >= 0 ==> |SelectUrls(urls, maxResults)| == Min(maxResults, |Elems(urls)|)
    ensures maxResults >= |Elems(urls)| ==> forall u :: u in urls ==> u in SelectUrls(urls, maxResults)
    ensures maxResults < 0 ==> |SelectUrls(urls, maxResults)| == Max(0, |Elems(urls)| + maxResults)
  {
    var d := Dedupe(urls);
    DedupeSpec(urls);
    var r := SelectUrls(urls, maxResults);
    assert r == d[..|r|];
    forall i, j | 0 <= i < j < |r| ensures r[i] != r[j] {
      assert r[i] == d[i] && r[j] == d[j];
    }
    forall u | u in r ensures u in urls {
      var i :| 0 <= i < |r| && r[i] == u;
      assert d[i] == u;
    }
    if maxResults >= |Elems(urls)| {
      assert r == d;
    }
  }

  /** The record built from a visited page, with "N/A" for each field it lacks. */
  function MakeRecord(page: PageFields, category: string, city: string, state: string, url: string): Record {
    Record(
      page.name,
      if page.phone.Some? then page.phone.value else NotAvailable,
      if page.website.Some? then page.website.value else NotAvailable,
      if page.address.Some? then page.address.value else NotAvailable,
      category, city, state, url)
  }

  /** The records of visiting `urls` in order, skipping every visit that raises. */
  function VisitAll(browser: Browser, urls: seq<string>, category: string, city: string, state: string): (r: seq<Record>)
    ensures |r| <= |urls|
  {
    if urls == [] then []
    else
      var url := urls[|urls| - 1];
      var prev := VisitAll(browser, urls[..|urls| - 1], category, city, state);
      match browser.visit(url)
      case None => prev
      case Some(page) => prev + [MakeRecord(page, category, city, state, url)]
  }

  /** Every record comes from one of the visited links and carries the search's category, city and state. */
  lemma {:induction false} VisitAllFields(browser: Browser, urls: seq<string>, category: string, city: string, state: string)
    ensures forall k :: 0 <= k < |VisitAll(browser, urls, category, city, state)| ==>
      var rec := VisitAll(browser, urls, category, city, state)[k];
      rec.googleMapsUrl in urls && rec.category == category && rec.city == city && rec.state == state
  {
    if urls != [] {
      var init := urls[..|urls| - 1];
      var url := urls[|urls| - 1];
      VisitAllFields(browser, init, category, city, state);
      var prev := VisitAll(browser, init, category, city, state);
      var r := VisitAll(browser, urls, category, city, state);
      forall k | 0 <= k < |r|
        ensures r[k].googleMapsUrl in urls && r[k].category == category && r[k].city == city && r[k].state == state
      {
        if k < |prev| {
          assert r[k] == prev[k];
          assert prev[k].googleMapsUrl in init;
        } else {
          assert r[k] == MakeRecord(browser.visit(url).value, category, city, state, url);
        }
      }
    }
  }

  /** Visiting distinct links yields at most one record per link. */
  lemma {:induction false} VisitAllDistinct(browser: Browser, urls: seq<string>, category: string, city: string, state: string)
    requires Distinct(urls)
    ensures DistinctUrls(VisitAll(browser, urls, category, city, state))
  {
    if urls != [] {
      var init := urls[..|urls| - 1];
      VisitAllDistinct(browser, init, category, city, state);
      VisitAllFields(browser, init, category, city, state);
      var prev := VisitAll(browser, init, category, city, state);
      var url := urls[|urls| - 1];
      assert url !in init;
      forall k | 0 <= k < |prev| ensures prev[k].googleMapsUrl != url {
        assert prev[k].googleMapsUrl in init;
      }
      var r := VisitAll(browser, urls, category, city, state);
      if browser.visit(url).Some? {
        var rec := MakeRecord(browser.visit(url).value, category, city, state, url);
        assert r == prev + [rec];
        forall i, j | 0 <= i < j < |r| ensures r[i].googleMapsUrl != r[j].googleMapsUrl {
          if j == |prev| {
            assert r[i] == prev[i] && r[j] == rec;
            assert rec.googleMapsUrl == url;
            assert prev[i].googleMapsUrl != url;
          } else {
            assert r[i] == prev[i] && r[j] == prev[j];
          }
        }
      }
    }
  }

  /**
   * What `scrape_location` returns for a city once the browser is up: nothing
   * when the results feed never appears, otherwise one record per selected
   * link whose page opens.
   */
  function CityRecords(browser: Browser, category: string, city: string, state: string, maxResults: int): seq<Record> {
    match browser.search(SearchTerm(category, city, state))
    case None => []
    case Some(hrefs) => VisitAll(browser, SelectUrls(CutAll(hrefs), maxResults), category, city, state)
  }

  /**
   * Each city contributes at most `max_results` records (for a non-negative
   * cap), at most one per distinct link, all tagged with that city and
   * category, with a query-free maps URL.
   */
  lemma CityRecordsSpec(browser: Browser, category: string, city: string, state: string, maxResults: int)
    ensures var r := CityRecords(browser, category, city, state, maxResults);
      && (maxResults >= 0 ==> |r| <= maxResults)
      && (forall k :: 0 <= k < |r| ==>
            r[k].category == category && r[k].city == city && r[k].state == state && '?' !in r[k].googleMapsUrl)
      && DistinctUrls(r)
  {
    match browser.search(SearchTerm(category, city, state))
    case None =>
    case Some(hrefs) =>
      var urls := CutAll(hrefs);
      var selected := SelectUrls(urls, maxResults);
      SelectUrlsSpec(urls, maxResults);
      CutAllNoQuery(hrefs);
      VisitAllFields(browser, selected, category, city, state);
      VisitAllDistinct(browser, selected, category, city, state);
  }

  /**
   * The extractor as the job runner sees it: whether launching the browser
   * raises, and the records a city yields once it is up. The runner's
   * properties hold for any extractor; `ExtractorOf` is the one the scraper
   * implements.
   */
  datatype Extractor = Extractor(
    launchError: Option<string>,
    cityRecords: (string, string, string, int) -> seq<Record>)

  /** The extractor a browser gives: its launch outcome and `CityRecords`. */
  function ExtractorOf(browser: Browser): Extractor {
    Extractor(browser.launchError,
              (category, city, state, maxResults) => CityRecords(browser, category, city, state, maxResults))
  }

  /**
   * One extractor call. The browser is launched on the first call only; a
   * launch that raises is the one failure that escapes, every later failure
   * of a city is absorbed into an empty list.
   */
  function CityExtraction(ex: Extractor, pageOpen: bool, category: string, city: string, state: string, maxResults: int): (e: Extraction)
    ensures e.Raised? <==> !pageOpen && ex.launchError.Some?
  {
    if !pageOpen && ex.launchError.Some? then Raised(ex.launchError.value)
    else Returned(ex.cityRecords(category, city, state, maxResults))
  }

  /** The extractor's promise: never more records than a non-negative cap. */
  ghost predicate WithinCap(ex: Extractor) {
    forall category, city, state, maxResults ::
      maxResults >= 0 ==> |ex.cityRecords(category, city, state, maxResults)| <= maxResults
  }

  /** The browser's extractor keeps that promise. */
  lemma ExtractorOfWithinCap(browser: Browser)
    ensures WithinCap(ExtractorOf(browser))
  {
    var ex := ExtractorOf(browser);
    forall category, city, state, maxResults | maxResults >= 0
      ensures |ex.cityRecords(category, city, state, maxResults)| <= maxResults
    {
      CityRecordsSpec(browser, category, city, state, maxResults);
    }
  }

  /** A city scraped through the browser's extractor contributes at most the cap, one record per link. */
  lemma ExtractorOfSpec(browser: Browser, pageOpen: bool, category: string, city: string, state: string, maxResults: int)
    ensures var e := CityExtraction(ExtractorOf(browser), pageOpen, category, city, state, maxResults);
      && (e.Raised? <==> !pageOpen && browser.launchError.Some?)
      && (e.Raised? ==> e.message == browser.launchError.value)
      && (e.Returned? ==> && (maxResults >= 0 ==> |e.records| <= maxResults)
                          && (forall k :: 0 <= k < |e.records| ==>
                                e.records[k].category == category && e.records[k].city == city
                                && e.records[k].state == state && '?' !in e.records[k].googleMapsUrl)
                          && DistinctUrls(e.records))
  {
    CityRecordsSpec(browser, category, city, state, maxResults);
  }

  /** The scraper object: a browser handle and whether its page is open. */
  class BusinessScraper {
    const browser: Browser
    var pageOpen: bool

    constructor (browser: Browser)
      ensures this.browser == browser && !pageOpen
    {
      this.browser := browser;
      pageOpen := false;
    }

    /** Launches the browser and opens its page, or reports the launch error. */
    method InitBrowser() returns (err: Option<string>)
      modifies this
      ensures err == browser.launchError
      ensures pageOpen == err.None?
    {
      err := browser.launchError;
      pageOpen := err.None?;
    }

    /** The loop over the selected links, one record per page that opens. */
    method VisitUrls(urls: seq<string>, category: string, city: string, state: string) returns (records: seq<Record>)
      ensures records == VisitAll(browser, urls, category, city, state)
    {
      records := [];
      var i := 0;
      while i < |urls|
        invariant 0 <= i <= |urls|
        invariant records == VisitAll(browser, urls[..i], category, city, state)
      {
        var url := urls[i];
        assert urls[..i + 1][..i] == urls[..i];
        var page := browser.visit(url);
        if page.Some? {
          records := records + [MakeRecord(page.value, category, city, state, url)];
        }
        i := i + 1;
      }
      assert urls[..i] == urls;
    }

    /** `scrape_location`: one city's records, or the launch error raised. */
    method ScrapeLocation(category: string, city: string, state: string, maxResults: int) returns (e: Extraction)
      modifies this
      ensures pageOpen == (old(pageOpen) || browser.launchError.None?)
      ensures e == CityExtraction(ExtractorOf(browser), old(pageOpen), category, city, state, maxResults)
    {
      if !pageOpen {
        var err := InitBrowser();
        if err.Some? {
          return Raised(err.value);
        }
      }
      var feed := browser.search(SearchTerm(category, city, state));
      if feed.None? {
        return Returned([]);
      }
      var urls := CollectUrls(feed.value);
      var selected := SelectUrls(urls, maxResults);
      var records := VisitUrls(selected, category, city, state);
      return Returned(records);
    }
  }
}
