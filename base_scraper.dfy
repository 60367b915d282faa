/**
 * The site-independent part of every scraper (scrapers/base_scraper.py):
 * the site name, the feature flags read from a listing's text, the Property
 * built from a listing, and the bounded page loop of `scrape_city`.
 *
 * What a concrete scraper supplies (its search URL, its listing-page parser,
 * its detail-page reader) and the HTTP fetch are given as functions. The
 * text parsers are the duplicate detector's: the two classes define them
 * with the same code.
 */
module BaseScraper {
  import opened Wrappers
  import opened Text
  import opened Settings
  import opened Models
  import opened Listings
  import opened DuplicateDetector

  /** `max_pages`: `scrape_city` never asks for a page beyond this one. */
  const MaxPages: nat := 10

  /** `get_site_name` and `source_site`: the class name lower-cased with every "scraper" removed. */
  function SiteName(className: string): string {
    ReplaceAll(Lower(className), "scraper", "")
  }

  /** A lower-cased class name without "scraper" is kept whole. */
  lemma {:induction false} SiteNameWithoutSuffix(className: string)
    requires !Contains(Lower(className), "scraper")
    ensures SiteName(className) == Lower(className)
  {
    ReplaceAllAbsent(Lower(className), "scraper", "");
  }

  /** A string without the pattern is left unchanged by replacing it. */
  lemma {:induction false} ReplaceAllAbsent(s: string, pat: string, rep: string)
    requires pat != [] && !Contains(s, pat)
    ensures ReplaceAll(s, pat, rep) == s
    decreases |s|
  {
    if |s| > 0 {
      ReplaceAllAbsent(s[1..], pat, rep);
      assert s == [s[0]] + s[1..];
    }
  }

  // ---------------------------------------------------------------------------
  // Features

  /** The keywords of each feature flag, in the source's order. */
  const BalconyWords: seq<string> := ["balcon", "terrasse", "loggia"]
  const ParkingWords: seq<string> := ["parking", "garage", "stationnement"]
  const ElevatorWords: seq<string> := ["ascenseur", "lift"]
  const CellarWords: seq<string> := ["cave", "cellier"]
  const GardenWords: seq<string> := ["jardin", "garden"]
  const FurnishedWords: seq<string> := ["meublé", "furnished"]
  const NewWords: seq<string> := ["neuf", "nouveau", "récent"]
  const MetroWords: seq<string> := ["métro", "metro", "rer", "tramway"]
  const SchoolWords: seq<string> := ["école", "school", "université"]
  const ShopWords: seq<string> := ["commerce", "magasin", "shopping"]

  /** `any(word in text for word in words)`. */
  predicate AnyOccurs(text: string, words: seq<string>) {
    exists k :: 0 <= k < |words| && Contains(text, words[k])
  }

  /** The flags of a (lower-cased) text: each is set iff one of its keywords occurs in it. */
  function FlagsOf(text: string): Features {
    Features(
      balcony := AnyOccurs(text, BalconyWords),
      parking := AnyOccurs(text, ParkingWords),
      elevator := AnyOccurs(text, ElevatorWords),
      cellar := AnyOccurs(text, CellarWords),
      garden := AnyOccurs(text, GardenWords),
      furnished := AnyOccurs(text, FurnishedWords),
      isNew := AnyOccurs(text, NewWords),
      metro := AnyOccurs(text, MetroWords),
      school := AnyOccurs(text, SchoolWords),
      shops := AnyOccurs(text, ShopWords))
  }

  /** `extract_features`: the flags of the lower-cased "title description". */
  function ExtractFeatures(description: string, title: string): Features {
    FlagsOf(Lower(title + " " + description))
  }

  /** Every flag set in `g` is set in `f`. */
  predicate Covers(f: Features, g: Features) {
    && (g.balcony ==> f.balcony) && (g.parking ==> f.parking) && (g.elevator ==> f.elevator)
    && (g.cellar ==> f.cellar) && (g.garden ==> f.garden) && (g.furnished ==> f.furnished)
    && (g.isNew ==> f.isNew) && (g.metro ==> f.metro) && (g.school ==> f.school) && (g.shops ==> f.shops)
  }

  const NoFeatures := Features(false, false, false, false, false, false, false, false, false, false)

  lemma AnyOccursInParts(a: string, b: string, words: seq<string>)
    ensures AnyOccurs(a, words) ==> AnyOccurs(a + b, words)
    ensures AnyOccurs(b, words) ==> AnyOccurs(a + b, words)
  {
    if AnyOccurs(a, words) {
      var k :| 0 <= k < |words| && Contains(a, words[k]);
      ContainsInPrefix(a, b, words[k]);
    }
    if AnyOccurs(b, words) {
      var k :| 0 <= k < |words| && Contains(b, words[k]);
      ContainsInSuffix(a, b, words[k]);
    }
  }

  /** The flags of a text include those of each of its two parts. */
  lemma FlagsOfParts(a: string, b: string)
    ensures Covers(FlagsOf(a + b), FlagsOf(a)) && Covers(FlagsOf(a + b), FlagsOf(b))
  {
    AnyOccursInParts(a, b, BalconyWords);
    AnyOccursInParts(a, b, ParkingWords);
    AnyOccursInParts(a, b, ElevatorWords);
    AnyOccursInParts(a, b, CellarWords);
    AnyOccursInParts(a, b, GardenWords);
    AnyOccursInParts(a, b, FurnishedWords);
    AnyOccursInParts(a, b, NewWords);
    AnyOccursInParts(a, b, MetroWords);
    AnyOccursInParts(a, b, SchoolWords);
    AnyOccursInParts(a, b, ShopWords);
  }

  /** A keyword in the title or in the description alone sets its flag. */
  lemma FeaturesOfTitleOrDescription(description: string, title: string)
    ensures Covers(ExtractFeatures(description, title), FlagsOf(Lower(title)))
    ensures Covers(ExtractFeatures(description, title), FlagsOf(Lower(description)))
  {
    LowerAppend(title + " ", description);
    LowerAppend(title, " ");
    FlagsOfParts(Lower(title + " "), Lower(description));
    FlagsOfParts(Lower(title), Lower(" "));
    assert Lower(title + " " + description) == Lower(title) + Lower(" ") + Lower(description);
  }

  lemma NoWordOccurs(text: string, words: seq<string>)
    requires forall k :: 0 <= k < |words| ==> |words[k]| > |text|
    ensures !AnyOccurs(text, words)
  {
    if AnyOccurs(text, words) {
      var k :| 0 <= k < |words| && Contains(text, words[k]);
      ContainsShorter(text, words[k]);
    }
  }

  /** Every keyword has at least three characters. */
  lemma KeywordsAreLong()
    ensures forall k :: 0 <= k < |BalconyWords| ==> |BalconyWords[k]| >= 3
    ensures forall k :: 0 <= k < |ParkingWords| ==> |ParkingWords[k]| >= 3
    ensures forall k :: 0 <= k < |ElevatorWords| ==> |ElevatorWords[k]| >= 3
    ensures forall k :: 0 <= k < |CellarWords| ==> |CellarWords[k]| >= 3
    ensures forall k :: 0 <= k < |GardenWords| ==> |GardenWords[k]| >= 3
    ensures forall k :: 0 <= k < |FurnishedWords| ==> |FurnishedWords[k]| >= 3
    ensures forall k :: 0 <= k < |NewWords| ==> |NewWords[k]| >= 3
    ensures forall k :: 0 <= k < |MetroWords| ==> |MetroWords[k]| >= 3
    ensures forall k :: 0 <= k < |SchoolWords| ==> |SchoolWords[k]| >= 3
    ensures forall k :: 0 <= k < |ShopWords| ==> |ShopWords[k]| >= 3
  {
  }

  /** A text shorter than every keyword sets no flag; so a listing without title and description has no feature. */
  lemma ShortTextHasNoFeatures(text: string)
    requires |text| < 3
    ensures FlagsOf(text) == NoFeatures
  {
    KeywordsAreLong();
    NoWordOccurs(text, BalconyWords);
    NoWordOccurs(text, ParkingWords);
    NoWordOccurs(text, ElevatorWords);
    NoWordOccurs(text, CellarWords);
    NoWordOccurs(text, GardenWords);
    NoWordOccurs(text, FurnishedWords);
    NoWordOccurs(text, NewWords);
    NoWordOccurs(text, MetroWords);
    NoWordOccurs(text, SchoolWords);
    NoWordOccurs(text, ShopWords);
  }

  lemma EmptyListingHasNoFeatures()
    ensures ExtractFeatures("", "") == NoFeatures
  {
    ShortTextHasNoFeatures(Lower("" + " " + ""));
  }

  // ---------------------------------------------------------------------------
  // Building properties

  /** What a concrete scraper supplies. */
  datatype Site = Site(
    className: string,
    searchUrl: (SearchCriteria, string, nat) -> string,
    parseListingPage: (string, SearchCriteria) -> seq<ListingData>,
    propertyDetails: string -> ListingDetails)

  /** A scraper: its site and the duplicate detector built from the configuration. */
  datatype Scraper = Scraper(site: Site, det: Detector)

  /** `DuplicateDetector(config)`: the thresholds come from the configuration. */
  function NewScraper(site: Site, cfg: Config, fuzzy: Fuzzy): (s: Scraper)
    ensures s.det.addressThreshold == cfg.addressThreshold && s.det.descriptionThreshold == cfg.descriptionThreshold
    ensures s.det.priceThreshold == cfg.priceThreshold && s.site == site
  {
    Scraper(site, Detector(cfg.addressThreshold, cfg.descriptionThreshold, cfg.priceThreshold, fuzzy))
  }

  /** The Property `create_property_from_data` builds, before it is inserted. */
  function NewProperty(data: ListingData, city: string, className: string): Property {
    Property(
      id := 0,
      title := data.title,
      description := data.description,
      price := ParsePrice(data.price),
      rooms := RoomsOf(data.rooms),
      area := ParseArea(data.area),
      propertyType := data.propertyType,
      address := data.address,
      city := city,
      postalCode := data.postalCode,
      neighborhood := data.neighborhood,
      sourceSite := SiteName(className),
      sourceUrl := data.url,
      sourceId := data.id,
      features := Some(ExtractFeatures(data.description, data.title)),
      images := Some(data.images),
      status := Some(New),
      firstSeen := None,
      lastUpdated := None,
      stillAvailable := None,
      duplicateOf := None)
  }

  /** `create_property_from_data`, as a value: nothing for a duplicate, else the new Property. */
  function PropertyFromData(s: Scraper, rows: seq<Property>, data: ListingData, city: string): Option<Property> {
    if HasDuplicate(data, rows, s.det) then None else Some(NewProperty(data, city, s.site.className))
  }

  /**
   * A built property, once stored, is an available NEW row of the searched
   * city and of the scraper's site, keyed by the listing's URL, with the
   * listing's parsed price.
   */
  lemma BuiltPropertyOnceInserted(s: Scraper, rows: seq<Property>, data: ListingData, city: string, id: nat, now: Time)
    requires id > 0
    requires PropertyFromData(s, rows, data, city).Some?
    ensures var p := InsertedProperty(PropertyFromData(s, rows, data, city).value, id, now);
      && p.status == Some(New) && p.stillAvailable == Some(true) && p.duplicateOf.None?
      && p.city == city && p.sourceSite == SiteName(s.site.className)
      && p.sourceUrl == data.url && p.price == ParsePrice(data.price)
      && p.firstSeen == Some(now) && p.lastUpdated == Some(now)
  {
  }

  /** `create_property_from_data`: ask the detector, then build the Property. */
  method CreatePropertyFromData(s: Scraper, rows: seq<Property>, data: ListingData, city: string)
    returns (r: Option<Property>)
    ensures r.None? <==> HasDuplicate(data, rows, s.det)
    ensures r.Some? ==> r.value == NewProperty(data, city, s.site.className)
  {
    var dup := IsDuplicate(data, rows, s.det);
    if dup {
      return None;
    }
    return Some(NewProperty(data, city, s.site.className));
  }

  // ---------------------------------------------------------------------------
  // The page loop

  /** A listing once its detail page is merged in (`prop_data.update(detailed_data)`). */
  function Detailed(site: Site, data: ListingData): ListingData {
    Update(data, site.propertyDetails(data.url))
  }

  /** What `create_property_from_data` yields for each listing, for a scraper, a store and a city. */
  function Yield(s: Scraper, rows: seq<Property>, city: string): ListingData -> Option<Property> {
    (data: ListingData) => PropertyFromData(s, rows, data, city)
  }

  /** The properties a listing page yields, in listing order, each listing merged with its details first. */
  function Collected(site: Site, outcome: ListingData -> Option<Property>, listings: seq<ListingData>): seq<Property>
    decreases |listings|
  {
    if listings == [] then []
    else
      var before := Collected(site, outcome, listings[..|listings| - 1]);
      match outcome(Detailed(site, listings[|listings| - 1]))
      case Some(p) => before + [p]
      case None => before
  }

  /** The listing pages the loop reads from page `page` on, in order: it stops at a failed fetch, an empty page, or past the last page. */
  function RequestedPages(site: Site, web: string -> Option<string>, city: string, criteria: SearchCriteria, page: nat): seq<nat>
    decreases MaxPages + 1 - page
  {
    if page > MaxPages then []
    else
      match web(site.searchUrl(criteria, city, page))
      case None => [page]
      case Some(html) =>
        if site.parseListingPage(html, criteria) == [] then [page]
        else [page] + RequestedPages(site, web, city, criteria, page + 1)
  }

  /** What the loop collects from page `page` on. */
  function ScrapedPages(site: Site, web: string -> Option<string>, outcome: ListingData -> Option<Property>, city: string,
                        criteria: SearchCriteria, page: nat): seq<Property>
    decreases MaxPages + 1 - page
  {
    if page > MaxPages then []
    else
      match web(site.searchUrl(criteria, city, page))
      case None => []
      case Some(html) =>
        var listings := site.parseListingPage(html, criteria);
        if listings == [] then []
        else Collected(site, outcome, listings) + ScrapedPages(site, web, outcome, city, criteria, page + 1)
  }

  /** The pages are requested one after another from `page`, and none beyond `MaxPages`. */
  lemma {:induction false} RequestedPagesInOrder(site: Site, web: string -> Option<string>, city: string,
                                                 criteria: SearchCriteria, page: nat)
    requires 1 <= page <= MaxPages + 1
    ensures |RequestedPages(site, web, city, criteria, page)| <= MaxPages + 1 - page
    ensures forall i :: 0 <= i < |RequestedPages(site, web, city, criteria, page)| ==>
      RequestedPages(site, web, city, criteria, page)[i] == page + i <= MaxPages
    decreases MaxPages + 1 - page
  {
    if page <= MaxPages {
      RequestedPagesInOrder(site, web, city, criteria, page + 1);
    }
  }

  /** A page is requested only after every earlier page was fetched and held listings. */
  lemma {:induction false} RequestedAfterFullPages(site: Site, web: string -> Option<string>, city: string,
                                                   criteria: SearchCriteria, page: nat, i: nat)
    requires page >= 1
    requires 0 < i < |RequestedPages(site, web, city, criteria, page)|
    ensures var html := web(site.searchUrl(criteria, city, page + i - 1));
      html.Some? && site.parseListingPage(html.value, criteria) != []
    decreases MaxPages + 1 - page
  {
    if i > 1 {
      RequestedAfterFullPages(site, web, city, criteria, page + 1, i - 1);
    }
  }

  /** A page keeps exactly what its listings yield. */
  lemma {:induction false} CollectedIsWhatListingsYield(site: Site, outcome: ListingData -> Option<Property>,
                                                        listings: seq<ListingData>)
    ensures |Collected(site, outcome, listings)| <= |listings|
    ensures forall p :: p in Collected(site, outcome, listings) <==>
      exists i :: 0 <= i < |listings| && outcome(Detailed(site, listings[i])) == Some(p)
    decreases |listings|
  {
    if listings != [] {
      var init := listings[..|listings| - 1];
      CollectedIsWhatListingsYield(site, outcome, init);
      forall p ensures p in Collected(site, outcome, listings) <==>
        exists i :: 0 <= i < |listings| && outcome(Detailed(site, listings[i])) == Some(p)
      {
        if exists i :: 0 <= i < |listings| && outcome(Detailed(site, listings[i])) == Some(p) {
          var i :| 0 <= i < |listings| && outcome(Detailed(site, listings[i])) == Some(p);
          if i < |init| {
            assert init[i] == listings[i];
          }
        }
        if p in Collected(site, outcome, init) {
          var i :| 0 <= i < |init| && outcome(Detailed(site, init[i])) == Some(p);
          assert listings[i] == init[i];
        }
      }
    }
  }

  /** When every listing yields a property, the page keeps them all. */
  lemma {:induction false} CollectedKeepsAll(site: Site, outcome: ListingData -> Option<Property>, listings: seq<ListingData>)
    requires forall i :: 0 <= i < |listings| ==> outcome(Detailed(site, listings[i])).Some?
    ensures |Collected(site, outcome, listings)| == |listings|
    decreases |listings|
  {
    if listings != [] {
      var init := listings[..|listings| - 1];
      assert forall i :: 0 <= i < |init| ==> init[i] == listings[i];
      CollectedKeepsAll(site, outcome, init);
    }
  }

  /** Everything the loop collects is something one of the listings yielded. */
  lemma {:induction false} ScrapedAreYielded(site: Site, web: string -> Option<string>, outcome: ListingData -> Option<Property>,
                                             city: string, criteria: SearchCriteria, page: nat, p: Property)
    requires p in ScrapedPages(site, web, outcome, city, criteria, page)
    ensures exists d :: outcome(d) == Some(p)
    decreases MaxPages + 1 - page
  {
    if page <= MaxPages {
      PageUnfolds(site, web, outcome, city, criteria, page);
      var listings := site.parseListingPage(web(site.searchUrl(criteria, city, page)).value, criteria);
      if p in Collected(site, outcome, listings) {
        CollectedIsWhatListingsYield(site, outcome, listings);
        var i :| 0 <= i < |listings| && outcome(Detailed(site, listings[i])) == Some(p);
      } else {
        ScrapedAreYielded(site, web, outcome, city, criteria, page + 1, p);
      }
    }
  }

  /** With no stored rows nothing is a duplicate: every listing of a page yields a property. */
  lemma EmptyStoreKeepsEveryListing(s: Scraper, city: string, listings: seq<ListingData>)
    ensures |Collected(s.site, Yield(s, [], city), listings)| == |listings|
  {
    forall i | 0 <= i < |listings| ensures Yield(s, [], city)(Detailed(s.site, listings[i])).Some? {
      assert !HasDuplicate(Detailed(s.site, listings[i]), [], s.det);
    }
    CollectedKeepsAll(s.site, Yield(s, [], city), listings);
  }

  /** Everything `scrape_city` returns is a NEW, not yet stored, non-duplicate property of the searched city and of the scraper's site. */
  lemma ScrapedPropertiesOfCity(s: Scraper, web: string -> Option<string>, rows: seq<Property>,
                                city: string, criteria: SearchCriteria, p: Property)
    requires p in ScrapedPages(s.site, web, Yield(s, rows, city), city, criteria, 1)
    ensures p.city == city && p.sourceSite == SiteName(s.site.className) && p.status == Some(New) && p.id == 0
    ensures exists d :: !HasDuplicate(d, rows, s.det) && p == NewProperty(d, city, s.site.className)
  {
    ScrapedAreYielded(s.site, web, Yield(s, rows, city), city, criteria, 1, p);
    var d :| Yield(s, rows, city)(d) == Some(p);
    assert PropertyFromData(s, rows, d, city) == Some(p);
  }

  /** The inner loop of `scrape_city`: merge each listing's details and keep what the scraper builds from it. */
  method ProcessListings(site: Site, outcome: ListingData -> Option<Property>, listings: seq<ListingData>)
    returns (properties: seq<Property>)
    ensures properties == Collected(site, outcome, listings)
  {
    properties := [];
    for i := 0 to |listings|
      invariant properties == Collected(site, outcome, listings[..i])
    {
      assert listings[..i + 1][..i] == listings[..i];
      var data := Update(listings[i], site.propertyDetails(listings[i].url));
      var p := outcome(data);
      if p.Some? {
        properties := properties + [p.value];
      }
    }
    assert listings[..|listings|] == listings;
  }

  /** One page of the loop: the page is requested, and either it ends the loop or the next page follows. */
  lemma PageUnfolds(site: Site, web: string -> Option<string>, outcome: ListingData -> Option<Property>,
                    city: string, criteria: SearchCriteria, page: nat)
    requires page <= MaxPages
    ensures var response := web(site.searchUrl(criteria, city, page));
      if response.None? || site.parseListingPage(response.value, criteria) == [] then
        && RequestedPages(site, web, city, criteria, page) == [page]
        && ScrapedPages(site, web, outcome, city, criteria, page) == []
      else
        && RequestedPages(site, web, city, criteria, page) == [page] + RequestedPages(site, web, city, criteria, page + 1)
        && ScrapedPages(site, web, outcome, city, criteria, page)
           == Collected(site, outcome, site.parseListingPage(response.value, criteria))
              + ScrapedPages(site, web, outcome, city, criteria, page + 1)
  {
  }

  /**
   * The page loop's invariant: pages before `page` have been requested and processed, `done` is what they
   * gave and `requested` lists them, so what is still pending from `page` on completes both results.
   */
  ghost predicate PagesPending(site: Site, web: string -> Option<string>, outcome: ListingData -> Option<Property>,
                               city: string, criteria: SearchCriteria, page: nat,
                               done: seq<Property>, requested: seq<int>)
  {
    && 1 <= page <= MaxPages + 1
    && ScrapedPages(site, web, outcome, city, criteria, 1) == done + ScrapedPages(site, web, outcome, city, criteria, page)
    && RequestedPages(site, web, city, criteria, 1) == requested + RequestedPages(site, web, city, criteria, page)
  }

  /** A page whose fetch fails or that lists nothing ends the loop: with it, every requested page is known. */
  lemma PageEndsLoop(site: Site, web: string -> Option<string>, outcome: ListingData -> Option<Property>,
                     city: string, criteria: SearchCriteria, page: nat, done: seq<Property>, requested: seq<int>)
    requires page <= MaxPages && PagesPending(site, web, outcome, city, criteria, page, done, requested)
    requires var response := web(site.searchUrl(criteria, city, page));
      response.None? || site.parseListingPage(response.value, criteria) == []
    ensures done == ScrapedPages(site, web, outcome, city, criteria, 1)
    ensures requested + [page] == RequestedPages(site, web, city, criteria, 1)
  {
    PageUnfolds(site, web, outcome, city, criteria, page);
    assert done + [] == done;
  }

  /** A page that lists something passes the invariant on to the next page, with its properties appended. */
  lemma PageContinuesLoop(site: Site, web: string -> Option<string>, outcome: ListingData -> Option<Property>,
                          city: string, criteria: SearchCriteria, page: nat, done: seq<Property>, requested: seq<int>,
                          html: string)
    requires page <= MaxPages && PagesPending(site, web, outcome, city, criteria, page, done, requested)
    requires web(site.searchUrl(criteria, city, page)) == Some(html) && site.parseListingPage(html, criteria) != []
    ensures PagesPending(site, web, outcome, city, criteria, page + 1,
                         done + Collected(site, outcome, site.parseListingPage(html, criteria)), requested + [page])
  {
    PageUnfolds(site, web, outcome, city, criteria, page);
    var found := Collected(site, outcome, site.parseListingPage(html, criteria));
    AppendAssociative(requested, [page], RequestedPages(site, web, city, criteria, page + 1));
    AppendAssociative(done, found, ScrapedPages(site, web, outcome, city, criteria, page + 1));
  }

  /** Appending is associative: the loop may regroup what it has collected and what is still pending. */
  lemma AppendAssociative<T>(a: seq<T>, b: seq<T>, c: seq<T>)
    ensures a + (b + c) == (a + b) + c
  {
  }

  /**
   * One iteration of the page loop: page `page` is requested, its listings are processed and appended to what
   * the earlier pages gave. `more` says whether the loop goes on: the invariant then holds for the next page,
   * and otherwise the results are complete.
   */
  method ScrapePage(site: Site, web: string -> Option<string>, outcome: ListingData -> Option<Property>,
                    city: string, criteria: SearchCriteria, page: nat,
                    done: seq<Property>, ghost requested: seq<int>)
    returns (properties: seq<Property>, ghost pages: seq<int>, more: bool)
    requires page <= MaxPages && PagesPending(site, web, outcome, city, criteria, page, done, requested)
    ensures pages == requested + [page]
    ensures !more ==> properties == done
    ensures more ==> PagesPending(site, web, outcome, city, criteria, page + 1, properties, pages)
    ensures !more ==> properties == ScrapedPages(site, web, outcome, city, criteria, 1)
    ensures !more ==> pages == RequestedPages(site, web, city, criteria, 1)
  {
    pages := requested + [page];
    var response := web(site.searchUrl(criteria, city, page));
    if response.None? {
      PageEndsLoop(site, web, outcome, city, criteria, page, done, requested);
      return done, pages, false;
    }
    var pageListings := site.parseListingPage(response.value, criteria);
    if pageListings == [] {
      PageEndsLoop(site, web, outcome, city, criteria, page, done, requested);
      return done, pages, false;
    }
    var found := ProcessListings(site, outcome, pageListings);
    PageContinuesLoop(site, web, outcome, city, criteria, page, done, requested, response.value);
    properties := done + found;
    more := true;
  }

  /** Before the first page, everything is pending. */
  lemma NothingPendingYet(site: Site, web: string -> Option<string>, outcome: ListingData -> Option<Property>,
                          city: string, criteria: SearchCriteria)
    ensures PagesPending(site, web, outcome, city, criteria, 1, [], [])
  {
    assert [] + ScrapedPages(site, web, outcome, city, criteria, 1) == ScrapedPages(site, web, outcome, city, criteria, 1);
    assert [] + RequestedPages(site, web, city, criteria, 1) == RequestedPages(site, web, city, criteria, 1);
  }

  /** Past the last page nothing is pending: the loop's invariant gives the results. */
  lemma PastLastPage(site: Site, web: string -> Option<string>, outcome: ListingData -> Option<Property>,
                     city: string, criteria: SearchCriteria, page: nat, done: seq<Property>, requested: seq<int>)
    requires page > MaxPages && PagesPending(site, web, outcome, city, criteria, page, done, requested)
    ensures done == ScrapedPages(site, web, outcome, city, criteria, 1)
    ensures requested == RequestedPages(site, web, city, criteria, 1)
  {
    assert done + [] == done;
    assert requested + [] == requested;
  }

  /**
   * `scrape_city`: pages 1 to `MaxPages`, stopping at a failed fetch or an
   * empty page. `outcome` is the scraper's `create_property_from_data` for
   * the searched city (`Yield`); `pages` are the pages requested, in order.
   * The `while page <= max_pages` counter loop is written as a `for` over the
   * same pages, each iteration being `ScrapePage`.
   */
  method ScrapeCity(site: Site, web: string -> Option<string>, outcome: ListingData -> Option<Property>,
                    city: string, criteria: SearchCriteria)
    returns (properties: seq<Property>, ghost pages: seq<int>)
    ensures properties == ScrapedPages(site, web, outcome, city, criteria, 1)
    ensures pages == RequestedPages(site, web, city, criteria, 1)
  {
    properties := [];
    pages := [];
    NothingPendingYet(site, web, outcome, city, criteria);
    for page := 1 to MaxPages + 1
      invariant PagesPending(site, web, outcome, city, criteria, page, properties, pages)
    {
      var more;
      properties, pages, more := ScrapePage(site, web, outcome, city, criteria, page, properties, pages);
      if !more {
        return;
      }
    }
    PastLastPage(site, web, outcome, city, criteria, MaxPages + 1, properties, pages);
  }
}
