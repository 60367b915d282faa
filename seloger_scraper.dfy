/**
 * The SeLoger scraper (scrapers/seloger_scraper.py): the search-URL
 * parameters, the text logic that turns one listing element into a listing
 * dictionary, the page filter and `meets_criteria`, and the contact block.
 *
 * HTML is not parsed here: a listing element is given as the texts and
 * attributes the scraper reads from it, a listing page as its sequence of
 * listing elements, and a detail page as what the scraper extracts from it.
 * `quote` stands for the percent-encoding `urlencode` applies to each key
 * and value.
 */
module SeLoger {
  import opened Wrappers
  import opened Text
  import opened Settings
  import opened Models
  import opened Listings
  import opened DuplicateDetector
  import opened BaseScraper

  const BaseUrl := "https://www.seloger.com"
  const ClassName := "SeLogerScraper"

  /** The site name SeLoger's properties are stored under. */
  lemma SeLogerSiteName()
    ensures SiteName(ClassName) == "seloger"
  {
    LowerClassName();
    ReplaceAllSkip("eloger", "scraper", "scraper", "");
    ReplaceAllScraper();
    var l := "s" + ("eloger" + "scraper");
    assert l[1] != "scraper"[1];
    assert !StartsWith(l, "scraper");
    assert l[1..] == "eloger" + "scraper";
  }

  lemma LowerClassName()
    ensures Lower(ClassName) == "s" + ("eloger" + "scraper")
  {
    assert Lower(ClassName) == "selogerscraper";
  }

  lemma ReplaceAllScraper()
    ensures ReplaceAll("scraper", "scraper", "") == ""
  {
    assert StartsWith("scraper", "scraper");
    assert "scraper"[7..] == [];
  }

  // ---------------------------------------------------------------------------
  // Search URL

  /** `type_mapping`: the SeLoger code of a (lower-cased) property type. */
  function TypeCode(t: string): (r: Option<string>)
    ensures r.Some? <==> t == "apartment" || t == "house" || t == "studio"
    ensures r.Some? ==> (r.value == "2" <==> t == "house")
  {
    if t == "apartment" then Some("1")
    else if t == "house" then Some("2")
    else if t == "studio" then Some("1")
    else None
  }

  /** The codes of the types that have one, in the criteria's order. */
  function TypeCodes(types: seq<string>): (codes: seq<string>)
    ensures |codes| <= |types|
    ensures forall i :: 0 <= i < |codes| ==> codes[i] == "1" || codes[i] == "2"
    decreases |types|
  {
    if types == [] then []
    else
      var before := TypeCodes(types[..|types| - 1]);
      match TypeCode(Lower(types[|types| - 1]))
      case Some(c) => before + [c]
      case None => before
  }

  /** The codes of a list are those of its two parts, one after the other. */
  lemma {:induction false} TypeCodesAppend(a: seq<string>, b: seq<string>)
    ensures TypeCodes(a + b) == TypeCodes(a) + TypeCodes(b)
    decreases |b|
  {
    if b == [] {
      assert a + b == a;
    } else {
      var b' := b[..|b| - 1];
      TypeCodesAppend(a, b');
      assert (a + b)[..|a + b| - 1] == a + b';
      assert (a + b)[|a + b| - 1] == b[|b| - 1];
    }
  }

  /** Types without a code contribute nothing. */
  lemma {:induction false} TypeCodesOfUnknown(types: seq<string>)
    requires forall i :: 0 <= i < |types| ==> TypeCode(Lower(types[i])).None?
    ensures TypeCodes(types) == []
    decreases |types|
  {
    if types != [] {
      TypeCodesOfUnknown(types[..|types| - 1]);
    }
  }

  /** The loop of `_build_search_url_impl` that collects the type codes. */
  method CollectTypeCodes(types: seq<string>) returns (codes: seq<string>)
    ensures codes == TypeCodes(types)
  {
    codes := [];
    for i := 0 to |types|
      invariant codes == TypeCodes(types[..i])
    {
      assert types[..i + 1][..i] == types[..i];
      var t := Lower(types[i]);
      var code := TypeCode(t);
      if code.Some? {
        codes := codes + [code.value];
      }
    }
    assert types[..|types|] == types;
  }

  /** The `types` parameter: the codes joined by commas, or "1,2" when none map. */
  function TypesParam(codes: seq<string>): string {
    if codes == [] then "1,2" else Join(codes, ",")
  }

  /** The search parameters, in the order `urlencode` writes them. */
  function SearchParams(criteria: SearchCriteria, city: string, page: nat, codes: seq<string>): (ps: seq<(string, string)>)
    ensures |ps| == 9
    ensures && ps[0].0 == "projects" && ps[1].0 == "types" && ps[2].0 == "places" && ps[3].0 == "price"
            && ps[4].0 == "surface" && ps[5].0 == "rooms" && ps[6].0 == "page" && ps[7].0 == "sort" && ps[8].0 == "order"
    ensures ps[1].1 == TypesParam(codes) && ps[2].1 == city
  {
    [("projects", "2"),
     ("types", TypesParam(codes)),
     ("places", city),
     ("price", "/" + IntToString(criteria.minPrice) + "/" + IntToString(criteria.maxPrice)),
     ("surface", "/" + IntToString(criteria.minRooms * 20) + "/NaN"),
     ("rooms", "/" + IntToString(criteria.minRooms) + "/" + IntToString(criteria.maxRooms)),
     ("page", IntToString(page)),
     ("sort", "initial_publication"),
     ("order", "desc")]
  }

  /** `urlencode`: each key and value encoded, joined by "=" and then by "&". */
  function Encode(params: seq<(string, string)>, quote: string -> string): seq<string> {
    seq(|params|, i requires 0 <= i < |params| => quote(params[i].0) + "=" + quote(params[i].1))
  }

  function SearchUrl(criteria: SearchCriteria, city: string, page: nat, quote: string -> string): string {
    var params := SearchParams(criteria, city, page, TypeCodes(criteria.propertyTypes));
    BaseUrl + "/list.htm?" + Join(Encode(params, quote), "&")
  }

  /** `_build_search_url_impl`. */
  method BuildSearchUrl(criteria: SearchCriteria, city: string, page: nat, quote: string -> string) returns (url: string)
    ensures url == SearchUrl(criteria, city, page, quote)
  {
    var codes := CollectTypeCodes(criteria.propertyTypes);
    var params := SearchParams(criteria, city, page, codes);
    url := BaseUrl + "/list.htm?" + Join(Encode(params, quote), "&");
  }

  /**
   * The parameters name the rental project, the searched city and the page;
   * the page reads back as the page number, and the types are "1,2" when no
   * criteria type has a code.
   */
  lemma SearchParamsMeaning(criteria: SearchCriteria, city: string, page: nat)
    ensures var ps := SearchParams(criteria, city, page, TypeCodes(criteria.propertyTypes));
      && ps[0] == ("projects", "2") && ps[2] == ("places", city)
      && ps[6].0 == "page" && AllDigits(ps[6].1) && DigitsValue(ps[6].1) == page
    ensures (forall i :: 0 <= i < |criteria.propertyTypes| ==> TypeCode(Lower(criteria.propertyTypes[i])).None?) ==>
      SearchParams(criteria, city, page, TypeCodes(criteria.propertyTypes))[1] == ("types", "1,2")
  {
    NatToStringRoundTrip(page);
    if forall i :: 0 <= i < |criteria.propertyTypes| ==> TypeCode(Lower(criteria.propertyTypes[i])).None? {
      TypeCodesOfUnknown(criteria.propertyTypes);
    }
  }

  /** Every code in the `types` parameter is "1" or "2", separated by commas. */
  lemma TypesParamIsCodes(codes: seq<string>)
    requires codes != []
    requires forall i :: 0 <= i < |codes| ==> codes[i] == "1" || codes[i] == "2"
    ensures SplitOn(TypesParam(codes), ',') == codes
  {
    var parts := seq(|codes|, i requires 0 <= i < |codes| => codes[i]);
    assert parts == codes;
    assert forall i, j :: 0 <= i < |codes| && 0 <= j < |codes[i]| ==> codes[i][j] != ',';
    SplitOnJoin(codes, ',');
  }

  // ---------------------------------------------------------------------------
  // One listing

  /**
   * What `parse_single_listing` reads from a listing element: the stripped
   * text of each element it finds (None when absent), the link's `href` (""
   * when there is none), the first image's `src` and the `data-listing-id`
   * attribute ("" when absent).
   */
  datatype ListingElement = ListingElement(
    title: Option<string>,
    href: string,
    price: Option<string>,
    rooms: Option<string>,
    area: Option<string>,
    location: Option<string>,
    imageSrc: string,
    listingId: string)

  /** `urljoin(BASE_URL, href)` for the forms of `href` a listing page uses. */
  function UrlJoin(base: string, ref: string): (url: string)
    ensures StartsWith(ref, "http://") || StartsWith(ref, "https://") ==> url == ref
    ensures !StartsWith(ref, "http://") && !StartsWith(ref, "https://") && !StartsWith(ref, "//") ==>
      StartsWith(url, base) && |ref| <= |url| && url[|url| - |ref|..] == ref
  {
    if StartsWith(ref, "http://") || StartsWith(ref, "https://") then ref
    else if StartsWith(ref, "//") then "https:" + ref
    else if StartsWith(ref, "/") then base + ref
    else base + "/" + ref
  }

  predicate IsPostalCode(part: string) { AllDigits(part) && |part| == 5 }

  /** The index of the first five-digit part, if any. */
  function FirstPostalCode(parts: seq<string>): (r: Option<nat>)
    ensures r.Some? ==> r.value < |parts| && IsPostalCode(parts[r.value])
    ensures r.Some? ==> forall j :: 0 <= j < r.value ==> !IsPostalCode(parts[j])
    ensures r.None? ==> forall j :: 0 <= j < |parts| ==> !IsPostalCode(parts[j])
    decreases |parts|
  {
    if parts == [] then None
    else if IsPostalCode(parts[0]) then Some(0)
    else match FirstPostalCode(parts[1..])
      case Some(k) => Some(k + 1)
      case None => None
  }

  /** The index of the first part made of digits only, if any. */
  function FirstNumeric(parts: seq<string>): (r: Option<nat>)
    ensures r.Some? ==> r.value < |parts| && AllDigits(parts[r.value])
    ensures r.Some? ==> forall j :: 0 <= j < r.value ==> !AllDigits(parts[j])
    ensures r.None? ==> forall j :: 0 <= j < |parts| ==> !AllDigits(parts[j])
    decreases |parts|
  {
    if parts == [] then None
    else if AllDigits(parts[0]) then Some(0)
    else match FirstNumeric(parts[1..])
      case Some(k) => Some(k + 1)
      case None => None
  }

  /** The postal code taken from a location text: its first whitespace-separated five-digit part, or none (""). */
  function PostalCodeIn(location: string): string {
    var parts := Words(location);
    match FirstPostalCode(parts)
    case Some(k) => parts[k]
    case None => ""
  }

  /** The id taken from a URL: its first '/'-separated part made of digits, or none (""). */
  function IdInUrl(url: string): string {
    var parts := SplitOn(url, '/');
    match FirstNumeric(parts)
    case Some(k) => parts[k]
    case None => ""
  }

  /** The type inferred from the title. */
  function InferredType(title: string): string {
    var t := Lower(title);
    if Contains(t, "studio") then "studio"
    else if Contains(t, "maison") || Contains(t, "villa") then "house"
    else "apartment"
  }

  /** The title and, from the title's link, the absolute URL. */
  function TitleStep(el: ListingElement): (r: ListingData)
    ensures r.title == el.title.GetOr("")
    ensures r.url == (if el.title.Some? && el.href != "" then UrlJoin(BaseUrl, el.href) else "")
    ensures r.(title := "", url := "") == EmptyListing
  {
    if el.title.Some? then
      if el.href != "" then EmptyListing.(title := el.title.value, url := UrlJoin(BaseUrl, el.href))
      else EmptyListing.(title := el.title.value)
    else EmptyListing
  }

  /** The price, rooms and area texts, each when its element is found. */
  function FiguresStep(data: ListingData, el: ListingElement): (r: ListingData)
    ensures r.price == el.price.GetOr(data.price)
    ensures r.(price := data.price, rooms := data.rooms, area := data.area) == data
  {
    var d1 := if el.price.Some? then data.(price := el.price.value) else data;
    var d2 := if el.rooms.Some? then d1.(rooms := el.rooms.value) else d1;
    if el.area.Some? then d2.(area := el.area.value) else d2
  }

  /** The location text as the address, with the postal code found in it. */
  function LocationStep(data: ListingData, el: ListingElement): (r: ListingData)
    ensures r.address == el.location.GetOr(data.address)
    ensures r.(address := data.address, postalCode := data.postalCode) == data
  {
    if el.location.Some? then data.(address := el.location.value, postalCode := PostalCodeIn(el.location.value))
    else data
  }

  function ImageStep(data: ListingData, el: ListingElement): (r: ListingData)
    ensures r.(images := data.images) == data
  {
    if el.imageSrc != "" then data.(images := [el.imageSrc]) else data
  }

  function TypeStep(data: ListingData): (r: ListingData)
    ensures r.propertyType == InferredType(data.title)
    ensures r.(propertyType := data.propertyType) == data
  {
    data.(propertyType := InferredType(data.title))
  }

  /** The `data-listing-id` attribute, else the first all-digit part of the URL. */
  function IdStep(data: ListingData, el: ListingElement): (r: ListingData)
    ensures el.listingId != "" ==> r.id == el.listingId
    ensures el.listingId == "" && data.url != "" ==> r.id == IdInUrl(data.url)
    ensures r.(id := data.id) == data
  {
    if el.listingId != "" then data.(id := el.listingId)
    else if data.url != "" then data.(id := IdInUrl(data.url))
    else data
  }

  /** `parse_single_listing`, as a value. */
  function SingleListing(el: ListingElement): ListingData {
    IdStep(TypeStep(ImageStep(LocationStep(FiguresStep(TitleStep(el), el), el), el)), el)
  }

  /** What the listing dictionary holds: the element's texts, the type inferred from the title, and no city. */
  lemma SingleListingFields(el: ListingElement)
    ensures var d := SingleListing(el);
      && d.title == el.title.GetOr("") && d.price == el.price.GetOr("") && d.address == el.location.GetOr("")
      && d.url == (if el.title.Some? && el.href != "" then UrlJoin(BaseUrl, el.href) else "")
      && d.propertyType == InferredType(d.title)
      && (el.listingId != "" ==> d.id == el.listingId)
      && (el.listingId == "" && d.url != "" ==> d.id == IdInUrl(d.url))
      && d.city == "" && d.contact.None?
  {
    var d0 := TitleStep(el);
    var d1 := FiguresStep(d0, el);
    var d2 := LocationStep(d1, el);
    var d3 := ImageStep(d2, el);
    var d4 := TypeStep(d3);
    var d5 := IdStep(d4, el);
    assert d0.city == "" && d0.contact.None? && d0.price == "" && d0.address == "";
    assert d1.title == d0.title && d1.url == d0.url && d1.city == d0.city && d1.contact == d0.contact && d1.address == d0.address;
    assert d2.title == d1.title && d2.url == d1.url && d2.city == d1.city && d2.contact == d1.contact && d2.price == d1.price;
    assert d3.title == d2.title && d3.url == d2.url && d3.city == d2.city && d3.contact == d2.contact && d3.price == d2.price && d3.address == d2.address;
    assert d4.title == d3.title && d4.url == d3.url && d4.city == d3.city && d4.contact == d3.contact && d4.price == d3.price && d4.address == d3.address;
    assert d5.title == d4.title && d5.url == d4.url && d5.city == d4.city && d5.contact == d4.contact && d5.price == d4.price && d5.address == d4.address && d5.propertyType == d4.propertyType;
  }

  /** The postal-code loop: the first part that is five digits. */
  method FindPostalCode(location: string) returns (code: string)
    ensures code == PostalCodeIn(location)
  {
    var parts := Words(location);
    code := "";
    var i := 0;
    while i < |parts|
      invariant 0 <= i <= |parts|
      invariant forall j :: 0 <= j < i ==> !IsPostalCode(parts[j])
    {
      if AllDigits(parts[i]) && |parts[i]| == 5 {
        code := parts[i];
        PostalCodeIsFirst(parts, i);
        return;
      }
      i := i + 1;
    }
    NoPostalCode(parts);
  }

  lemma {:induction false} PostalCodeIsFirst(parts: seq<string>, i: nat)
    requires i < |parts| && IsPostalCode(parts[i])
    requires forall j :: 0 <= j < i ==> !IsPostalCode(parts[j])
    ensures FirstPostalCode(parts) == Some(i)
    decreases i
  {
    if i > 0 {
      PostalCodeIsFirst(parts[1..], i - 1);
    }
  }

  lemma {:induction false} NoPostalCode(parts: seq<string>)
    requires forall j :: 0 <= j < |parts| ==> !IsPostalCode(parts[j])
    ensures FirstPostalCode(parts).None?
    decreases |parts|
  {
    if parts != [] {
      NoPostalCode(parts[1..]);
    }
  }

  /** The id loop: the first '/'-separated part that is all digits. */
  method FindIdInUrl(url: string) returns (id: string)
    ensures id == IdInUrl(url)
  {
    var parts := SplitOn(url, '/');
    id := "";
    var i := 0;
    while i < |parts|
      invariant 0 <= i <= |parts|
      invariant forall j :: 0 <= j < i ==> !AllDigits(parts[j])
    {
      if AllDigits(parts[i]) {
        id := parts[i];
        NumericIsFirst(parts, i);
        return;
      }
      i := i + 1;
    }
    NoNumeric(parts);
  }

  lemma {:induction false} NumericIsFirst(parts: seq<string>, i: nat)
    requires i < |parts| && AllDigits(parts[i])
    requires forall j :: 0 <= j < i ==> !AllDigits(parts[j])
    ensures FirstNumeric(parts) == Some(i)
    decreases i
  {
    if i > 0 {
      NumericIsFirst(parts[1..], i - 1);
    }
  }

  lemma {:induction false} NoNumeric(parts: seq<string>)
    requires forall j :: 0 <= j < |parts| ==> !AllDigits(parts[j])
    ensures FirstNumeric(parts).None?
    decreases |parts|
  {
    if parts != [] {
      NoNumeric(parts[1..]);
    }
  }

  /** `parse_single_listing`: fill the listing dictionary field by field. */
  method ParseSingleListing(el: ListingElement) returns (data: ListingData)
    ensures data == SingleListing(el)
  {
    data := EmptyListing;
    if el.title.Some? {
      data := data.(title := el.title.value);
      if el.href != "" {
        data := data.(url := UrlJoin(BaseUrl, el.href));
      }
    }
    assert data == TitleStep(el);
    ghost var before := data;
    if el.price.Some? {
      data := data.(price := el.price.value);
    }
    if el.rooms.Some? {
      data := data.(rooms := el.rooms.value);
    }
    if el.area.Some? {
      data := data.(area := el.area.value);
    }
    assert data == FiguresStep(before, el);
    data := ParseLocation(data, el);
    if el.imageSrc != "" {
      data := data.(images := [el.imageSrc]);
    }
    data := data.(propertyType := InferredType(data.title));
    data := ParseId(data, el);
  }

  /** The location part of `parse_single_listing`. */
  method ParseLocation(data: ListingData, el: ListingElement) returns (r: ListingData)
    ensures r == LocationStep(data, el)
  {
    r := data;
    if el.location.Some? {
      r := r.(address := el.location.value);
      var code := FindPostalCode(el.location.value);
      r := r.(postalCode := code);
    }
  }

  /** The id part of `parse_single_listing`. */
  method ParseId(data: ListingData, el: ListingElement) returns (r: ListingData)
    ensures r == IdStep(data, el)
  {
    r := data;
    if el.listingId != "" {
      r := r.(id := el.listingId);
    } else if r.url != "" {
      var id := FindIdInUrl(r.url);
      r := r.(id := id);
    }
  }

  /** The postal code found is five digits from the location, and no earlier part of it is. */
  lemma PostalCodeMeaning(location: string)
    ensures PostalCodeIn(location) != "" ==> IsPostalCode(PostalCodeIn(location)) && PostalCodeIn(location) in Words(location)
    ensures PostalCodeIn(location) == "" <==> forall j :: 0 <= j < |Words(location)| ==> !IsPostalCode(Words(location)[j])
  {
  }

  /** The id found in a URL is digits, is one of its '/'-separated parts, and none before it is all digits. */
  lemma IdInUrlMeaning(url: string)
    ensures IdInUrl(url) != "" ==> AllDigits(IdInUrl(url)) && IdInUrl(url) in SplitOn(url, '/')
    ensures IdInUrl(url) == "" <==> forall j :: 0 <= j < |SplitOn(url, '/')| ==> !AllDigits(SplitOn(url, '/')[j])
  {
  }

  /** "studio" wins over "maison" and "villa"; anything else is an apartment. */
  lemma InferredTypeMeaning(title: string)
    ensures InferredType(title) in {"studio", "house", "apartment"}
    ensures Contains(Lower(title), "studio") <==> InferredType(title) == "studio"
    ensures InferredType(title) == "house" <==>
      !Contains(Lower(title), "studio") && (Contains(Lower(title), "maison") || Contains(Lower(title), "villa"))
  {
  }

  /**
   * SeLoger listings never carry a city, and the detail page adds none, so
   * the duplicate check always lets them through, whatever is stored.
   */
  lemma SeLogerListingsAreNeverDuplicates(el: ListingElement, details: ListingDetails, rows: seq<Property>, det: Detector)
    ensures SingleListing(el).city == ""
    ensures !HasDuplicate(Update(SingleListing(el), details), rows, det)
  {
    SingleListingFields(el);
    assert Strip("") == "";
    NoCityNoDuplicate(Update(SingleListing(el), details), rows, det);
  }

  // ---------------------------------------------------------------------------
  // Criteria

  /** Whether any of `words`, lower-cased, occurs in `text`. */
  predicate AnyWordIn(text: string, words: seq<string>) {
    exists k :: 0 <= k < |words| && Contains(text, Lower(words[k]))
  }

  /** The lower-cased "title description" the keyword filters search. */
  function SearchedText(data: ListingData): string {
    Lower(data.title + " " + data.description)
  }

  predicate PriceOutside(data: ListingData, criteria: SearchCriteria) {
    var price := ParsePrice(data.price);
    Known(price) && (price.value < criteria.minPrice as real || price.value > criteria.maxPrice as real)
  }

  predicate RoomsOutside(data: ListingData, criteria: SearchCriteria) {
    var rooms := RoomsOf(data.rooms);
    KnownInt(rooms) && (rooms.value < criteria.minRooms || rooms.value > criteria.maxRooms)
  }

  predicate TypeUnwanted(data: ListingData, criteria: SearchCriteria) {
    var t := Lower(data.propertyType);
    t != "" && criteria.propertyTypes != [] && forall k :: 0 <= k < |criteria.propertyTypes| ==> Lower(criteria.propertyTypes[k]) != t
  }

  /** `meets_criteria`: price, rooms, type, excluded keywords, then wanted keywords, in that order. */
  function MeetsCriteria(data: ListingData, criteria: SearchCriteria): (r: bool)
    ensures PriceOutside(data, criteria) ==> !r
    ensures RoomsOutside(data, criteria) ==> !r
    ensures TypeUnwanted(data, criteria) ==> !r
    ensures AnyWordIn(SearchedText(data), criteria.excludeKeywords) ==> !r
    ensures (criteria.keywords != [] && !AnyWordIn(SearchedText(data), criteria.keywords)) ==> !r
    ensures (!PriceOutside(data, criteria) && !RoomsOutside(data, criteria) && !TypeUnwanted(data, criteria)
             && !AnyWordIn(SearchedText(data), criteria.excludeKeywords)
             && (criteria.keywords == [] || AnyWordIn(SearchedText(data), criteria.keywords))) ==> r
  {
    if PriceOutside(data, criteria) then false
    else if RoomsOutside(data, criteria) then false
    else if TypeUnwanted(data, criteria) then false
    else
      var text := SearchedText(data);
      if AnyWordIn(text, criteria.excludeKeywords) then false
      else if criteria.keywords != [] && !AnyWordIn(text, criteria.keywords) then false
      else true
  }

  /** An empty excluded keyword (an `EXCLUDE_KEYWORDS` ending in a comma, say) occurs in every text and rejects every listing. */
  lemma EmptyExcludedKeywordRejectsAll(data: ListingData, criteria: SearchCriteria)
    requires "" in criteria.excludeKeywords
    ensures !MeetsCriteria(data, criteria)
  {
    var k :| 0 <= k < |criteria.excludeKeywords| && criteria.excludeKeywords[k] == "";
    assert Lower("") == "";
    assert StartsWith(SearchedText(data), "");
  }

  /** A listing with nothing to judge it by (no price, rooms, type or keywords asked for) passes. */
  lemma UnknownFiguresPass(data: ListingData, criteria: SearchCriteria)
    requires data.price == "" && data.rooms == "" && data.propertyType == ""
    requires criteria.excludeKeywords == [] && criteria.keywords == []
    ensures MeetsCriteria(data, criteria)
  {
  }

  /** The listings parsed from `elements` that `keep` accepts, in page order. */
  function Kept(elements: seq<ListingElement>, parse: ListingElement -> ListingData, keep: ListingData -> bool): seq<ListingData>
    decreases |elements|
  {
    if elements == [] then []
    else
      var before := Kept(elements[..|elements| - 1], parse, keep);
      var data := parse(elements[|elements| - 1]);
      if keep(data) then before + [data] else before
  }

  /** A page keeps exactly the parsed listings `keep` accepts. */
  lemma {:induction false} KeptAreAccepted(elements: seq<ListingElement>, parse: ListingElement -> ListingData, keep: ListingData -> bool)
    ensures |Kept(elements, parse, keep)| <= |elements|
    ensures forall d :: d in Kept(elements, parse, keep) <==>
      keep(d) && exists i :: 0 <= i < |elements| && parse(elements[i]) == d
    decreases |elements|
  {
    if elements != [] {
      var init := elements[..|elements| - 1];
      KeptAreAccepted(init, parse, keep);
      forall d ensures d in Kept(elements, parse, keep) <==>
        keep(d) && exists i :: 0 <= i < |elements| && parse(elements[i]) == d
      {
        if keep(d) && exists i :: 0 <= i < |elements| && parse(elements[i]) == d {
          var i :| 0 <= i < |elements| && parse(elements[i]) == d;
          if i < |init| {
            assert init[i] == elements[i];
          }
        }
        if d in Kept(init, parse, keep) {
          var i :| 0 <= i < |init| && parse(init[i]) == d;
          assert elements[i] == init[i];
        }
      }
    }
  }

  /** The test `parse_listing_page` applies to each parsed listing. */
  function Criteria(criteria: SearchCriteria): ListingData -> bool {
    (data: ListingData) => MeetsCriteria(data, criteria)
  }

  /** The listings of a page that meet the criteria, in page order. */
  function ListingPage(elements: seq<ListingElement>, criteria: SearchCriteria): seq<ListingData> {
    Kept(elements, SingleListing, Criteria(criteria))
  }

  /** A page keeps exactly the listings that meet the criteria. */
  lemma ListingPageKeepsMatches(elements: seq<ListingElement>, criteria: SearchCriteria)
    ensures |ListingPage(elements, criteria)| <= |elements|
    ensures forall d :: d in ListingPage(elements, criteria) <==>
      MeetsCriteria(d, criteria) && exists i :: 0 <= i < |elements| && SingleListing(elements[i]) == d
  {
    KeptAreAccepted(elements, SingleListing, Criteria(criteria));
  }

  /** `parse_listing_page`: parse each listing element and keep those that meet the criteria. */
  method ParseListingPage(elements: seq<ListingElement>, criteria: SearchCriteria) returns (listings: seq<ListingData>)
    ensures listings == ListingPage(elements, criteria)
  {
    listings := [];
    for i := 0 to |elements|
      invariant listings == Kept(elements[..i], SingleListing, Criteria(criteria))
    {
      assert elements[..i + 1][..i] == elements[..i];
      var data := ParseSingleListing(elements[i]);
      if MeetsCriteria(data, criteria) {
        listings := listings + [data];
      }
    }
    assert elements[..|elements|] == elements;
  }

  // ---------------------------------------------------------------------------
  // Contact and the site

  /** The contact fields `extract_contact_info` returns. */
  datatype ContactInfo = ContactInfo(agencyName: string, phone: string, email: string, name: string)

  /** `extract_contact_info`: the contact block's fields, "" for each one missing. */
  function ExtractContactInfo(data: ListingData): (r: ContactInfo)
    ensures data.contact.None? ==> r == ContactInfo("", "", "", "")
    ensures data.contact.Some? ==> r.phone == data.contact.value.phone && r.email == data.contact.value.email
  {
    match data.contact
    case None => ContactInfo("", "", "", "")
    case Some(c) => ContactInfo(c.agency, c.phone, c.email, c.agent)
  }

  /** The contact of a detail page replaces the listing's, and the agent becomes the contact's name. */
  lemma ContactFromDetails(data: ListingData, details: ListingDetails)
    requires details.contact.Some?
    ensures ExtractContactInfo(Update(data, details)) ==
      ContactInfo(details.contact.value.agency, details.contact.value.phone,
                  details.contact.value.email, details.contact.value.agent)
  {
  }

  /** `get_property_details`: nothing for an empty URL, else what the detail page gives. */
  function PropertyDetails(pageDetails: string -> ListingDetails, url: string): (d: ListingDetails)
    ensures url == "" ==> forall data: ListingData :: Update(data, d) == data
    ensures url != "" ==> d == pageDetails(url)
  {
    if url == "" then ListingDetails(None, None, None, None) else pageDetails(url)
  }

  /** The SeLoger scraper as the base scraper sees it. */
  function SeLogerSite(quote: string -> string, elements: string -> seq<ListingElement>,
                       pageDetails: string -> ListingDetails): (site: Site)
    ensures site.className == ClassName
  {
    Site(ClassName,
         (criteria: SearchCriteria, city: string, page: nat) => SearchUrl(criteria, city, page, quote),
         (html: string, criteria: SearchCriteria) => ListingPage(elements(html), criteria),
         (url: string) => PropertyDetails(pageDetails, url))
  }

  /** Everything SeLoger's `scrape_city` returns is stored under "seloger" and is kept whatever the store holds. */
  lemma SeLogerScrapesAll(quote: string -> string, elements: string -> seq<ListingElement>,
                          pageDetails: string -> ListingDetails, cfg: Config, fuzzy: Fuzzy,
                          rows: seq<Property>, city: string, html: string, criteria: SearchCriteria)
    ensures var s := NewScraper(SeLogerSite(quote, elements, pageDetails), cfg, fuzzy);
      var listings := s.site.parseListingPage(html, criteria);
      |Collected(s.site, Yield(s, rows, city), listings)| == |listings|
  {
    var s := NewScraper(SeLogerSite(quote, elements, pageDetails), cfg, fuzzy);
    var listings := s.site.parseListingPage(html, criteria);
    ListingPageKeepsMatches(elements(html), criteria);
    forall i | 0 <= i < |listings| ensures Yield(s, rows, city)(Detailed(s.site, listings[i])).Some? {
      assert listings[i] in listings;
      var j :| 0 <= j < |elements(html)| && SingleListing(elements(html)[j]) == listings[i];
      SeLogerListingsAreNeverDuplicates(elements(html)[j], s.site.propertyDetails(listings[i].url), rows, s.det);
    }
    CollectedKeepsAll(s.site, Yield(s, rows, city), listings);
  }
}
