# French rental hunter: a verified model of its core

The rental hunter is a bot that scrapes rental listings from French property
sites, drops the listings that duplicate a stored property, and stores the
rest. It then contacts the agencies behind new properties by e-mail and
phone, and follows up on a schedule. This project models in Dafny the logic
behind that flow and proves what that logic guarantees:

- the duplicate detector's parsers, normalisers, similarity scores and
  layered same-property decision (`DuplicateDetector`);
- the site-independent scraper: site name, feature flags, the Property
  built from a listing and the bounded page loop (`BaseScraper`);
- the SeLoger scraper's search-URL parameters, listing-text extraction,
  `meets_criteria` filter and contact block (`SeLoger`);
- the listing dictionary both scrapers fill (`Listings`);
- the database records, their enums, defaults and `to_dict` views (`Models`);
- the four tables with their key, uniqueness and NOT NULL constraints, as a
  class whose methods add and replace rows (`Database`);
- configuration loading, boolean flags and `validate_config` (`Settings`);
- the e-mail sender's guards (`EmailSender`);
- the phone caller's guards, call log and status webhook (`PhoneCalls`);
- the scheduler's job table and its four passes: scrape upsert, contact
  initiation, follow-ups and daily cleanup (`Scheduler`).

`Wrappers` holds Option and Result. `Text` holds the string operations of
Python the code relies on (`lower`, `strip`, `split`, `in` on strings,
`isdigit`, `replace`) and the regular-expression classes `\d`, `\s` and
`\w`. Case and the character classes are exact on Latin-1 apart from the
superscript digits; above Latin-1 they are approximated (see "## Left out").

## How the model is built

- Time is an integer number of seconds. Each pass reads one moment `now`,
  which stands for all the `utcnow()` calls it makes. `HOUR` and `DAY` are
  the `timedelta` units.
- The database is `Database.Store`. It has one `seq` field per table, in
  insertion order. Queries read these fields, and adds and commits reassign
  them. A new row gets SQLite's key: one more than the largest key in its
  table. `Store.Valid()` holds for every committed state:
  - primary keys are positive and distinct;
  - `source_url` is unique;
  - `price` is present.
- The passes are methods on the store. Each loop body is its own method.
  Each method is proved equal to a specification function over the old
  state (`ScrapePass`, `InitiatePass`, `FollowUpPass`, `MarkedStale`,
  `RecentLogs`). The properties the source promises are lemmas about those
  functions.
- These collaborators are given as function-typed parameters:
  - the fetched pages;
  - `fuzz.ratio` and `fuzz.token_sort_ratio` (any score 0..100);
  - a scraper's `scrape_city` for a site and a city;
  - the SMTP delivery of an e-mail;
  - the Twilio call;
  - URL percent-encoding.
- The SQLAlchemy `onupdate` hooks are modelled. Every committed change to a
  property sets its `last_updated` to now, and every change to a contact
  sets its `updated_at`. This includes the status change in initiation and
  the bulk update in cleanup.

## Behaviour of the code as written

These are consequences of the code that the model keeps and that lemmas
state.

- **SeLoger listings are never duplicates.** SeLoger's `parse_single_listing`
  never sets a `city` key, and `is_duplicate` returns False when the city is
  empty. So every SeLoger listing that passes `meets_criteria` is stored
  (`SeLoger.SeLogerListingsAreNeverDuplicates`, `SeLoger.SeLogerScrapesAll`).
- **`parse_rooms` reads the first digit only.** After the room mappings, it
  keeps the digits of the text and converts only the first one, so "12"
  gives 1 (`DuplicateDetector.RoomsOfDigits`).
- **Dotted thousands do not parse.** `parse_price` turns commas into dots,
  so "1.200,50 €" becomes "1.200.50", which `float` rejects
  (`DuplicateDetector.ParsePriceRejectsDottedThousands`).
- **A failed commit aborts the scrape.** The scrape upsert looks up each URL
  without autoflush, so it checks against the rows stored before the loop.
  The commit then fails in two cases:
  - a URL that is new to the store appears twice in one batch, which breaks
    the UNIQUE constraint;
  - a new listing's price did not parse, which breaks NOT NULL.

  The handler then marks the log failed and commits again. The session still
  needs a rollback, so that commit raises too, and the exception escapes the
  pass. The remaining sites and cities are not scraped, and the log row stays
  "running" (`Scheduler.RefusedCommit`, `Scheduler.RepeatedNewUrlAborts`,
  `Scheduler.ScrapePassAfterAbort`).
- **Initiation cannot e-mail the contacts it creates.** They have an
  empty e-mail and status PENDING. The initial e-mail refuses a contact
  without an e-mail. When no stored contact has an e-mail, initiation marks
  nothing CONTACTED (`Scheduler.WithoutEmailsNothingContacted`). Such a
  contact is also never due for a follow-up (`Scheduler.NewContactNeverDue`).
- **The e-mail sender never changes contact status.** So only contacts
  whose status is set elsewhere reach the follow-up pass.
- **An empty exclude keyword matches everything.** An `EXCLUDE_KEYWORDS`
  value such as "meublé," yields an empty keyword. That keyword occurs in
  every text, so `meets_criteria` rejects every listing
  (`SeLoger.EmptyExcludedKeywordRejectsAll`).
- **The cities list is never empty.** `str.split(',')` always returns at
  least one string, so the "no cities" issue of `validate_config` cannot
  arise for a loaded configuration (`Settings.LoadedConfigNeverLacksCities`).
  A blank city is skipped by the scrape pass.
- **`metadata` is modelled as intended, not as written.** Communication
  and ScrapingLog declare a column named `metadata`. The declarative base
  reserves that name and raises when the class is created. The webhook's
  `metadata['duration'] = ...` mutates a plain JSON value in place, which
  the session does not persist without a mutable-dict wrapper. The webhook
  finds its record with `metadata.contains({'call_sid': sid})`. On a SQLite
  JSON column that is a substring test against the serialised text
  `{"call_sid": "X"}`, and that text never occurs inside the two-key object
  the call log writes (`{"call_sid": "X", "twilio_status": "Y"}`), so as
  written the lookup finds no record. The model gives the intended
  behaviour instead: a map on the row that the update replaces, and a
  record selected when its metadata maps `call_sid` to the sid
  (`PhoneCalls.HasSid`).

## Model

| member | source | states |
|---|---|---|
| Settings.LoadConfig | config/settings.py:56-104 | loading succeeds exactly when every numeric setting is a plain decimal numeral (with surrounding whitespace and a sign allowed), and a loaded configuration always has at least one city |
| Settings.DefaultConfig | config/settings.py:56-104 | with no environment variable set, the configuration loads and holds the source's defaults: thresholds 0.85 and 0.75, price difference 50, 3 attempts, 24-hour delay, price range 500-1500, rooms 1-4, the default cities, property types, keywords and exclude keywords, the three schedules, empty SMTP and Twilio credentials, debug and proxy off, the scheduler on and all five scrapers enabled |
| Settings.FlagReadsDefaultWord | config/settings.py:43 | a boolean flag defaulting to True or False reads the default word "True"/"False" through the same lower-case comparison |
| Settings.FlagIsCaseInsensitiveTrue | config/settings.py:94-98 | a set flag is true exactly when its value lower-cases to "true" |
| Settings.FlagExamples | config/settings.py:75 | "TRUE" turns a flag on; "1" and "yes" turn it off even when its default is True |
| Settings.ListSettingReadsDefaultText | config/settings.py:81-90 | a list setting is the comma split of the variable, or of the default list's comma-joined text when unset |
| Settings.DefaultCitiesText | config/settings.py:82 | the default cities are the split of "Paris,Lyon,Marseille,Toulouse,Nice" |
| Settings.DefaultPropertyTypesText | config/settings.py:87 | the default property types are the split of "apartment,studio" |
| Settings.DefaultKeywordsText | config/settings.py:88 | the default keywords are the split of "balcon,parking,métro,transport" |
| Settings.DefaultExcludeKeywordsText | config/settings.py:89 | the default exclude keywords are the split of "meublé,furnished,colocation" |
| Settings.IntSettingReadsDefaultNumeral | config/settings.py:70-71 | an integer setting with a default reads the default's numeral when unset |
| Settings.AddressThresholdNumeral | config/settings.py:102 | the address threshold reads "0.85" as 0.85 when unset |
| Settings.DescriptionThresholdNumeral | config/settings.py:103 | the description threshold reads "0.75" as 0.75 when unset |
| Settings.ParseIntOfDigits | config/settings.py:70 | `int` of a digit string is its decimal value |
| Settings.ValidateConfig | config/settings.py:112-137 | valid exactly when there are no issues; the SMTP, cities and price-range issues each appear exactly when their condition holds, and nothing else is an issue; the Twilio warning appears exactly when a credential is missing |
| Settings.TwilioNeverAffectsValidity | config/settings.py:122-124 | changing the Twilio credentials changes neither validity nor the issues |
| Settings.LoadedConfigNeverLacksCities | config/settings.py:126-128 | a loaded configuration never reports the no-cities issue |
| Models.PropertyStatusOf | database/models.py:21-32 | a status found from a value has that value |
| Models.PropertyStatusValuesRoundTrip | database/models.py:21-32 | every property status is found again from its value, so values are distinct |
| Models.ContactStatusValueRoundTrip | database/models.py:34-42 | every contact status is found again from its value |
| Models.ContactMethodValueRoundTrip | database/models.py:44-48 | every contact method is found again from its value |
| Models.InsertedProperty | database/models.py:72-76 | an inserted property gets its key, status NEW and availability True unless set, and the insertion time as first-seen and last-updated times unless set; every other column is kept as given |
| Models.NewContact | database/models.py:117-125 | the contact initiation creates is PENDING, prefers e-mail, has no attempts, no response and no schedule, and has an empty e-mail and phone |
| Models.ScheduleFollowUp | database/models.py:131-133 | the next contact is due `delay_hours` hours after now, and no other field changes |
| Models.ScheduleFollowUpLastWins | database/models.py:131-133 | scheduling twice at one moment leaves only the last delay |
| Models.FeaturePairs | database/models.py:70 | the features column holds the ten flags under their ten distinct names, in the scraper's key order: balcony, parking, elevator, cellar, garden, furnished, new, metro, school, shops |
| Models.PropertyToDict | database/models.py:83-105 | absent features and images read as empty; a status maps to its value and back; a row without a key has no id |
| Models.ContactToDict | database/models.py:135-151 | an absent status or method maps to None, a present one to a value that identifies it; the timestamps are kept |
| Models.ContactToDictKeepsSchedulerFields | database/models.py:135-151 | two contacts with the same view agree on every field the scheduler reads |
| Database.NextId | database/models.py:54 | a new key is positive and larger than every key in the table, and 1 in an empty table |
| Database.MaxId | database/models.py:54 | the largest key bounds every key in the table |
| Database.RowWithId | communication/phone_caller.py:48 | `query(...).get(id)` finds the first row with that key, or none when no row has it |
| Database.AppendKeepsKeys | database/models.py:54 | appending a row under the next key keeps the keys positive and distinct |
| Database.KeysAfterReplace | database/models.py:54 | replacing a row by one with the same key keeps the keys valid |
| Database.Store.constructor | database/models.py:192-204 | a freshly created database has four empty tables and satisfies the constraints |
| Database.Store.AddContact | scrapers/scheduler.py:226-227 | the contact is appended under the next key and the other tables do not change |
| Database.Store.UpdateProperty | database/models.py:57-68 | a change that keeps key, URL and price replaces exactly that row and keeps the constraints |
| Database.Store.UpdateContact | scrapers/scheduler.py:279-283 | a change that keeps the key replaces exactly that contact |
| Database.Store.AddCommunication | communication/phone_caller.py:217-218 | the record is appended under the next key and the other tables do not change |
| Listings.Update | scrapers/base_scraper.py:209-211 | each key the details provide (description, features list, contact, images) replaces the listing's, the others are kept, and empty details change nothing |
| Listings.UpdateIdempotent | scrapers/base_scraper.py:209-211 | applying the same details twice equals applying them once |
| DuplicateDetector.ParsePrice | utils/duplicate_detector.py:225-238 | empty text has no price, and a parsed price is never negative |
| DuplicateDetector.ParsePriceReadsNumerals | utils/duplicate_detector.py:225-238 | the price is the number read from the text's digits and dots after commas become dots; the currency and charge markers removed first never change that residue |
| DuplicateDetector.ParsePriceOfWholeAmount | utils/duplicate_detector.py:225-238 | a whole amount followed by non-numeric text parses to that amount |
| DuplicateDetector.ParsePriceRejectsDottedThousands | utils/duplicate_detector.py:225-238 | an amount written with a dot for thousands and a comma for decimals does not parse |
| DuplicateDetector.ParseArea | utils/duplicate_detector.py:240-252 | empty text, or text without a digit, has no area, and a parsed area is never negative |
| DuplicateDetector.ParseAreaOfWholeAmount | utils/duplicate_detector.py:240-252 | "N m²" and "Nm2" parse to N |
| DuplicateDetector.RoomMappingsWithin | utils/duplicate_detector.py:260-267 | every room mapping gives 1 to 5 rooms |
| DuplicateDetector.RoomsOf | utils/duplicate_detector.py:254-279 | empty text has no room count; a count is 0 to 9; text with a digit always gives a count |
| DuplicateDetector.ParseRooms | utils/duplicate_detector.py:254-279 | the loop over the mappings with early return computes `RoomsOf` |
| DuplicateDetector.RoomsOfDigits | utils/duplicate_detector.py:274-277 | a number written in digits gives its first digit |
| DuplicateDetector.NormalizedAddress | utils/duplicate_detector.py:168-200 | an empty address normalises to empty; a normalised address is single-spaced word characters with no outer spaces |
| DuplicateDetector.NormalizeAddress | utils/duplicate_detector.py:168-200 | the replacement loop computes `NormalizedAddress` |
| DuplicateDetector.NormalizedDescription | utils/duplicate_detector.py:202-223 | an empty description normalises to empty; the result is single-spaced with no outer spaces |
| DuplicateDetector.NormalizeDescription | utils/duplicate_detector.py:202-223 | the jargon loop computes `NormalizedDescription` |
| DuplicateDetector.AddressBonus | utils/duplicate_detector.py:111-122 | the street-number and shared-word bonus lies between 0 and 0.4 |
| DuplicateDetector.AddressBonusSymmetric | utils/duplicate_detector.py:111-122 | the bonus does not depend on the order of the addresses |
| DuplicateDetector.AddressScore | utils/duplicate_detector.py:95-124 | the score lies in [0,1]; it is 0 when either address is empty, and otherwise the ratio of the normalised addresses over 100 plus the number and word bonus, capped at 1, so never below the capped ratio and at most 0.4 above the ratio |
| DuplicateDetector.AddressScoreSymmetric | utils/duplicate_detector.py:95-124 | with a symmetric ratio the score does not depend on the order |
| DuplicateDetector.AddressScoreOfItself | utils/duplicate_detector.py:95-124 | a non-empty address that the ratio finds identical to itself scores 1 |
| DuplicateDetector.DescriptionScore | utils/duplicate_detector.py:126-138 | the score lies in [0,1] and is 0 when either text is empty |
| DuplicateDetector.ExactSpecsMatch | utils/duplicate_detector.py:140-166 | the figures match exactly when none of the three checks fails: a price gap over the threshold, differing room counts, an area gap over 10% of the stored area, each counted only when both sides know that figure; unknown figures therefore match |
| DuplicateDetector.SameFiguresMatch | utils/duplicate_detector.py:140-166 | a listing whose figures equal the stored row's matches it |
| DuplicateDetector.IsSameProperty | utils/duplicate_detector.py:63-93 | an address score above the threshold decides True; otherwise a score in (0.6, threshold] matches exactly when the description score is above its threshold or the figures match, a score in (0.4, 0.6] exactly when the figures match, and a score of at most 0.4 never; with an empty address only a negative threshold matches |
| DuplicateDetector.SameAddressIsSameProperty | utils/duplicate_detector.py:66-74 | the same non-empty address is the same property under any threshold below 1 |
| DuplicateDetector.Candidates | utils/duplicate_detector.py:41-46 | the candidates are exactly the stored rows in the city, within the price band and available |
| DuplicateDetector.AnyMatch | utils/duplicate_detector.py:49-54 | the loop with early return is True exactly when some candidate matches |
| DuplicateDetector.IsDuplicate | utils/duplicate_detector.py:25-61 | the listing is a duplicate exactly when its price and city are known and some stored candidate is the same property |
| DuplicateDetector.NoCityNoDuplicate | utils/duplicate_detector.py:31-35 | a listing without a city is never a duplicate |
| DuplicateDetector.DuplicateNeedsCloseAddress | utils/duplicate_detector.py:88-93 | with a threshold of at least 0.4, a duplicate has a stored row whose address scores above 0.4 |
| DuplicateDetector.FindSimilarProperties | utils/duplicate_detector.py:281-307 | none when price or city is missing; otherwise the first `limit` stored rows in table order that are in the city, in the doubled price band and available, so all of them when they fit within the limit |
| DuplicateDetector.DuplicateRangeWithinSimilarRange | utils/duplicate_detector.py:293-294 | every duplicate candidate is also a similar-property candidate |
| BaseScraper.SiteNameWithoutSuffix | scrapers/base_scraper.py:264-266 | a class name without "scraper" gives its lower-cased self |
| BaseScraper.SiteName | scrapers/base_scraper.py:264-266 | `get_site_name`: the class name lower-cased with every "scraper" removed left to right; a name without "scraper" is kept whole (`SiteNameWithoutSuffix`) |
| BaseScraper.ExtractFeatures | scrapers/base_scraper.py:136-153 | `extract_features`: each of the ten flags is set exactly when one of its words occurs in the lower-cased "title description" (`FeaturesOfTitleOrDescription`, `EmptyListingHasNoFeatures`) |
| BaseScraper.FeaturesOfTitleOrDescription | scrapers/base_scraper.py:136-153 | a feature keyword in the title or in the description sets that flag |
| BaseScraper.ShortTextHasNoFeatures | scrapers/base_scraper.py:140-151 | text shorter than every keyword sets no flag |
| BaseScraper.EmptyListingHasNoFeatures | scrapers/base_scraper.py:136-153 | a listing without title and description has no feature |
| BaseScraper.NewScraper | scrapers/base_scraper.py:30-34 | a scraper's duplicate detector uses the configuration's three thresholds |
| BaseScraper.BuiltPropertyOnceInserted | scrapers/base_scraper.py:239-256 | the built property, once inserted, is NEW, available and under the scraper's site name |
| BaseScraper.NewProperty | scrapers/base_scraper.py:239-256 | the Property built from a listing: parsed price, rooms and area, the searched city, the site name, the features and images, status NEW (`BuiltPropertyOnceInserted`) |
| BaseScraper.PropertyFromData | scrapers/base_scraper.py:231-262 | `create_property_from_data` as a value: nothing for a duplicate, else `NewProperty`; the method `CreatePropertyFromData` is proved equal to it |
| BaseScraper.CreatePropertyFromData | scrapers/base_scraper.py:231-262 | None exactly when the detector reports a duplicate, otherwise the property built from the listing |
| BaseScraper.RequestedPagesInOrder | scrapers/base_scraper.py:184-187 | pages are requested as consecutive numbers from the first, never beyond page 10 |
| BaseScraper.RequestedAfterFullPages | scrapers/base_scraper.py:192-201 | a page is requested only after every earlier page was fetched and listed something |
| BaseScraper.CollectedIsWhatListingsYield | scrapers/base_scraper.py:205-220 | the page's properties are exactly what its detailed listings yield, at most one each |
| BaseScraper.CollectedKeepsAll | scrapers/base_scraper.py:205-220 | when every listing yields a property, none is lost |
| BaseScraper.ProcessListings | scrapers/base_scraper.py:206-220 | the listing loop computes `Collected` |
| BaseScraper.ScrapeCity | scrapers/base_scraper.py:179-229 | the page loop returns `ScrapedPages` and requests exactly the pages `RequestedPages` lists, in order |
| BaseScraper.PageUnfolds | scrapers/base_scraper.py:187-222 | one page: a failed fetch or an empty page is the last page requested and adds nothing; otherwise its properties come before the later pages' |
| BaseScraper.PageEndsLoop | scrapers/base_scraper.py:192-201 | a failed fetch or an empty page ends the loop with the properties gathered so far and the pages requested up to it |
| BaseScraper.PageContinuesLoop | scrapers/base_scraper.py:203-222 | a page that lists something appends its properties and moves on to the next page |
| BaseScraper.ScrapePage | scrapers/base_scraper.py:187-222 | one iteration: the page is requested; either the loop continues with its properties appended, or the results are complete |
| BaseScraper.NothingPendingYet | scrapers/base_scraper.py:183-184 | before page 1 nothing is gathered and every page is still pending |
| BaseScraper.PastLastPage | scrapers/base_scraper.py:187 | after page 10 nothing is pending: what was gathered is the result |
| BaseScraper.ScrapedAreYielded | scrapers/base_scraper.py:179-229 | every scraped property comes from some listing |
| BaseScraper.ScrapedPropertiesOfCity | scrapers/base_scraper.py:231-256 | every scraped property is in the given city, under the site name, NEW, unsaved, and built from a listing that is not a duplicate |
| BaseScraper.EmptyStoreKeepsEveryListing | scrapers/base_scraper.py:234-237 | with nothing stored every listing yields a property |
| SeLoger.SeLogerSiteName | scrapers/base_scraper.py:250 | SeLoger's properties are stored under "seloger" |
| SeLoger.TypeCodes | scrapers/seloger_scraper.py:30-34 | at most one code per type, each "1" or "2" |
| SeLoger.TypeCodesAppend | scrapers/seloger_scraper.py:30-34 | the codes of a concatenation are the codes of each part in order |
| SeLoger.TypeCodesOfUnknown | scrapers/seloger_scraper.py:30-34 | types with no mapping give no code |
| SeLoger.CollectTypeCodes | scrapers/seloger_scraper.py:30-34 | the loop over the property types computes `TypeCodes` |
| SeLoger.SearchParams | scrapers/seloger_scraper.py:37-47 | the search has nine parameters, keyed projects, types, places, price, surface, rooms, page, sort and order in that order, with the type codes and the city as the values of types and places |
| SeLoger.SearchParamsMeaning | scrapers/seloger_scraper.py:37-47 | the search is for rentals ("projects" 2), names the city as "places", carries the page number as its decimal text, and asks for types "1,2" when no property type maps to a code |
| SeLoger.TypesParamIsCodes | scrapers/seloger_scraper.py:39 | the types parameter splits back into the codes |
| SeLoger.TypeCode | scrapers/seloger_scraper.py:24-28 | `type_mapping`: a code exactly for apartment, house and studio, and the code is "2" exactly for a house |
| SeLoger.Encode | scrapers/seloger_scraper.py:51 | `urlencode`: one `key=value` item per parameter, in parameter order, each side passed through the quoting function |
| SeLoger.BuildSearchUrl | scrapers/seloger_scraper.py:49-52 | the URL is the base URL, "/list.htm?" and the encoded parameters |
| SeLoger.FirstPostalCode | scrapers/seloger_scraper.py:115-119 | the first five-digit token, or none |
| SeLoger.FindPostalCode | scrapers/seloger_scraper.py:114-119 | the break loop computes `PostalCodeIn` |
| SeLoger.PostalCodeMeaning | scrapers/seloger_scraper.py:114-119 | a postal code found is a five-digit word of the location; none is found exactly when no word is one |
| SeLoger.FindIdInUrl | scrapers/seloger_scraper.py:140-144 | the break loop computes `IdInUrl` |
| SeLoger.UrlJoin | scrapers/seloger_scraper.py:91 | `urljoin(BASE_URL, href)`: an absolute href is kept as it is, and a relative one is appended to the base URL |
| SeLoger.IdInUrlMeaning | scrapers/seloger_scraper.py:140-144 | an id found is an all-digit '/'-segment of the URL; none is found exactly when no segment is one |
| SeLoger.InferredTypeMeaning | scrapers/seloger_scraper.py:127-133 | the type is studio exactly when the title says "studio", house exactly when it says "maison" or "villa" and not "studio", and apartment otherwise |
| SeLoger.TitleStep | scrapers/seloger_scraper.py:84-91 | the title is read and the URL is resolved against the site only when a link exists |
| SeLoger.FiguresStep | scrapers/seloger_scraper.py:93-106 | price, rooms and area are read when present and nothing else changes |
| SeLoger.LocationStep | scrapers/seloger_scraper.py:108-119 | the location becomes the address and the postal code is extracted, nothing else changes |
| SeLoger.ParseLocation | scrapers/seloger_scraper.py:108-119 | the location block computes `LocationStep` |
| SeLoger.ImageStep | scrapers/seloger_scraper.py:121-124 | only the images change |
| SeLoger.TypeStep | scrapers/seloger_scraper.py:126-133 | the type is inferred from the title and nothing else changes |
| SeLoger.IdStep | scrapers/seloger_scraper.py:135-144 | the listing id attribute wins; otherwise the id comes from the URL |
| SeLoger.ParseId | scrapers/seloger_scraper.py:135-144 | the id block computes `IdStep` |
| SeLoger.SingleListingFields | scrapers/seloger_scraper.py:79-146 | the listing holds the element's title, figures, location, postal code, type and id, and no city |
| SeLoger.SingleListing | scrapers/seloger_scraper.py:79-146 | `parse_single_listing` as a value: the title, figures, location, image, type and id steps in source order; its fields are given by `SingleListingFields` |
| SeLoger.ParseSingleListing | scrapers/seloger_scraper.py:79-146 | the step-by-step fill computes `SingleListing` |
| SeLoger.SeLogerListingsAreNeverDuplicates | scrapers/seloger_scraper.py:79-146 | a SeLoger listing has no city, so with any details it is never a duplicate |
| SeLoger.MeetsCriteria | scrapers/seloger_scraper.py:242-277 | a known price or room count out of range, an unwanted type, an exclude keyword, or no wanted keyword when some are given each reject; a listing passing all checks is accepted |
| SeLoger.EmptyExcludedKeywordRejectsAll | scrapers/seloger_scraper.py:266-269 | an empty exclude keyword rejects every listing |
| SeLoger.UnknownFiguresPass | scrapers/seloger_scraper.py:244-260 | a listing without price, rooms and type passes when no keywords are set |
| SeLoger.KeptAreAccepted | scrapers/seloger_scraper.py:68-77 | the kept listings are exactly the parsed elements the filter accepts |
| SeLoger.ListingPageKeepsMatches | scrapers/seloger_scraper.py:54-77 | the page's listings are exactly its parsed elements that meet the criteria |
| SeLoger.ParseListingPage | scrapers/seloger_scraper.py:54-77 | the element loop computes `ListingPage` |
| SeLoger.ExtractContactInfo | scrapers/seloger_scraper.py:201-210 | without a contact block every field is empty; otherwise phone and e-mail come from it |
| SeLoger.ContactFromDetails | scrapers/seloger_scraper.py:201-210 | a contact block from the detail page is what the contact info reads |
| SeLoger.PropertyDetails | scrapers/seloger_scraper.py:148-199 | `get_property_details`: an empty URL gives details that leave every listing unchanged, and any other URL gives what the detail page provides |
| SeLoger.SeLogerSite | scrapers/seloger_scraper.py:16-18 | the SeLoger site carries its class name |
| SeLoger.SeLogerScrapesAll | scrapers/base_scraper.py:205-220 | every listing a SeLoger page keeps becomes a property, whatever is stored |
| EmailSender.FirstContactOf | communication/email_sender.py:57 | the first contact row of the property, or none exactly when it has no contact |
| EmailSender.InitialEmailSent | communication/email_sender.py:52-61 | a sent initial e-mail went to the first contact row of the property, and that row has an e-mail address |
| EmailSender.ReminderSent | communication/email_sender.py:96-106 | a sent follow-up or urgent e-mail had an e-mail address and a stored property |
| PhoneCalls.NewPhoneCaller | communication/phone_caller.py:20-34 | a client exists exactly when both credentials are set and building it succeeds |
| PhoneCalls.TwilioWarningMeansNoCalls | communication/phone_caller.py:24-34 | when validation warns about Twilio, the phone caller is not configured |
| PhoneCalls.IsConfigured | communication/phone_caller.py:279-281 | `is_configured`: a client was built (`NewPhoneCaller`, `CallRecordMeaning`) |
| PhoneCalls.CallScript | communication/phone_caller.py:144-200 | the call script names the address, or the city when there is none, and the monthly price; `initial` picks the initial or the follow-up wording |
| PhoneCalls.CommunicationRow | communication/phone_caller.py:206-215 | the logged row is a PHONE record, whatever method is passed, sent now, with `{}` as metadata when none is given |
| PhoneCalls.LogCommunication | communication/phone_caller.py:201-224 | one row is appended under the next key and the other tables do not change |
| PhoneCalls.CallRecord | communication/phone_caller.py:36-89 | no record without a client, a phone number or the property |
| PhoneCalls.CallRecordMeaning | communication/phone_caller.py:56-76 | a logged call is an initiated PHONE record for the contact and its property whose metadata is exactly the placed call's sid and Twilio status |
| PhoneCalls.CallSid | communication/phone_caller.py:75 | the sid of the call `make_call` places; `CallRecordMeaning` and `MakeCall` state it is the logged one |
| PhoneCalls.LoggedCallIsFound | communication/phone_caller.py:232-234 | a record carrying the sid (the call log writes it at line 75), once appended, is found by the status webhook's lookup |
| PhoneCalls.MakeCall | communication/phone_caller.py:36-89 | True exactly when a call was placed, which appends its record and nothing else; False leaves the store unchanged; after a placed call the status webhook's lookup finds a record with its sid |
| PhoneCalls.FirstWithSid | communication/phone_caller.py:232-234 | the first record carrying the sid, or none exactly when no record does |
| PhoneCalls.StatusUpdated | communication/phone_caller.py:236-244 | the status is written; duration and delivery time are set only for a completed call with a duration; nothing else changes |
| PhoneCalls.StatusUpdatedKeepsSid | communication/phone_caller.py:236-244 | the updated record still carries its sid |
| PhoneCalls.StatusUpdatedIdempotent | communication/phone_caller.py:236-244 | a webhook delivered twice leaves the record as one delivery does |
| PhoneCalls.HandleCallStatusUpdate | communication/phone_caller.py:226-258 | True exactly when some record has the sid; then only the first such record is updated; otherwise nothing changes |
| Scheduler.CronJob | scrapers/scheduler.py:62-70 | a job exists exactly when its schedule is non-empty, with that crontab |
| Scheduler.ScheduledJobsMeaning | scrapers/scheduler.py:58-105 | the scrape, contact and follow-up jobs are present exactly when their schedules are non-empty; the cleanup job is always last; all have one instance; no two share a task or an id |
| Scheduler.ScheduledJobs | scrapers/scheduler.py:58-105 | `_schedule_jobs`: the jobs in the order they are added, one per non-empty schedule and then the cleanup (`ScheduledJobsMeaning`, `JobsDistinct`) |
| Scheduler.JobsDistinct | scrapers/scheduler.py:58-105 | the jobs of the table have distinct tasks and ids |
| Scheduler.RanksIncrease | scrapers/scheduler.py:58-105 | the jobs appear in the order they are added |
| Scheduler.FirstWithUrl | scrapers/scheduler.py:150-152 | a stored row with the URL, or none exactly when none is stored |
| Scheduler.SaveBatch | scrapers/scheduler.py:147-163 | the loop refreshes the stored rows with a batch URL, collects the unseen listings, and counts them as new |
| Scheduler.ScrapeSite | scrapers/scheduler.py:126-186 | one site and city run is the specification `SiteRun`; contacts and communications do not change |
| Scheduler.ScrapeCitySites | scrapers/scheduler.py:121-124 | the site loop is `CityRun`, stopping at an abort |
| Scheduler.ScrapeAllSites | scrapers/scheduler.py:107-190 | the whole pass is `ScrapePass` over the configured cities |
| Scheduler.ScrapePass | scrapers/scheduler.py:107-190 | `scrape_all_sites` as a fold over the cities: each stripped, blank ones skipped, stopping at an abort; its effect is given by `UpsertMeaning`, `ScrapePassExtends` and `ScrapePassAfterAbort` |
| Scheduler.UpsertMeaning | scrapers/scheduler.py:147-172 | after a committed run, stored rows with a batch URL are refreshed and the rest unchanged; every batch URL is stored; one completed log is appended with found = batch size and new <= found |
| Scheduler.UnstoredAreUnseen | scrapers/scheduler.py:154-156 | a listing whose URL is not stored is added |
| Scheduler.UnseenAreUnstored | scrapers/scheduler.py:150-156 | every added listing is from the batch and had no stored URL |
| Scheduler.UnseenKeepsOrder | scrapers/scheduler.py:147-156 | added listings keep their batch order |
| Scheduler.RefusedCommit | scrapers/scheduler.py:165 | the run aborts exactly when the commit refuses the added rows, leaving properties unchanged and a running log |
| Scheduler.RepeatedNewUrlAborts | scrapers/scheduler.py:150-165 | a batch repeating a URL that is not stored aborts the pass |
| Scheduler.CityRunAfterAbort | scrapers/scheduler.py:179-186 | after an abort the remaining sites change nothing |
| Scheduler.ScrapePassAfterAbort | scrapers/scheduler.py:179-186 | after an abort the remaining cities change nothing |
| Scheduler.SiteRunKeepsValid | scrapers/scheduler.py:147-172 | a run keeps keys valid, URLs unique and prices present |
| Scheduler.UpsertKeepsValid | scrapers/scheduler.py:147-165 | a commit the constraints accept keeps the properties table valid |
| Scheduler.SiteRunExtends | scrapers/scheduler.py:128-172 | a run never removes or rekeys a property and only appends logs |
| Scheduler.CityRunExtends | scrapers/scheduler.py:121-124 | the same holds for a city |
| Scheduler.ScrapePassExtends | scrapers/scheduler.py:114-190 | the same holds for the whole pass |
| Scheduler.ExtendsTransitive | scrapers/scheduler.py:114-190 | extension composes across runs |
| Scheduler.NothingEnabledNothingScraped | scrapers/scheduler.py:121-124 | with SeLoger disabled the pass changes nothing |
| Scheduler.MarkedContacted | scrapers/scheduler.py:230-232 | the property becomes CONTACTED with its update time, no longer awaits contact, and nothing else changes |
| Scheduler.WithContact | scrapers/scheduler.py:212-227 | afterwards the property has a contact; a new contact is appended exactly when it had none |
| Scheduler.InitiateProperty | scrapers/scheduler.py:209-236 | one loop turn is `InitiateStep` |
| Scheduler.InitiateContacts | scrapers/scheduler.py:194-241 | the pass is `InitiatePass`; communications and logs do not change |
| Scheduler.InitiatedLeavesRest | scrapers/scheduler.py:209-236 | properties not yet visited are unchanged |
| Scheduler.InitiatedChanges | scrapers/scheduler.py:202-232 | a property changes only if it awaits contact, and then into CONTACTED |
| Scheduler.InitiatedAppendsContacts | scrapers/scheduler.py:216-227 | existing contacts are kept and at most one fresh PENDING contact per property is appended |
| Scheduler.AwaitingGetContacts | scrapers/scheduler.py:202-227 | every NEW, available property has a contact afterwards |
| Scheduler.WithoutEmailsNothingContacted | scrapers/scheduler.py:229-232 | when no contact has an e-mail, no property changes and nothing is counted |
| Scheduler.InitiatedCount | scrapers/scheduler.py:207-232 | the contacted count is the number of properties that changed |
| Scheduler.PassCovers | scrapers/scheduler.py:202-227 | after the pass every property awaiting contact has a contact |
| Scheduler.CoveredAddsNone | scrapers/scheduler.py:212-216 | when every property awaiting contact has one, no contact is added |
| Scheduler.SecondPassAddsNoContacts | scrapers/scheduler.py:194-241 | a second initiation pass adds no contact |
| Scheduler.FollowedUp | scrapers/scheduler.py:279-283 | a followed-up contact gains one attempt, is stamped now and is due again after the delay; nothing else changes |
| Scheduler.Reminder | scrapers/scheduler.py:268-277 | the first attempt sends the follow-up e-mail, the second places a call that is logged, later ones send the urgent e-mail |
| Scheduler.FollowUpContact | scrapers/scheduler.py:266-287 | one loop turn is `FollowUpStep` |
| Scheduler.SendFollowUps | scrapers/scheduler.py:247-296 | the pass is `FollowUpPass`; properties and logs do not change |
| Scheduler.Eligible | scrapers/scheduler.py:255-262 | the follow-up query: EMAIL_SENT or PHONE_CALLED, no response, a last attempt before now minus the delay, fewer attempts than the maximum (`FollowUpsChanges`, `NewContactNeverDue`) |
| Scheduler.FollowUpStepMeaning | scrapers/scheduler.py:266-287 | only the visited contact may change, and only when it is eligible and the send succeeded; the count rises by one exactly then; only a successful second-attempt call appends a record |
| Scheduler.FollowUpsLeaveRest | scrapers/scheduler.py:266-287 | contacts not yet visited are unchanged |
| Scheduler.FollowUpsChanges | scrapers/scheduler.py:255-283 | a contact changes only if it was eligible, and then into its followed-up form |
| Scheduler.FollowUpsCount | scrapers/scheduler.py:264-283 | the sent count is the number of contacts that changed |
| Scheduler.FollowUpsLogCalls | scrapers/scheduler.py:272-274 | the pass only appends initiated PHONE records |
| Scheduler.AttemptsStayBounded | scrapers/scheduler.py:255-283 | when every contact's attempts are within the maximum, they still are after the pass |
| Scheduler.FollowedUpNotDue | scrapers/scheduler.py:255-283 | with a non-negative delay a contact just followed up is not eligible at the same moment |
| Scheduler.SecondPassSkipsFollowedUp | scrapers/scheduler.py:255-283 | a second pass at the same moment leaves every contact followed up by the first unchanged |
| Scheduler.NewContactNeverDue | scrapers/scheduler.py:257-262 | a contact created by initiation is never eligible |
| Scheduler.Retired | scrapers/scheduler.py:313 | a retired property is unavailable, stamped now, neither stale nor awaiting contact, and otherwise unchanged |
| Scheduler.MarkedStale | scrapers/scheduler.py:306-313 | exactly the stale properties change, each into its retired form |
| Scheduler.Stale | scrapers/scheduler.py:305-310 | the cleanup query: not updated for seven days and still available (`MarkedStale`, `Retired`) |
| Scheduler.RetireStale | scrapers/scheduler.py:305-313 | the loop computes `MarkedStale` and counts the stale properties |
| Scheduler.StaleCountIsChanged | scrapers/scheduler.py:312 | the count is the number of properties that changed |
| Scheduler.ExpiredLogs | scrapers/scheduler.py:315-322 | the kept logs are `RecentLogs`, the removed ones are counted, and together they account for every log |
| Scheduler.RecentLogsMembers | scrapers/scheduler.py:316-322 | a log is kept exactly when it was present and is not older than 30 days |
| Scheduler.RecentLogsKeepKeys | scrapers/scheduler.py:322 | deleting logs keeps the keys valid |
| Scheduler.LogsKeptOrRemoved | scrapers/scheduler.py:321-322 | kept and removed logs add up to all logs |
| Scheduler.ExpiredCountPrefix | scrapers/scheduler.py:321 | counting the expired logs of a prefix only reads that prefix |
| Scheduler.DailyCleanup | scrapers/scheduler.py:298-332 | properties become `MarkedStale` and logs `RecentLogs`, with both counts; contacts and communications do not change |
| Scheduler.CleanupIdempotent | scrapers/scheduler.py:305-322 | a second cleanup at the same moment changes nothing |
| Scheduler.RecentLogsIdempotent | scrapers/scheduler.py:315-322 | filtering the logs twice equals filtering once |

## Left out

- Python's Unicode semantics above Latin-1 are left out. `lower()` folds A-Z and the Latin-1 capitals À-Þ (except ×) and leaves every character above U+00FF unchanged. `\w` is exact on Latin-1; above it, whitespace, General Punctuation (U+2000-U+206F) and Currency Symbols (U+20A0-U+20CF) are not word characters and every other character is. `\s` and `strip()` use the full Unicode whitespace set. `isdigit()` and `\d` accept only 0-9, so the superscript digits ¹ ² ³ that Python's `isdigit()` also accepts are not digits here.
- Floating point is left out. Prices, areas and scores are exact reals, so the IEEE rounding of sums such as 0.7 + 0.1 is not modelled.
- HTML parsing, HTTP fetches, `safe_get`'s delays and timeouts, Selenium and the alternative CSS selectors are I/O or foreign libraries. They become the listing-element record and the page functions given as parameters.
- URL percent-encoding is a parameter, and `urljoin` is modelled only for site-relative links.
- fuzzywuzzy's `ratio` and `token_sort_ratio` are any functions returning 0..100.
- SMTP, the e-mail templates, and the Communication rows the e-mail sender logs in its own session are left out. Each send is a `deliver` parameter behind the modelled guards.
- The Twilio client and the TwiML text are left out. A call is a `place` parameter, and its script is kept as structured content.
- APScheduler's cron parsing, misfire handling, listeners and background thread are concurrency inside a library. Only the job table is modelled.
- SQLAlchemy sessions are left out. A pass works on one store at one moment. `LIKE` wildcards in the city filter and `isoformat` are not modelled.
- Exceptions inside the initiation and follow-up loops are not modelled, because the model's collaborators return values and do not raise. A failed send is False.
- `get_scraper_urls`, `get_call_history`, `test_configuration`, `extract_contact_info_from_page` and `get_property_details`' DOM reading are left out as foreign I/O. The details reach the model as a `ListingDetails` value.
- web/app.py, main.py and utils/logger.py are not part of this model.
- Settings.ParseInt / Settings.ParseFloat: only plain decimal numerals are read, with surrounding whitespace and one sign. The forms Python's `int()` and `float()` also accept are not modelled: underscores between digits ("1_000"), non-ASCII digits, exponents ("1e-1"), and "inf", "infinity" and "nan" in any case. Settings.LoadConfig therefore fails on those values where the source loads them.
- BaseScraper.ScrapeCity: the page-level `except` that ends the page loop (scrapers/base_scraper.py:224-226) is represented by `web` returning None for that page. Both stop the loop and keep the properties gathered so far.
- BaseScraper.ProcessListings: the listing-level `except` that skips a listing (scrapers/base_scraper.py:218-220) is represented by `outcome` returning None for that listing. The listing then adds no property.
- SeLoger.ParseListingPage: the per-element `except` (scrapers/seloger_scraper.py:73-75) is not modelled. `parse_single_listing` is a total function of the element record, so no element is skipped for raising.
- Models.ScheduleFollowUp: models a Contact value returned with the new field, not the in-place update of an ORM object.
- Settings.ValidateConfig: a function building the issues in the order the source appends them, not a loop over local lists.
