/**
 * The dictionary a scraper builds for one listing (scrapers/base_scraper.py,
 * scrapers/seloger_scraper.py). A text key the scraper did not set reads as
 * the empty string, which is what every `data.get(key, '')` of the source sees.
 */
module Listings {
  import opened Wrappers

  /** The contact block of a detail page: agency, phone, e-mail and agent name. */
  datatype ContactDetails = ContactDetails(agency: string, phone: string, email: string, agent: string)

  datatype ListingData = ListingData(
    title: string,
    url: string,
    price: string,
    rooms: string,
    area: string,
    address: string,
    postalCode: string,
    city: string,
    neighborhood: string,
    description: string,
    propertyType: string,
    id: string,
    images: seq<string>,
    featuresList: seq<string>,
    contact: Option<ContactDetails>)

  /** A listing with no key set. */
  const EmptyListing := ListingData("", "", "", "", "", "", "", "", "", "", "", "", [], [], None)

  /** What a detail page adds to a listing; a key the page did not provide is None. */
  datatype ListingDetails = ListingDetails(
    description: Option<string>,
    featuresList: Option<seq<string>>,
    contact: Option<ContactDetails>,
    images: Option<seq<string>>)

  /** `data.update(details)`: each key the details provide replaces the listing's. */
  function Update(data: ListingData, details: ListingDetails): (r: ListingData)
    ensures details == ListingDetails(None, None, None, None) ==> r == data
    ensures details.description.Some? ==> r.description == details.description.value
    ensures details.description.None? ==> r.description == data.description
    ensures details.images.Some? ==> r.images == details.images.value
    ensures details.images.None? ==> r.images == data.images
    ensures details.contact.Some? ==> r.contact == details.contact
    ensures details.contact.None? ==> r.contact == data.contact
    ensures details.featuresList.Some? ==> r.featuresList == details.featuresList.value
    ensures details.featuresList.None? ==> r.featuresList == data.featuresList
    ensures r.(description := data.description, images := data.images, contact := data.contact,
               featuresList := data.featuresList) == data
  {
    data.(description := details.description.GetOr(data.description),
          featuresList := details.featuresList.GetOr(data.featuresList),
          contact := if details.contact.Some? then details.contact else data.contact,
          images := details.images.GetOr(data.images))
  }

  /** Applying the same details twice is the same as applying them once. */
  lemma UpdateIdempotent(data: ListingData, details: ListingDetails)
    ensures Update(Update(data, details), details) == Update(data, details)
  {
  }
}
