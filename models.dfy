/**
 * The database records (database/models.py): the three enumerations, the
 * rows of the four tables, the defaults the table definitions apply when a
 * row is inserted, `Contact.schedule_follow_up` and the two `to_dict` views.
 *
 * A row is a value; the store (module Database) updates a row by replacing it.
 * Timestamps are seconds on one clock (`Time`); the `utcnow()` calls of the
 * source become an explicit `now`.
 */
module Models {
  import opened Wrappers

  type Time = int

  const HOUR: int := 3600
  const DAY: int := 24 * HOUR

  datatype PropertyStatus =
    | New | Contacted | Responded | VisitScheduled | Visited
    | ApplicationSent | Accepted | Rejected | Unavailable | Duplicate
  {
    /** The enum member's `.value`. */
    function Value(): string {
      match this
      case New => "new"
      case Contacted => "contacted"
      case Responded => "responded"
      case VisitScheduled => "visit_scheduled"
      case Visited => "visited"
      case ApplicationSent => "application_sent"
      case Accepted => "accepted"
      case Rejected => "rejected"
      case Unavailable => "unavailable"
      case Duplicate => "duplicate"
    }
  }

  /** `PropertyStatus(value)`: the member with that value, if any. */
  function PropertyStatusOf(value: string): (r: Option<PropertyStatus>)
    ensures r.Some? ==> r.value.Value() == value
  {
    if value == "new" then Some(New)
    else if value == "contacted" then Some(Contacted)
    else if value == "responded" then Some(Responded)
    else if value == "visit_scheduled" then Some(VisitScheduled)
    else if value == "visited" then Some(Visited)
    else if value == "application_sent" then Some(ApplicationSent)
    else if value == "accepted" then Some(Accepted)
    else if value == "rejected" then Some(Rejected)
    else if value == "unavailable" then Some(Unavailable)
    else if value == "duplicate" then Some(Duplicate)
    else None
  }

  /** Every member is found again from its value, so no two members share one. */
  lemma PropertyStatusValueRoundTrip(s: PropertyStatus)
    ensures PropertyStatusOf(s.Value()) == Some(s)
  {
  }

  lemma PropertyStatusValuesRoundTrip()
    ensures forall s: PropertyStatus :: PropertyStatusOf(s.Value()) == Some(s)
  {
    forall s: PropertyStatus ensures PropertyStatusOf(s.Value()) == Some(s) {
      PropertyStatusValueRoundTrip(s);
    }
  }

  datatype ContactStatus = Pending | EmailSent | PhoneCalled | ContactResponded | NoResponse | Failed | Blocked
  {
    function Value(): string {
      match this
      case Pending => "pending"
      case EmailSent => "email_sent"
      case PhoneCalled => "phone_called"
      case ContactResponded => "responded"
      case NoResponse => "no_response"
      case Failed => "failed"
      case Blocked => "blocked"
    }
  }

  /** `ContactStatus(value)`. */
  function ContactStatusOf(value: string): (r: Option<ContactStatus>)
    ensures r.Some? ==> r.value.Value() == value
  {
    if value == "pending" then Some(Pending)
    else if value == "email_sent" then Some(EmailSent)
    else if value == "phone_called" then Some(PhoneCalled)
    else if value == "responded" then Some(ContactResponded)
    else if value == "no_response" then Some(NoResponse)
    else if value == "failed" then Some(Failed)
    else if value == "blocked" then Some(Blocked)
    else None
  }

  lemma ContactStatusValueRoundTrip(s: ContactStatus)
    ensures ContactStatusOf(s.Value()) == Some(s)
  {
  }

  datatype ContactMethod = Email | Phone | Both
  {
    function Value(): string {
      match this
      case Email => "email"
      case Phone => "phone"
      case Both => "both"
    }
  }

  /** `ContactMethod(value)`. */
  function ContactMethodOf(value: string): (r: Option<ContactMethod>)
    ensures r.Some? ==> r.value.Value() == value
  {
    if value == "email" then Some(Email)
    else if value == "phone" then Some(Phone)
    else if value == "both" then Some(Both)
    else None
  }

  lemma ContactMethodValueRoundTrip(m: ContactMethod)
    ensures ContactMethodOf(m.Value()) == Some(m)
  {
  }

  /** The feature flags a scraper extracts (the JSON `features` column). */
  datatype Features = Features(
    balcony: bool, parking: bool, elevator: bool, cellar: bool, garden: bool,
    furnished: bool, isNew: bool, metro: bool, school: bool, shops: bool)

  /** The feature flags as the JSON object the source stores: name and flag, in the source's key order. */
  function FeaturePairs(f: Features): (m: seq<(string, bool)>)
    ensures |m| == 10
    ensures m[0] == ("balcony", f.balcony) && m[1] == ("parking", f.parking)
    ensures m[2] == ("elevator", f.elevator) && m[3] == ("cellar", f.cellar) && m[4] == ("garden", f.garden)
    ensures m[5] == ("furnished", f.furnished) && m[6] == ("new", f.isNew) && m[7] == ("metro", f.metro)
    ensures m[8] == ("school", f.school) && m[9] == ("shops", f.shops)
    ensures forall i, j :: 0 <= i < j < |m| ==> m[i].0 != m[j].0
  {
    [("balcony", f.balcony), ("parking", f.parking), ("elevator", f.elevator),
     ("cellar", f.cellar), ("garden", f.garden), ("furnished", f.furnished),
     ("new", f.isNew), ("metro", f.metro), ("school", f.school), ("shops", f.shops)]
  }

  /**
   * A row of `properties`. `id` is 0 until the row is inserted (row ids start
   * at 1); `status`, `firstSeen`, `lastUpdated` and `stillAvailable` are None
   * until the insert applies their column defaults.
   */
  datatype Property = Property(
    id: nat,
    title: string,
    description: string,
    price: Option<real>,
    rooms: Option<int>,
    area: Option<real>,
    propertyType: string,
    address: string,
    city: string,
    postalCode: string,
    neighborhood: string,
    sourceSite: string,
    sourceUrl: string,
    sourceId: string,
    features: Option<Features>,
    images: Option<seq<string>>,
    status: Option<PropertyStatus>,
    firstSeen: Option<Time>,
    lastUpdated: Option<Time>,
    stillAvailable: Option<bool>,
    duplicateOf: Option<nat>)

  /** The row as inserted under id `id` at `now`: the column defaults fill what is unset. */
  function InsertedProperty(p: Property, id: nat, now: Time): (r: Property)
    requires id > 0
    ensures r.id == id && r.sourceUrl == p.sourceUrl && r.price == p.price
    ensures r.status == Some(p.status.GetOr(New))
    ensures r.stillAvailable == Some(p.stillAvailable.GetOr(true))
    ensures r.firstSeen == Some(p.firstSeen.GetOr(now)) && r.lastUpdated == Some(p.lastUpdated.GetOr(now))
    ensures r.duplicateOf == p.duplicateOf
    ensures r.(id := p.id, status := p.status, firstSeen := p.firstSeen, lastUpdated := p.lastUpdated,
               stillAvailable := p.stillAvailable) == p
  {
    p.(id := id,
       status := Some(p.status.GetOr(New)),
       firstSeen := Some(p.firstSeen.GetOr(now)),
       lastUpdated := Some(p.lastUpdated.GetOr(now)),
       stillAvailable := Some(p.stillAvailable.GetOr(true)))
  }

  /** A row of `contacts`; `id` is its row id (at least 1). */
  datatype Contact = Contact(
    id: nat,
    name: string,
    agencyName: string,
    email: string,
    phone: string,
    propertyId: nat,
    status: Option<ContactStatus>,
    preferredMethod: Option<ContactMethod>,
    attempts: int,
    lastAttempt: Option<Time>,
    nextScheduled: Option<Time>,
    responded: bool,
    responseDate: Option<Time>,
    createdAt: Option<Time>,
    updatedAt: Option<Time>)

  /**
   * The contact `initiate_contacts` inserts: empty name, agency, e-mail and
   * phone, status PENDING, and the column defaults for the rest.
   */
  function NewContact(id: nat, propertyId: nat, now: Time): (c: Contact)
    ensures c.id == id && c.propertyId == propertyId
    ensures c.status == Some(Pending) && c.preferredMethod == Some(Email)
    ensures c.attempts == 0 && !c.responded
    ensures c.lastAttempt.None? && c.nextScheduled.None? && c.responseDate.None?
    ensures c.email == "" && c.phone == ""
  {
    Contact(id, "", "", "", "", propertyId, Some(Pending), Some(Email), 0, None, None, false, None, Some(now), Some(now))
  }

  /**
   * `contact.schedule_follow_up(delay_hours)`: the next contact is due
   * `delayHours` hours after `now`; the source's default delay is 24 hours.
   */
  function ScheduleFollowUp(c: Contact, now: Time, delayHours: int := 24): (r: Contact)
    ensures r.nextScheduled.Some? && r.nextScheduled.value - now == delayHours * HOUR
    ensures r.(nextScheduled := c.nextScheduled) == c
  {
    c.(nextScheduled := Some(now + delayHours * HOUR))
  }

  /** Scheduling twice at the same moment is the same as scheduling once: only the last call counts. */
  lemma ScheduleFollowUpLastWins(c: Contact, now: Time, d1: int, d2: int)
    ensures ScheduleFollowUp(ScheduleFollowUp(c, now, d1), now, d2) == ScheduleFollowUp(c, now, d2)
  {
  }

  /** What a sent message holds: an e-mail body, or the structured content of a call script. */
  datatype Message =
    | Text(body: string)
    | CallScript(initial: bool, location: string, price: Option<real>)

  /** A row of `communications`. */
  datatype Communication = Communication(
    id: nat,
    propertyId: nat,
    contactId: nat,
    channel: ContactMethod,
    subject: string,
    message: Message,
    status: string,
    sentAt: Option<Time>,
    deliveredAt: Option<Time>,
    metadata: map<string, string>)

  /** A row of `scraping_logs`. */
  datatype ScrapingLog = ScrapingLog(
    id: nat,
    site: string,
    startedAt: Option<Time>,
    completedAt: Option<Time>,
    propertiesFound: int,
    propertiesNew: int,
    status: string,
    errorMessage: string,
    city: string)

  /** `Property.to_dict()`: timestamps stand for their ISO text. */
  datatype PropertyDict = PropertyDict(
    id: Option<nat>,
    title: string,
    description: string,
    price: Option<real>,
    rooms: Option<int>,
    area: Option<real>,
    propertyType: string,
    address: string,
    city: string,
    postalCode: string,
    neighborhood: string,
    sourceSite: string,
    sourceUrl: string,
    features: seq<(string, bool)>,
    images: seq<string>,
    status: Option<string>,
    firstSeen: Option<Time>,
    lastUpdated: Option<Time>,
    stillAvailable: Option<bool>)

  /** `features or {}` and `images or []`: an absent value reads as an empty one. */
  function PropertyToDict(p: Property): (d: PropertyDict)
    ensures d.features == [] <==> p.features.None?
    ensures p.features.Some? ==> d.features == FeaturePairs(p.features.value)
    ensures d.images == [] <==> p.images.None? || p.images.value == []
    ensures d.status.Some? <==> p.status.Some?
    ensures d.status.Some? ==> PropertyStatusOf(d.status.value) == p.status
    ensures d.id.Some? <==> p.id != 0
  {
    PropertyStatusValuesRoundTrip();
    PropertyDict(
      if p.id == 0 then None else Some(p.id),
      p.title, p.description, p.price, p.rooms, p.area, p.propertyType, p.address,
      p.city, p.postalCode, p.neighborhood, p.sourceSite, p.sourceUrl,
      if p.features.Some? then FeaturePairs(p.features.value) else [],
      p.images.GetOr([]),
      if p.status.Some? then Some(p.status.value.Value()) else None,
      p.firstSeen, p.lastUpdated, p.stillAvailable)
  }

  /** `Contact.to_dict()`. */
  datatype ContactDict = ContactDict(
    id: nat,
    name: string,
    agencyName: string,
    email: string,
    phone: string,
    propertyId: nat,
    status: Option<string>,
    preferredMethod: Option<string>,
    attempts: int,
    lastAttempt: Option<Time>,
    nextScheduled: Option<Time>,
    responded: bool,
    responseDate: Option<Time>)

  /** An absent status or method maps to None; a present one to its value, which identifies it. */
  function ContactToDict(c: Contact): (d: ContactDict)
    ensures d.status.Some? <==> c.status.Some?
    ensures d.status.Some? ==> ContactStatusOf(d.status.value) == c.status
    ensures d.preferredMethod.Some? <==> c.preferredMethod.Some?
    ensures d.preferredMethod.Some? ==> ContactMethodOf(d.preferredMethod.value) == c.preferredMethod
    ensures d.lastAttempt == c.lastAttempt && d.nextScheduled == c.nextScheduled && d.responseDate == c.responseDate
  {
    ContactDict(
      c.id, c.name, c.agencyName, c.email, c.phone, c.propertyId,
      if c.status.Some? then Some(c.status.value.Value()) else None,
      if c.preferredMethod.Some? then Some(c.preferredMethod.value.Value()) else None,
      c.attempts, c.lastAttempt, c.nextScheduled, c.responded, c.responseDate)
  }

  /** The contact's view loses nothing the scheduler reads: two contacts with the same view agree on it. */
  lemma ContactToDictKeepsSchedulerFields(a: Contact, b: Contact)
    requires ContactToDict(a) == ContactToDict(b)
    ensures a.status == b.status && a.attempts == b.attempts && a.responded == b.responded
    ensures a.lastAttempt == b.lastAttempt && a.email == b.email && a.phone == b.phone
  {
    assert ContactStatusOf(ContactToDict(a).status.GetOr("")) == ContactStatusOf(ContactToDict(b).status.GetOr(""));
  }
}
