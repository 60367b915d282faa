/**
 * The phone caller (communication/phone_caller.py): when a call may be
 * placed, what a placed call logs, and the Twilio status webhook's update of
 * the logged record.
 *
 * The Twilio client is a parameter: `place` stands for `client.calls.create`
 * and gives the call's sid and status, or None when the call raises. The
 * TwiML script is kept as its structured content (`Message.CallScript`).
 */
module PhoneCalls {
  import opened Wrappers
  import opened Settings
  import opened Models
  import opened Database

  /** What `client.calls.create` returns: the call's sid and its Twilio status. */
  datatype Call = Call(sid: string, status: string)

  /** The Twilio client: a call to a number, from a number, with a script. */
  datatype Twilio = Twilio(place: (string, string, Message) -> Option<Call>)

  datatype PhoneCaller = PhoneCaller(config: Config, client: Option<Twilio>)

  /**
   * `PhoneCaller(config)`: a client is built only when both Twilio
   * credentials are set; `connect` is None when building it raises.
   */
  function NewPhoneCaller(cfg: Config, connect: Option<Twilio>): (pc: PhoneCaller)
    ensures pc.config == cfg
    ensures pc.client.Some? <==> cfg.twilioAccountSid != "" && cfg.twilioAuthToken != "" && connect.Some?
  {
    if cfg.twilioAccountSid != "" && cfg.twilioAuthToken != "" then PhoneCaller(cfg, connect)
    else PhoneCaller(cfg, None)
  }

  /** `is_configured`: whether a client was built. */
  predicate IsConfigured(pc: PhoneCaller) {
    pc.client.Some?
  }

  /** The configuration warning about Twilio means the phone caller places no calls. */
  lemma TwilioWarningMeansNoCalls(cfg: Config, connect: Option<Twilio>)
    requires ValidateConfig(cfg).warnings != []
    ensures !IsConfigured(NewPhoneCaller(cfg, connect))
  {
  }

  /** The place the script names: `address or city`. */
  function Location(p: Property): string {
    if p.address != "" then p.address else p.city
  }

  /** `_generate_initial_call_script` / `_generate_call_script`: the location and the monthly price. */
  function CallScript(p: Property, initial: bool): Message {
    Message.CallScript(initial, Location(p), p.price)
  }

  /** The logged subject: "Appel initial - " or "Appel automatique - ", then the title. */
  function CallSubject(p: Property, initial: bool): string {
    (if initial then "Appel initial - " else "Appel automatique - ") + p.title
  }

  /**
   * The row `_log_communication` writes: channel PHONE whatever `channel`
   * says, sent now, and the metadata given (`{}` when there is none).
   */
  function CommunicationRow(p: Property, contact: Contact, channel: ContactMethod, subject: string,
                            message: Message, status: string, metadata: Option<map<string, string>>, now: Time): (m: Communication)
    ensures m.channel == Phone
    ensures m.propertyId == p.id && m.contactId == contact.id
    ensures m.subject == subject && m.message == message && m.status == status
    ensures m.sentAt == Some(now) && m.deliveredAt.None?
    ensures metadata.None? ==> m.metadata == map[]
  {
    Communication(0, p.id, contact.id, Phone, subject, message, status, Some(now), None, metadata.GetOr(map[]))
  }

  /** `_log_communication`: add the row under the next id and commit. */
  method LogCommunication(db: Store, p: Property, contact: Contact, channel: ContactMethod, subject: string,
                          message: Message, status: string, metadata: Option<map<string, string>>, now: Time)
    requires db.Valid()
    modifies db
    ensures db.Valid()
    ensures db.communications == old(db.communications) +
      [CommunicationRow(p, contact, channel, subject, message, status, metadata, now).(id := NextId(old(db.communications), CommunicationId))]
    ensures db.properties == old(db.properties) && db.contacts == old(db.contacts) && db.logs == old(db.logs)
  {
    var row := CommunicationRow(p, contact, channel, subject, message, status, metadata, now);
    var _ := db.AddCommunication(row);
  }

  /**
   * What one call attempt logs: nothing without a client, without a phone
   * number, when the property is not found or when the call raises;
   * otherwise the PHONE row with status "initiated", the call's sid and
   * Twilio status in its metadata.
   */
  function CallRecord(pc: PhoneCaller, properties: seq<Property>, contact: Contact, initial: bool, now: Time): (r: Option<Communication>)
    ensures pc.client.None? || contact.phone == "" ==> r.None?
    ensures RowWithId(properties, PropertyId, contact.propertyId).None? ==> r.None?
  {
    if pc.client.None? || contact.phone == "" then None
    else
      match RowWithId(properties, PropertyId, contact.propertyId)
      case None => None
      case Some(k) =>
        var p := properties[k];
        match pc.client.value.place(contact.phone, pc.config.twilioPhoneNumber, CallScript(p, initial))
        case None => None
        case Some(call) =>
          Some(CommunicationRow(p, contact, Phone, CallSubject(p, initial), CallScript(p, initial), "initiated",
                                Some(map["call_sid" := call.sid, "twilio_status" := call.status]), now))
  }

  /** A logged call is a PHONE row for the contact and its property, initiated, that carries the call's sid. */
  lemma CallRecordMeaning(pc: PhoneCaller, properties: seq<Property>, contact: Contact, initial: bool, now: Time)
    requires CallRecord(pc, properties, contact, initial, now).Some?
    ensures var m := CallRecord(pc, properties, contact, initial, now).value;
      && m.channel == Phone && m.status == "initiated" && m.contactId == contact.id
      && m.propertyId == contact.propertyId && "call_sid" in m.metadata && "twilio_status" in m.metadata
      && m.subject == CallSubject(properties[RowWithId(properties, PropertyId, contact.propertyId).value], initial)
    ensures var k := RowWithId(properties, PropertyId, contact.propertyId).value;
      var call := pc.client.value.place(contact.phone, pc.config.twilioPhoneNumber, CallScript(properties[k], initial));
      && call.Some?
      && CallRecord(pc, properties, contact, initial, now).value.metadata
         == map["call_sid" := call.value.sid, "twilio_status" := call.value.status]
    ensures IsConfigured(pc) && contact.phone != ""
  {
  }

  /** The sid Twilio returns for the call `CallRecord` places ("" when none is placed). */
  function CallSid(pc: PhoneCaller, properties: seq<Property>, contact: Contact, initial: bool): string {
    if pc.client.None? || contact.phone == "" then ""
    else
      match RowWithId(properties, PropertyId, contact.propertyId)
      case None => ""
      case Some(k) =>
        match pc.client.value.place(contact.phone, pc.config.twilioPhoneNumber, CallScript(properties[k], initial))
        case None => ""
        case Some(call) => call.sid
  }

  /**
   * A placed call's record carries the sid Twilio returned, so the status
   * webhook for that sid finds a record once the call is logged.
   */
  lemma LoggedCallIsFound(comms: seq<Communication>, m: Communication, sid: string)
    requires HasSid(m, sid)
    ensures FirstWithSid(comms + [m], sid).Some?
    ensures FirstWithSid(comms + [m], sid).value <= |comms|
  {
    assert (comms + [m])[|comms|] == m;
  }

  /**
   * `make_follow_up_call` (`initial` false) and `make_initial_call`
   * (`initial` true): True exactly when a call was placed, which logs one row.
   */
  method MakeCall(pc: PhoneCaller, db: Store, contact: Contact, initial: bool, now: Time) returns (ok: bool)
    requires db.Valid()
    modifies db
    ensures db.Valid()
    ensures ok <==> CallRecord(pc, old(db.properties), contact, initial, now).Some?
    ensures ok ==> (db.communications == old(db.communications) +
      [CallRecord(pc, old(db.properties), contact, initial, now).value.(id := NextId(old(db.communications), CommunicationId))])
    ensures !ok ==> db.communications == old(db.communications)
    ensures ok ==> HasSid(CallRecord(pc, old(db.properties), contact, initial, now).value, CallSid(pc, old(db.properties), contact, initial))
    ensures ok ==> FirstWithSid(db.communications, CallSid(pc, old(db.properties), contact, initial)).Some?
    ensures db.properties == old(db.properties) && db.contacts == old(db.contacts) && db.logs == old(db.logs)
  {
    if pc.client.None? {
      return false;
    }
    if contact.phone == "" {
      return false;
    }
    var found := RowWithId(db.properties, PropertyId, contact.propertyId);
    if found.None? {
      return false;
    }
    var p := db.properties[found.value];
    var script := CallScript(p, initial);
    var call := pc.client.value.place(contact.phone, pc.config.twilioPhoneNumber, script);
    if call.None? {
      return false;
    }
    ghost var before := db.communications;
    LogCommunication(db, p, contact, Phone, CallSubject(p, initial), script, "initiated",
                     Some(map["call_sid" := call.value.sid, "twilio_status" := call.value.status]), now);
    LoggedCallIsFound(before, db.communications[|before|], call.value.sid);
    assert db.communications == before + [db.communications[|before|]];
    return true;
  }

  // ---------------------------------------------------------------------------
  // Status webhook

  /**
   * The record the filter on `call_sid` is meant to select: its metadata maps
   * `call_sid` to the sid (the intended reading of the JSON containment test).
   */
  predicate HasSid(m: Communication, sid: string) {
    "call_sid" in m.metadata && m.metadata["call_sid"] == sid
  }

  /** The first record carrying the sid, as `.first()` returns it. */
  function FirstWithSid(comms: seq<Communication>, sid: string): (r: Option<nat>)
    ensures r.Some? ==> r.value < |comms| && HasSid(comms[r.value], sid)
    ensures r.Some? ==> forall k :: 0 <= k < r.value ==> !HasSid(comms[k], sid)
    ensures r.None? <==> forall k :: 0 <= k < |comms| ==> !HasSid(comms[k], sid)
    decreases |comms|
  {
    if comms == [] then None
    else if HasSid(comms[0], sid) then Some(0)
    else
      match FirstWithSid(comms[1..], sid)
      case None => None
      case Some(k) => Some(k + 1)
  }

  /** Whether the webhook's `duration` is truthy. */
  predicate Given(duration: Option<string>) {
    duration.Some? && duration.value != ""
  }

  /**
   * The matched record after the webhook: the new status, and, for a
   * completed call with a duration, the duration in the metadata and the
   * delivery time.
   */
  function StatusUpdated(m: Communication, status: string, duration: Option<string>, now: Time): (r: Communication)
    ensures r.status == status
    ensures status == "completed" && Given(duration) ==>
      r.metadata == m.metadata["duration" := duration.value] && r.deliveredAt == Some(now)
    ensures !(status == "completed" && Given(duration)) ==> r.metadata == m.metadata && r.deliveredAt == m.deliveredAt
    ensures r.(status := m.status, metadata := m.metadata, deliveredAt := m.deliveredAt) == m
  {
    if status == "completed" && Given(duration) then
      m.(status := status, metadata := m.metadata["duration" := duration.value], deliveredAt := Some(now))
    else m.(status := status)
  }

  /** The updated record still carries its sid, so later webhooks for the call find it again. */
  lemma StatusUpdatedKeepsSid(m: Communication, sid: string, status: string, duration: Option<string>, now: Time)
    requires HasSid(m, sid)
    ensures HasSid(StatusUpdated(m, status, duration, now), sid)
  {
  }

  /** A webhook delivered twice leaves the record as a single delivery does. */
  lemma StatusUpdatedIdempotent(m: Communication, status: string, duration: Option<string>, now: Time)
    ensures StatusUpdated(StatusUpdated(m, status, duration, now), status, duration, now) == StatusUpdated(m, status, duration, now)
  {
  }

  /**
   * `handle_call_status_update`: False and nothing changed when no record
   * has the sid; otherwise only the first such record is updated, and True.
   */
  method HandleCallStatusUpdate(db: Store, sid: string, status: string, duration: Option<string>, now: Time) returns (ok: bool)
    requires db.Valid()
    modifies db
    ensures db.Valid()
    ensures ok <==> exists k :: 0 <= k < |old(db.communications)| && HasSid(old(db.communications)[k], sid)
    ensures !ok ==> db.communications == old(db.communications)
    ensures ok ==> var k := FirstWithSid(old(db.communications), sid).value;
      db.communications == old(db.communications)[k := StatusUpdated(old(db.communications)[k], status, duration, now)]
    ensures db.properties == old(db.properties) && db.contacts == old(db.contacts) && db.logs == old(db.logs)
  {
    var found := FirstWithSid(db.communications, sid);
    if found.None? {
      return false;
    }
    var k := found.value;
    var updated := StatusUpdated(db.communications[k], status, duration, now);
    assert updated.id == db.communications[k].id;
    KeysAfterReplace(db.communications, CommunicationId, k, updated);
    db.communications := db.communications[k := updated];
    return true;
  }
}
