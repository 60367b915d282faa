/**
 * The guards of the e-mail sender (communication/email_sender.py) that the
 * scheduled passes depend on. Connecting to the SMTP server and sending
 * the rendered message is a parameter, `deliver`, whose result stands for
 * "the server accepted the message"; a raised exception reads as False.
 */
module EmailSender {
  import opened Wrappers
  import opened Models
  import opened Database

  datatype MailKind = InitialMail | FollowUpMail | UrgentMail

  datatype Mailer = Mailer(deliver: (MailKind, Property, Contact) -> bool)

  /** The first contact row of a property, as `query(Contact).filter(property_id == id).first()` returns it. */
  function FirstContactOf(contacts: seq<Contact>, propertyId: nat): (r: Option<nat>)
    ensures r.Some? ==> r.value < |contacts| && contacts[r.value].propertyId == propertyId
    ensures r.Some? ==> forall k :: 0 <= k < r.value ==> contacts[k].propertyId != propertyId
    ensures r.None? <==> forall k :: 0 <= k < |contacts| ==> contacts[k].propertyId != propertyId
    decreases |contacts|
  {
    if contacts == [] then None
    else if contacts[0].propertyId == propertyId then Some(0)
    else
      match FirstContactOf(contacts[1..], propertyId)
      case None => None
      case Some(k) => Some(k + 1)
  }

  /** `send_initial_contact_email`: False without a contact for the property or without its e-mail. */
  function InitialEmailSent(m: Mailer, p: Property, contacts: seq<Contact>): (sent: bool)
    ensures sent ==> FirstContactOf(contacts, p.id).Some? && contacts[FirstContactOf(contacts, p.id).value].email != ""
  {
    match FirstContactOf(contacts, p.id)
    case None => false
    case Some(k) => contacts[k].email != "" && m.deliver(InitialMail, p, contacts[k])
  }

  /**
   * `send_follow_up_email` (`kind` FollowUpMail) and
   * `send_urgent_follow_up_email` (`kind` UrgentMail): False without an e-mail
   * or when the contact's property is not found.
   */
  function ReminderSent(m: Mailer, kind: MailKind, c: Contact, properties: seq<Property>): (sent: bool)
    ensures sent ==> c.email != "" && RowWithId(properties, PropertyId, c.propertyId).Some?
  {
    if c.email == "" then false
    else
      match RowWithId(properties, PropertyId, c.propertyId)
      case None => false
      case Some(k) => m.deliver(kind, properties[k], c)
  }
}
