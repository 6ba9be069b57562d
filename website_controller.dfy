/** The website enquiry form endpoint (backend/controllers/websiteController.js):
    build a lead from four body fields with the source forced to `website`,
    save it, then notify. */
module WebsiteController {
  import opened Common
  import opened LeadSchema
  import opened LeadStore
  import opened FieldMapping
  import opened NotificationController

  /** The draft of a form submission: only `name`, `email`, `phone` and
      `service` are read from the body. */
  function WebsiteDraft(body: Record): (d: LeadDraft)
    ensures d.source == "website"
  {
    LeadDraft(Get(body, "name"), Get(body, "email"), Get(body, "phone"), Get(body, "service"),
              "", "", "", "", "website", "", "", None, None, [], None, None)
  }

  /** Two bodies that agree on the four form fields give the same draft,
      whatever else they carry (a `source` of their own included). */
  lemma OnlyFormFieldsRead(a: Record, b: Record)
    requires forall k :: k in ["name", "email", "phone", "service"] ==> Get(a, k) == Get(b, k)
    ensures WebsiteDraft(a) == WebsiteDraft(b)
  {
    assert Get(a, "name") == Get(b, "name");
    assert Get(a, "email") == Get(b, "email");
    assert Get(a, "phone") == Get(b, "phone");
    assert Get(a, "service") == Get(b, "service");
  }

  /** A submission with a name and an email is always stored: its source
      is in the enum, and nothing is looked up first. */
  lemma SubmissionWithContactStored(body: Record, id: nat, now: int)
    requires Get(body, "name") != "" && Get(body, "email") != ""
    ensures Validate(WebsiteDraft(body), id, now).Ok?
  {
    assert Sources[0] == "website";
    assert Errors(WebsiteDraft(body)) == [];
  }

  datatype WebsiteReply = Created(lead: Lead) | BadRequest(message: string)

  /** `createWebsiteLead`. The notification is sent only once the save
      succeeded; a failed save answers 400 and notifies nobody. */
  method CreateWebsiteLead(store: Store, outbox: Outbox, body: Record, now: int,
                           adminEmail: string, adminPhone: string,
                           emailDelivered: bool, smsDelivered: bool) returns (reply: WebsiteReply)
    requires store.Valid()
    modifies store, outbox
    ensures store.Valid()
    ensures var r := Validate(WebsiteDraft(body), old(store.nextId), now);
      match r
      case Ok(l) =>
        && reply == Created(l)
        && store.records == old(store.records) + [l] && store.nextId == old(store.nextId) + 1
        && outbox.mails == old(outbox.mails)
             + (if emailDelivered then [Mail(Or(adminEmail, DefaultAdminEmail), NewLeadSubject, NewLeadEmailText(l))] else [])
        && outbox.texts == old(outbox.texts)
             + (if outbox.smsConfigured && smsDelivered then [Sms(Or(adminPhone, DefaultAdminPhone), NewLeadSmsText(l))] else [])
      case Err(e) =>
        && reply == BadRequest(ErrorMessage(e))
        && store.records == old(store.records) && store.nextId == old(store.nextId)
        && outbox.mails == old(outbox.mails) && outbox.texts == old(outbox.texts)
  {
    var lead := WebsiteDraft(body);
    var saved := store.Create(lead, now);
    if saved.Err? {
      return BadRequest(ErrorMessage(saved.error));
    }
    NotifyNewLead(outbox, saved.value, adminEmail, adminPhone, emailDelivered, smsDelivered);
    reply := Created(saved.value);
  }
}
