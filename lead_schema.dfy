/** The lead document schema (backend/models/Lead.js) as a validation
    function: what a record must hold before the document store accepts it,
    and the defaults the store fills in. */
module LeadSchema {
  import opened Common

  /** The `source` enum. The import paths default to other values. */
  const Sources: seq<string> := ["website", "meta", "google"]

  /** The `status` enum; `new` is its default. */
  const Statuses: seq<string> := ["new", "contacted", "qualified", "converted", "lost"]

  const DefaultStatus: string := "new"

  /** A candidate record as a controller hands it to the store. Absent
      optional text fields are the empty string; `status` is absent when the
      caller gives none, so that the schema default applies. */
  datatype LeadDraft = LeadDraft(
    name: string,
    email: string,
    phone: string,
    service: string,
    vehicle: string,
    city: string,
    rentalDays: string,
    rentalMonths: string,
    source: string,
    campaign: string,
    keyword: string,
    status: Option<string>,
    assignedTo: Option<string>,
    notes: seq<string>,
    createdAt: Option<int>,
    updatedAt: Option<int>)

  /** A stored lead document. */
  datatype Lead = Lead(
    id: nat,
    name: string,
    email: string,
    phone: string,
    service: string,
    vehicle: string,
    city: string,
    rentalDays: string,
    rentalMonths: string,
    source: string,
    campaign: string,
    keyword: string,
    status: string,
    assignedTo: Option<string>,
    notes: seq<string>,
    createdAt: int,
    updatedAt: int)

  datatype SchemaError =
    | Required(path: string)
    | NotInEnum(path: string, value: string)
    | CastFailed(path: string, value: string)

  /** A text the driver casts to a document id. Document ids are numbers
      here, so the cast succeeds exactly on a non-empty decimal numeral. */
  predicate IsIdText(s: string) {
    s != "" && AllDigits(s)
  }

  /** The cast of an optional reference path (`assignedTo`, `userId`):
      absent is fine, any text that is no id fails. */
  function CastErrors(path: string, v: Option<string>): (errs: seq<SchemaError>)
    ensures errs == [] <==> v.None? || IsIdText(v.value)
    ensures errs != [] ==> errs == [CastFailed(path, v.value)]
  {
    match v
    case Some(t) => if IsIdText(t) then [] else [CastFailed(path, t)]
    case None => []
  }

  /** What Lead.js demands of every stored document. */
  predicate ValidLead(l: Lead) {
    && l.name != ""
    && l.email != ""
    && l.source in Sources
    && l.status in Statuses
    && (l.assignedTo.None? || IsIdText(l.assignedTo.value))
  }

  /** The validation errors of a draft: the `assignedTo` cast, recorded
      when the document is built, then the validators in schema path order.
      A required string fails when it is empty; an enum fails on any value
      outside it. */
  function Errors(d: LeadDraft): (errs: seq<SchemaError>)
    ensures errs == [] <==>
      && d.name != ""
      && d.email != ""
      && d.source in Sources
      && (d.status.None? || d.status.value in Statuses)
      && (d.assignedTo.None? || IsIdText(d.assignedTo.value))
  {
    CastErrors("assignedTo", d.assignedTo)
    + (if d.name == "" then [Required("name")] else [])
    + (if d.email == "" then [Required("email")] else [])
    + (if d.source == "" then [Required("source")]
       else if d.source !in Sources then [NotInEnum("source", d.source)] else [])
    + (match d.status
       case Some(s) => if s !in Statuses then [NotInEnum("status", s)] else []
       case None => [])
  }

  /** Validating and defaulting a draft: a document exactly when the draft
      has no errors, and then a valid one keyed like the draft. */
  function Validate(d: LeadDraft, id: nat, now: int): (r: Result<Lead, seq<SchemaError>>)
    ensures r.Ok? <==> Errors(d) == []
    ensures r.Err? ==> r.error == Errors(d) && r.error != []
    ensures r.Ok? ==> ValidLead(r.value)
    ensures r.Ok? ==> r.value.id == id && r.value.email == d.email && r.value.source == d.source
  {
    var errs := Errors(d);
    if errs != [] then Err(errs)
    else Ok(Lead(id, d.name, d.email, d.phone, d.service, d.vehicle, d.city,
                 d.rentalDays, d.rentalMonths, d.source, d.campaign, d.keyword,
                 match d.status case Some(s) => s case None => DefaultStatus,
                 d.assignedTo, d.notes, Override(now, d.createdAt), Override(now, d.updatedAt)))
  }

  /** A stored document carries the draft's fields, the default status when
      none was given, the given id, and each timestamp the draft gives,
      the creation time for each it does not. */
  lemma ValidateCopies(d: LeadDraft, id: nat, now: int)
    requires Errors(d) == []
    ensures var l := Validate(d, id, now).value;
      && l.id == id
      && l.name == d.name && l.email == d.email && l.phone == d.phone
      && l.service == d.service && l.vehicle == d.vehicle && l.city == d.city
      && l.rentalDays == d.rentalDays && l.rentalMonths == d.rentalMonths
      && l.source == d.source && l.campaign == d.campaign
      && l.keyword == d.keyword && l.assignedTo == d.assignedTo
      && l.notes == d.notes
      && l.status == (if d.status.Some? then d.status.value else DefaultStatus)
      && l.createdAt == (if d.createdAt.Some? then d.createdAt.value else now)
      && l.updatedAt == (if d.updatedAt.Some? then d.updatedAt.value else now)
  {
  }

  /** The import paths' fallback source values are not in the enum, so a
      draft carrying either can never be stored. */
  lemma ImportSourcesRejected(d: LeadDraft, id: nat, now: int)
    requires d.source == "import" || d.source == "url_import"
    ensures Validate(d, id, now) == Err(Errors(d))
    ensures NotInEnum("source", d.source) in Errors(d)
  {
  }

  function ErrorText(e: SchemaError): string {
    match e
    case Required(p) => p + ": Path `" + p + "` is required."
    case NotInEnum(p, v) => p + ": `" + v + "` is not a valid enum value for path `" + p + "`."
    case CastFailed(p, v) => p + ": " + CastText(p, v)
  }

  /** The driver's message when a text at `path` is not an id. */
  function CastText(path: string, value: string): string {
    "Cast to ObjectId failed for value \"" + value + "\" (type string) at path \"" + path + "\""
  }

  /** The message of a failed document validation, one part per error. */
  function ErrorMessage(errs: seq<SchemaError>): string {
    "Lead validation failed: " + Join(seq(|errs|, i requires 0 <= i < |errs| => ErrorText(errs[i])), ", ")
  }

  // ---------------------------------------------------------------------
  // Updates (`findByIdAndUpdate` with `runValidators`)

  /** An update document: the fields it sets, each absent when untouched. */
  datatype LeadPatch = LeadPatch(
    name: Option<string>,
    email: Option<string>,
    phone: Option<string>,
    service: Option<string>,
    vehicle: Option<string>,
    city: Option<string>,
    rentalDays: Option<string>,
    rentalMonths: Option<string>,
    source: Option<string>,
    campaign: Option<string>,
    keyword: Option<string>,
    status: Option<string>,
    assignedTo: Option<string>,
    notes: Option<seq<string>>,
    createdAt: Option<int>,
    updatedAt: Option<int>)

  const EmptyPatch := LeadPatch(None, None, None, None, None, None, None, None,
                                None, None, None, None, None, None, None, None)

  /** The update is cast before anything else: an `assignedTo` that is no
      id is the only error then, since the validators never run. Otherwise
      update validators run only on the paths the update sets. */
  function PatchErrors(p: LeadPatch): (errs: seq<SchemaError>)
    ensures errs == [] <==>
      && p.name != Some("")
      && p.email != Some("")
      && (p.source.Some? ==> p.source.value in Sources)
      && (p.status.Some? ==> p.status.value in Statuses)
      && (p.assignedTo.None? || IsIdText(p.assignedTo.value))
    ensures p.assignedTo.Some? && !IsIdText(p.assignedTo.value) ==>
      errs == [CastFailed("assignedTo", p.assignedTo.value)]
  {
    if CastErrors("assignedTo", p.assignedTo) != [] then CastErrors("assignedTo", p.assignedTo)
    else
    (if p.name == Some("") then [Required("name")] else [])
    + (if p.email == Some("") then [Required("email")] else [])
    + (match p.source
       case Some(s) =>
         if s == "" then [Required("source")] else if s !in Sources then [NotInEnum("source", s)] else []
       case None => [])
    + (match p.status
       case Some(s) => if s !in Statuses then [NotInEnum("status", s)] else []
       case None => [])
  }

  function Override<T>(v: T, o: Option<T>): T {
    match o case Some(x) => x case None => v
  }

  /** The document after the update: every set path replaced (the
      timestamps included, which are ordinary paths), the rest and the id
      kept. */
  function ApplyPatch(l: Lead, p: LeadPatch): (r: Lead)
    ensures r.id == l.id
    ensures r.createdAt == (if p.createdAt.Some? then p.createdAt.value else l.createdAt)
    ensures PatchErrors(p) == [] && ValidLead(l) ==> ValidLead(r)
    ensures p == EmptyPatch ==> r == l
  {
    Lead(l.id,
         Override(l.name, p.name), Override(l.email, p.email), Override(l.phone, p.phone),
         Override(l.service, p.service), Override(l.vehicle, p.vehicle), Override(l.city, p.city),
         Override(l.rentalDays, p.rentalDays), Override(l.rentalMonths, p.rentalMonths),
         Override(l.source, p.source), Override(l.campaign, p.campaign),
         Override(l.keyword, p.keyword), Override(l.status, p.status),
         if p.assignedTo.Some? then p.assignedTo else l.assignedTo,
         Override(l.notes, p.notes), Override(l.createdAt, p.createdAt), Override(l.updatedAt, p.updatedAt))
  }
}
