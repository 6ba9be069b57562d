/** The lead REST handlers (backend/controllers/leadController.js): the
    relational list endpoint with its row transform and pagination, the
    document-store handlers for one lead (read, create with the duplicate
    rule, update, delete, assign), and the filtered list. */
module LeadController {
  import opened Common
  import opened Collections
  import opened LeadSchema
  import opened LeadStore
  import opened Query
  import opened MySqlLeads

  // ---------------------------------------------------------------------
  // getLeads: relational rows in the shape the dashboard expects

  /** A lead as the list endpoint returns it. */
  datatype LeadView = LeadView(
    id: string, name: string, email: string, phone: string, service: string,
    vehicle: string, city: string, rentalDays: string, rentalMonths: string,
    source: string, campaign: string, keyword: string, status: string,
    notes: seq<string>, createdAt: int, updatedAt: int)

  /** `lead.notes ? [lead.notes] : []`: NULL and the empty string are falsy. */
  function NotesOf(stored: Option<string>): seq<string> {
    match stored
    case Some(s) => if s != "" then [s] else []
    case None => []
  }

  /** The row transform: the id as text, the snake-case columns under their
      camel-case names, and the notes column as a list. */
  function Transform(r: Row): LeadView {
    LeadView(NatToString(r.id), r.name, r.email, r.phone, r.service, r.vehicle, r.city,
             r.rentalDays, r.rentalMonths, r.source, r.campaign, r.keyword, r.status,
             NotesOf(r.notes), r.createdAt, r.updatedAt)
  }

  /** `req.params.id` cast to a document id: only a decimal numeral names
      one. */
  function IdOf(s: string): Option<nat> {
    if IsIdText(s) then Some(ParseNat(s)) else None
  }

  /** The id text the list hands out names the same record again. */
  lemma TransformId(r: Row)
    ensures AllDigits(Transform(r).id)
    ensures IdOf(Transform(r).id) == Some(r.id)
  {
    NatToStringRoundTrip(r.id);
  }

  lemma JoinShort(parts: seq<string>, sep: string)
    ensures |parts| == 0 ==> Join(parts, sep) == ""
    ensures |parts| == 1 ==> Join(parts, sep) == parts[0]
    ensures |parts| >= 2 ==> |Join(parts, sep)| >= |sep|
  {
  }

  /** Notes written by `create` and read back by the list: no notes and an
      empty list come back as the empty list, a single non-empty note comes
      back as itself, and nothing else survives: two or more notes come back
      as one note holding them joined with ", ". */
  lemma NotesRoundTrip(id: nat, d: NewLead, now: int)
    ensures var back := Transform(Inserted(id, d, now)).notes;
      && (d.notes.None? ==> back == [])
      && (d.notes.Some? ==>
            (back == d.notes.value <==> d.notes.value == [] || (|d.notes.value| == 1 && d.notes.value[0] != "")))
      && (d.notes.Some? && |d.notes.value| >= 2 ==> back == [Join(d.notes.value, ", ")])
  {
    if d.notes.Some? {
      JoinShort(d.notes.value, ", ");
    }
  }

  /** The options `getLeads` hands to `findAll`: the truthy source and
      status, the page size, and `(page - 1) * limit` as the offset. */
  function ListOptions(page: int, limit: int, source: string, status: string): QueryOptions {
    QueryOptions(source, status, "", limit, Skip(page, limit))
  }

  datatype LeadsPage = LeadsPage(leads: seq<LeadView>, pagination: Pagination)

  /** `getLeads`: the two statements it sends and its reply, given the rows
      and the count the database answers with. */
  method GetLeads(page: int, limit: int, source: string, status: string, rows: seq<Row>, total: nat)
    returns (findAll: Statement, count: Statement, reply: LeadsPage)
    ensures var o := ListOptions(page, limit, source, status);
      && findAll == Statement(FindAllSql(o), FindAllParams(o))
      && count == Statement(CountSql(o), ParamsOf(FilterClauses(o, false)))
    ensures |reply.leads| == |rows|
    ensures forall i :: 0 <= i < |rows| ==> reply.leads[i] == Transform(rows[i])
    ensures reply.pagination == Paginate(page, limit, total)
  {
    findAll := FindAllQuery(ListOptions(page, limit, source, status));
    count := CountQuery(QueryOptions(source, status, "", 0, 0));
    var leads := seq(|rows|, i requires 0 <= i < |rows| => Transform(rows[i]));
    reply := LeadsPage(leads, Paginate(page, limit, total));
  }

  /** The first page sends no OFFSET clause, a LIMIT clause is sent exactly
      for a non-zero page size, and the count filters exactly as the page
      does, so the total and the page describe the same selection. */
  lemma ListStatements(page: int, limit: int, source: string, status: string)
    ensures var o := ListOptions(page, limit, source, status);
      && (page == 1 ==> forall i :: 0 <= i < |PagingClauses(o)| ==> PagingClauses(o)[i].text != " OFFSET ")
      && ((exists i :: 0 <= i < |PagingClauses(o)| && PagingClauses(o)[i].text == " LIMIT ") <==> limit != 0)
      && FilterClauses(o, false) == FilterClauses(o, true)
  {
    ClausesFollowOptions(ListOptions(page, limit, source, status));
  }

  // ---------------------------------------------------------------------
  // Replies of the document-store handlers

  /** The identifying part of a conflicting record. */
  datatype Summary = Summary(id: nat, name: string, email: string, phone: string)

  /** A reply: its status, the `error` label of a failure, its `message`,
      the lead it carries and, for a conflict, the record it clashed with. */
  datatype Reply = Reply(status: nat, error: string, message: string, lead: Option<Lead>, existing: Option<Summary>)

  function Failure(status: nat, error: string, message: string): Reply {
    Reply(status, error, message, None, None)
  }

  function Success(status: nat, message: string, lead: Lead): Reply {
    Reply(status, "", message, Some(lead), None)
  }

  function NotFound(idText: string): Reply {
    Failure(404, "Lead not found", "No lead found with ID: " + idText)
  }

  /** The driver's message when an id text is not an id. */
  function CastMessage(idText: string): string {
    CastText("_id", idText) + " for model \"Lead\""
  }

  /** The message of a failed update: the cast error's own text, or one
      part per validation error. */
  function UpdateErrorMessage(errs: seq<SchemaError>): string {
    if errs != [] && errs[0].CastFailed? then CastText(errs[0].path, errs[0].value)
    else "Validation failed: " + Join(seq(|errs|, i requires 0 <= i < |errs| => ErrorText(errs[i])), ", ")
  }

  /** What a handler answers and the records it leaves behind. */
  datatype Outcome = Outcome(reply: Reply, records: seq<Lead>)

  // ---------------------------------------------------------------------
  // getLead

  function GetLeadReply(rs: seq<Lead>, idText: string): Reply {
    match IdOf(idText)
    case None => Failure(500, "Failed to fetch lead", CastMessage(idText))
    case Some(id) =>
      match FindId(rs, id)
      case None => NotFound(idText)
      case Some(l) => Reply(200, "", "", Some(l), None)
  }

  /** A lead is returned exactly when a stored record has the id, and it is
      that record; a numeral naming nothing is a 404 naming the id text. */
  lemma GetLeadSpec(rs: seq<Lead>, idText: string)
    ensures var r := GetLeadReply(rs, idText);
      && (r.status == 200 <==> IdOf(idText).Some? && exists i :: 0 <= i < |rs| && rs[i].id == IdOf(idText).value)
      && (r.status == 200 ==> r.lead.Some? && r.lead.value in rs && r.lead.value.id == IdOf(idText).value)
      && (r.status == 404 ==> r.message == "No lead found with ID: " + idText)
      && r.status in {200, 404, 500}
  {
  }

  // ---------------------------------------------------------------------
  // createLead

  /** The `$or` of the duplicate check: the same email, or the same phone
      when the request gives one. */
  predicate Conflicts(l: Lead, email: string, phone: string) {
    l.email == email || (phone != "" && l.phone == phone)
  }

  /** `findOne({ $or: [...] })`: the first stored record that conflicts. */
  function FindConflict(rs: seq<Lead>, email: string, phone: string): (r: Option<Lead>)
    ensures r.Some? ==> exists i :: 0 <= i < |rs| && rs[i] == r.value && Conflicts(rs[i], email, phone)
                                    && forall j :: 0 <= j < i ==> !Conflicts(rs[j], email, phone)
    ensures r.None? ==> forall i :: 0 <= i < |rs| ==> !Conflicts(rs[i], email, phone)
  {
    if rs == [] then None
    else if Conflicts(rs[0], email, phone) then Some(rs[0])
    else
      var r := FindConflict(rs[1..], email, phone);
      assert forall i :: 1 <= i < |rs| ==> rs[i] == rs[1..][i - 1];
      if r.Some? then
        var i :| 0 <= i < |rs[1..]| && rs[1..][i] == r.value && Conflicts(rs[1..][i], email, phone)
                 && forall j :: 0 <= j < i ==> !Conflicts(rs[1..][j], email, phone);
        assert rs[i + 1] == r.value && forall j :: 0 <= j < i + 1 ==> !Conflicts(rs[j], email, phone);
        r
      else r
  }

  const RequiredMessage := "Name, email, and source are required fields"

  /** The conflict message names the email when the emails match and the
      phone number otherwise. */
  function DuplicateMessage(byEmail: bool): string {
    "Lead with this " + (if byEmail then "email" else "phone number") + " already exists"
  }

  function CreateOutcome(rs: seq<Lead>, nextId: nat, body: LeadDraft, now: int): Outcome {
    if body.name == "" || body.email == "" || body.source == "" then
      Outcome(Failure(400, "Validation error", RequiredMessage), rs)
    else
      match FindConflict(rs, body.email, body.phone)
      case Some(c) =>
        Outcome(Reply(409, "Duplicate entry", DuplicateMessage(c.email == body.email), None,
                      Some(Summary(c.id, c.name, c.email, c.phone))), rs)
      case None =>
        match Validate(body, nextId, now)
        case Err(e) => Outcome(Failure(400, "Failed to create lead", ErrorMessage(e)), rs)
        case Ok(l) => Outcome(Success(201, "Lead created successfully", l), rs + [l])
  }

  /** `createLead`: check the three required fields, look for a conflicting
      record, then validate and store. */
  method CreateLead(store: Store, body: LeadDraft, now: int) returns (reply: Reply)
    requires store.Valid()
    modifies store
    ensures store.Valid()
    ensures var o := CreateOutcome(old(store.records), old(store.nextId), body, now);
      reply == o.reply && store.records == o.records
    ensures store.nextId == if reply.status == 201 then old(store.nextId) + 1 else old(store.nextId)
  {
    if body.name == "" || body.email == "" || body.source == "" {
      return Failure(400, "Validation error", RequiredMessage);
    }
    var existing := FindConflict(store.records, body.email, body.phone);
    if existing.Some? {
      var c := existing.value;
      return Reply(409, "Duplicate entry", DuplicateMessage(c.email == body.email), None,
                   Some(Summary(c.id, c.name, c.email, c.phone)));
    }
    var saved := store.Create(body, now);
    match saved
    case Err(e) =>
      reply := Failure(400, "Failed to create lead", ErrorMessage(e));
    case Ok(l) =>
      reply := Success(201, "Lead created successfully", l);
  }

  /** The creation rules: a 400 validation error exactly when name, email
      or source is missing; a 409 exactly when a stored record has the email
      or the given phone, reporting such a record and naming the email when
      it matches; a 201 exactly when neither applies and the schema accepts
      the body, storing the one new lead; an `assignedTo` that is no id is
      a 400 save failure. Only a 201 changes the records. */
  lemma CreateLeadRules(rs: seq<Lead>, nextId: nat, body: LeadDraft, now: int)
    ensures var o := CreateOutcome(rs, nextId, body, now);
      var present := body.name != "" && body.email != "" && body.source != "";
      var clash := exists i :: 0 <= i < |rs| && Conflicts(rs[i], body.email, body.phone);
      && (o.reply.error == "Validation error" <==> !present)
      && (o.reply.status == 409 <==> present && clash)
      && (o.reply.status == 409 ==>
            exists i :: (0 <= i < |rs| && Conflicts(rs[i], body.email, body.phone)
                         && o.reply.existing == Some(Summary(rs[i].id, rs[i].name, rs[i].email, rs[i].phone))
                         && o.reply.message == DuplicateMessage(rs[i].email == body.email)))
      && (o.reply.status == 201 <==> present && !clash && Errors(body) == [])
      && (present && !clash && body.assignedTo.Some? && !IsIdText(body.assignedTo.value) ==>
            o.reply.status == 400 && o.reply.error == "Failed to create lead")
      && (o.reply.status == 201 ==>
            && o.reply.lead.Some? && o.records == rs + [o.reply.lead.value]
            && o.reply.lead.value.email == body.email
            && forall i :: 0 <= i < |rs| ==> rs[i].email != body.email && (body.phone != "" ==> rs[i].phone != body.phone))
      && (o.reply.status != 201 ==> o.records == rs)
  {
  }

  /** A lead just created is what `getLead` returns for its id. */
  lemma GetAfterCreate(rs: seq<Lead>, nextId: nat, body: LeadDraft, now: int)
    requires forall i :: 0 <= i < |rs| ==> rs[i].id < nextId
    requires CreateOutcome(rs, nextId, body, now).reply.status == 201
    ensures var o := CreateOutcome(rs, nextId, body, now);
      GetLeadReply(o.records, NatToString(nextId)) == Reply(200, "", "", o.reply.lead, None)
  {
    var o := CreateOutcome(rs, nextId, body, now);
    var l := o.reply.lead.value;
    NatToStringRoundTrip(nextId);
    FindIdAppend(rs, l);
  }

  lemma {:induction false} FindIdAppend(rs: seq<Lead>, l: Lead)
    requires forall i :: 0 <= i < |rs| ==> rs[i].id != l.id
    ensures FindId(rs + [l], l.id) == Some(l)
  {
    if rs != [] {
      assert (rs + [l])[1..] == rs[1..] + [l];
      FindIdAppend(rs[1..], l);
    }
  }

  // ---------------------------------------------------------------------
  // updateLead

  /** The update document: the body's fields with `updatedAt` set to now. */
  function Stamped(body: LeadPatch, now: int): LeadPatch {
    body.(updatedAt := Some(now))
  }

  function UpdateOutcome(rs: seq<Lead>, idText: string, body: LeadPatch, now: int): Outcome {
    var p := Stamped(body, now);
    match IdOf(idText)
    case None => Outcome(Failure(400, "Failed to update lead", CastMessage(idText)), rs)
    case Some(id) =>
      if PatchErrors(p) != [] then Outcome(Failure(400, "Failed to update lead", UpdateErrorMessage(PatchErrors(p))), rs)
      else
        match FindId(rs, id)
        case None => Outcome(NotFound(idText), rs)
        case Some(l) =>
          var u := ApplyPatch(l, p);
          Outcome(Success(200, "Lead updated successfully", u), ReplaceId(rs, id, u))
  }

  /** `updateLead`. */
  method UpdateLead(store: Store, idText: string, body: LeadPatch, now: int) returns (reply: Reply)
    requires store.Valid()
    modifies store
    ensures store.Valid() && store.nextId == old(store.nextId)
    ensures var o := UpdateOutcome(old(store.records), idText, body, now);
      reply == o.reply && store.records == o.records
  {
    var id := IdOf(idText);
    if id.None? {
      return Failure(400, "Failed to update lead", CastMessage(idText));
    }
    var r := store.FindByIdAndUpdate(id.value, Stamped(body, now));
    match r
    case Err(e) => reply := Failure(400, "Failed to update lead", UpdateErrorMessage(e));
    case Ok(None) => reply := NotFound(idText);
    case Ok(Some(l)) => reply := Success(200, "Lead updated successfully", l);
  }

  /** An update answers 404 exactly for a valid update of an id nobody has,
      and 400 with the cast message for an `assignedTo` that is no id; a
      successful one rewrites only the records with that id, keeps the id,
      keeps the creation time unless the body sets one, stamps `updatedAt`
      with now whatever the body says, takes every field the body sets, and
      leaves a valid record valid. */
  lemma UpdateLeadRules(rs: seq<Lead>, idText: string, body: LeadPatch, now: int)
    ensures var o := UpdateOutcome(rs, idText, body, now);
      && (o.reply.status == 404 <==>
            && IdOf(idText).Some? && PatchErrors(Stamped(body, now)) == []
            && forall i :: 0 <= i < |rs| ==> rs[i].id != IdOf(idText).value)
      && (IdOf(idText).Some? && body.assignedTo.Some? && !IsIdText(body.assignedTo.value) ==>
            o.reply == Failure(400, "Failed to update lead", CastText("assignedTo", body.assignedTo.value)))
      && (o.reply.status == 200 ==>
            var id := IdOf(idText).value;
            var old_ := FindId(rs, id).value;
            var u := o.reply.lead.value;
            && old_ in rs && old_.id == id
            && u.id == id && u.updatedAt == now
            && u.createdAt == (if body.createdAt.Some? then body.createdAt.value else old_.createdAt)
            && (body.name.Some? ==> u.name == body.name.value)
            && (body.email.Some? ==> u.email == body.email.value)
            && (body.source.Some? ==> u.source == body.source.value)
            && (body.status.Some? ==> u.status == body.status.value)
            && (body.assignedTo.Some? ==> u.assignedTo == body.assignedTo)
            && (ValidLead(old_) ==> ValidLead(u))
            && |o.records| == |rs|
            && forall i :: 0 <= i < |rs| ==> o.records[i] == if rs[i].id == id then u else rs[i])
      && (o.reply.status != 200 ==> o.records == rs)
  {
  }

  // ---------------------------------------------------------------------
  // deleteLead

  function DeleteOutcome(rs: seq<Lead>, idText: string): Outcome {
    match IdOf(idText)
    case None => Outcome(Failure(500, "Failed to delete lead", CastMessage(idText)), rs)
    case Some(id) =>
      match FindId(rs, id)
      case None => Outcome(NotFound(idText), rs)
      case Some(l) => Outcome(Success(200, "Lead deleted successfully", l), RemoveId(rs, id))
  }

  /** `deleteLead`. */
  method DeleteLead(store: Store, idText: string) returns (reply: Reply)
    requires store.Valid()
    modifies store
    ensures store.Valid() && store.nextId == old(store.nextId)
    ensures var o := DeleteOutcome(old(store.records), idText);
      reply == o.reply && store.records == o.records
  {
    var id := IdOf(idText);
    if id.None? {
      return Failure(500, "Failed to delete lead", CastMessage(idText));
    }
    var removed := store.FindByIdAndDelete(id.value);
    if removed.None? {
      RemoveAbsent(old(store.records), id.value);
      return NotFound(idText);
    }
    reply := Success(200, "Lead deleted successfully", removed.value);
  }

  /** A delete answers 200 exactly when a record has the id; afterwards no
      record has it, every other record is kept, and a second delete of the
      same id answers 404. */
  lemma DeleteLeadRules(rs: seq<Lead>, idText: string)
    ensures var o := DeleteOutcome(rs, idText);
      && (o.reply.status == 200 <==> IdOf(idText).Some? && exists i :: 0 <= i < |rs| && rs[i].id == IdOf(idText).value)
      && (o.reply.status == 200 ==>
            && o.reply.lead.value in rs && o.reply.lead.value.id == IdOf(idText).value
            && (forall l :: l in o.records <==> l in rs && l.id != IdOf(idText).value)
            && DeleteOutcome(o.records, idText).reply == NotFound(idText))
      && (o.reply.status != 200 ==> o.records == rs)
  {
  }

  // ---------------------------------------------------------------------
  // assignLead

  /** The update an assignment sends. */
  function AssignPatch(userId: string, now: int): LeadPatch {
    EmptyPatch.(assignedTo := Some(userId), updatedAt := Some(now))
  }

  const AssignRequiredMessage := "Lead ID and User ID are required"

  function AssignOutcome(rs: seq<Lead>, leadId: string, userId: string, now: int): Outcome {
    if leadId == "" || userId == "" then Outcome(Failure(400, "Validation error", AssignRequiredMessage), rs)
    else
      match IdOf(leadId)
      case None => Outcome(Failure(500, "Failed to assign lead", CastMessage(leadId)), rs)
      case Some(id) =>
        var p := AssignPatch(userId, now);
        if PatchErrors(p) != [] then Outcome(Failure(500, "Failed to assign lead", UpdateErrorMessage(PatchErrors(p))), rs)
        else
          match FindId(rs, id)
          case None => Outcome(NotFound(leadId), rs)
          case Some(l) =>
            var u := ApplyPatch(l, p);
            Outcome(Success(200, "Lead assigned successfully", u), ReplaceId(rs, id, u))
  }

  /** `assignLead`. */
  method AssignLead(store: Store, leadId: string, userId: string, now: int) returns (reply: Reply)
    requires store.Valid()
    modifies store
    ensures store.Valid() && store.nextId == old(store.nextId)
    ensures var o := AssignOutcome(old(store.records), leadId, userId, now);
      reply == o.reply && store.records == o.records
  {
    if leadId == "" || userId == "" {
      return Failure(400, "Validation error", AssignRequiredMessage);
    }
    var id := IdOf(leadId);
    if id.None? {
      return Failure(500, "Failed to assign lead", CastMessage(leadId));
    }
    var r := store.FindByIdAndUpdate(id.value, AssignPatch(userId, now));
    match r
    case Err(e) => reply := Failure(500, "Failed to assign lead", UpdateErrorMessage(e));
    case Ok(None) => reply := NotFound(leadId);
    case Ok(Some(l)) => reply := Success(200, "Lead assigned successfully", l);
  }

  /** An assignment answers 400 exactly when an id is missing, and 500
      exactly when either id fails its cast; with two ids it answers 200
      exactly when the lead exists, and the lead then carries the user and
      the new stamp and keeps everything else. */
  lemma AssignLeadRules(rs: seq<Lead>, leadId: string, userId: string, now: int)
    ensures var o := AssignOutcome(rs, leadId, userId, now);
      && (o.reply.status == 400 <==> leadId == "" || userId == "")
      && (o.reply.status == 500 <==> leadId != "" && userId != "" && (IdOf(leadId).None? || !IsIdText(userId)))
      && (o.reply.status == 500 ==> o.reply.error == "Failed to assign lead" && o.records == rs)
      && (o.reply.status == 200 <==>
            && leadId != "" && userId != "" && IdOf(leadId).Some? && IsIdText(userId)
            && exists i :: 0 <= i < |rs| && rs[i].id == IdOf(leadId).value)
      && (o.reply.status == 200 ==>
            var l := FindId(rs, IdOf(leadId).value).value;
            o.reply.lead == Some(l.(assignedTo := Some(userId), updatedAt := now)))
  {
    AssignPatchValid(userId, now);
    var id := IdOf(leadId);
    if leadId != "" && userId != "" && id.Some? && FindId(rs, id.value).Some? {
      AssignApplied(FindId(rs, id.value).value, userId, now);
    }
  }

  /** A user id that is no id fails the assignment even for a stored lead:
      500, and the lead is left as it was. */
  lemma AssignNonIdUserFails(l: Lead, now: int)
    requires l.id == 1
    ensures var o := AssignOutcome([l], "1", "bob", now);
      o.reply.status == 500 && o.reply.message == CastText("assignedTo", "bob") && o.records == [l]
  {
    assert !IsIdText("bob") by { assert !IsDigit("bob"[0]); }
    AssignPatchValid("bob", now);
  }

  /** The assignment update fails exactly on the cast of the user id. */
  lemma AssignPatchValid(userId: string, now: int)
    ensures PatchErrors(AssignPatch(userId, now)) == [] <==> IsIdText(userId)
    ensures !IsIdText(userId) ==> PatchErrors(AssignPatch(userId, now)) == [CastFailed("assignedTo", userId)]
  {
  }

  lemma AssignApplied(l: Lead, userId: string, now: int)
    ensures ApplyPatch(l, AssignPatch(userId, now)) == l.(assignedTo := Some(userId), updatedAt := now)
  {
  }

  // ---------------------------------------------------------------------
  // filterLeads

  const SearchPaths: seq<string> := ["name", "email", "phone", "service"]

  /** A lead's queryable paths. */
  function LeadPath(l: Lead, path: string): Option<string> {
    if path == "source" then Some(l.source)
    else if path == "status" then Some(l.status)
    else if path == "assignedTo" then l.assignedTo
    else if path == "name" then Some(l.name)
    else if path == "email" then Some(l.email)
    else if path == "phone" then Some(l.phone)
    else if path == "service" then Some(l.service)
    else None
  }

  function LeadFields(l: Lead): Fields {
    (path: string) => LeadPath(l, path)
  }

  function CreatedAt(l: Lead): int {
    l.createdAt
  }

  /** The query `filterLeads` reads; an absent parameter is the empty
      string. */
  datatype LeadQuery = LeadQuery(source: string, status: string, assignedTo: string,
                                 dateFrom: string, dateTo: string, search: string)

  /** The pattern matches the text at this path. */
  predicate Hit(fields: Fields, path: string, pattern: string, regex: Regex) {
    fields(path).Some? && regex(pattern, fields(path).value)
  }

  /** What a filtered list asks of a lead, condition by supplied
      parameter. */
  predicate Wanted(q: LeadQuery, fields: Fields, time: int, regex: Regex, parseDate: string -> int) {
    && (q.source != "" ==> fields("source") == Some(q.source))
    && (q.status != "" ==> fields("status") == Some(q.status))
    && (q.assignedTo != "" ==> fields("assignedTo") == Some(q.assignedTo))
    && InDateRange(time, q.dateFrom, q.dateTo, parseDate)
    && (q.search != "" ==>
          Hit(fields, "name", q.search, regex) || Hit(fields, "email", q.search, regex)
          || Hit(fields, "phone", q.search, regex) || Hit(fields, "service", q.search, regex))
  }

  lemma SearchMeaning(q: LeadQuery, fields: Fields, time: int, regex: Regex)
    ensures Holds(AnyMatches(SearchPaths, q.search), fields("$or"), fields, time, regex) <==>
      Hit(fields, "name", q.search, regex) || Hit(fields, "email", q.search, regex)
      || Hit(fields, "phone", q.search, regex) || Hit(fields, "service", q.search, regex)
  {
    assert SearchPaths[0] == "name" && SearchPaths[1] == "email";
    assert SearchPaths[2] == "phone" && SearchPaths[3] == "service";
  }

  /** The equality part of what a filtered list asks. */
  predicate WantedFields(q: LeadQuery, fields: Fields) {
    && (q.source != "" ==> fields("source") == Some(q.source))
    && (q.status != "" ==> fields("status") == Some(q.status))
    && (q.assignedTo != "" ==> fields("assignedTo") == Some(q.assignedTo))
  }

  /** The basic filters: source, status and assignee, each only when
      supplied. */
  method BasicLeadFilter(q: LeadQuery) returns (f: Filter)
    ensures f.Keys == (if q.source != "" then {"source"} else {})
                      + (if q.status != "" then {"status"} else {})
                      + (if q.assignedTo != "" then {"assignedTo"} else {})
    ensures forall fields, time, regex :: Matches(f, fields, time, regex) <==> WantedFields(q, fields)
  {
    MatchesEmpty();
    var f1 := AddEquals(map[], "source", q.source);
    var f2 := AddEquals(f1, "status", q.status);
    f := AddEquals(f2, "assignedTo", q.assignedTo);
  }

  /** The filter `filterLeads` builds: a key for each supplied parameter,
      and a document matches it exactly when it is wanted. */
  method BuildLeadFilter(q: LeadQuery, parseDate: string -> int) returns (f: Filter)
    ensures f.Keys == (if q.source != "" then {"source"} else {})
                      + (if q.status != "" then {"status"} else {})
                      + (if q.assignedTo != "" then {"assignedTo"} else {})
                      + (if q.dateFrom != "" || q.dateTo != "" then {"createdAt"} else {})
                      + (if q.search != "" then {"$or"} else {})
    ensures forall fields, time, regex :: Matches(f, fields, time, regex) <==> Wanted(q, fields, time, regex, parseDate)
  {
    var basic := BasicLeadFilter(q);
    var dated := AddDateRange(basic, q.dateFrom, q.dateTo, parseDate);
    f := dated;
    if q.search != "" {
      MatchesAdd(dated, "$or", AnyMatches(SearchPaths, q.search));
      f := dated["$or" := AnyMatches(SearchPaths, q.search)];
    }
    forall fields, time, regex
      ensures Matches(f, fields, time, regex) <==> Wanted(q, fields, time, regex, parseDate)
    {
      SearchMeaning(q, fields, time, regex);
    }
  }

  /** The query casts: a supplied `assignedTo` must be an id. */
  predicate QueryCasts(q: LeadQuery) {
    q.assignedTo == "" || IsIdText(q.assignedTo)
  }

  /** The reply of a list: the page and its pagination, or a failure. */
  datatype ListReply = Listed(leads: seq<Lead>, pagination: Pagination) | ListFailed(status: nat, error: string)

  /** `filterLeads`: the filter, then the newest-first page of what it
      selects and the pagination over everything it selects. An
      `assignedTo` that is no id fails the filter's cast, and a negative
      skip is refused by the database. */
  method FilterLeads(store: Store, q: LeadQuery, page: int, limit: int, regex: Regex, parseDate: string -> int)
    returns (filter: Filter, reply: ListReply)
    ensures forall fields, time, regex :: Matches(filter, fields, time, regex) <==> Wanted(q, fields, time, regex, parseDate)
    ensures !QueryCasts(q) || Skip(page, limit) < 0 ==> reply == ListFailed(500, "Failed to filter leads")
    ensures QueryCasts(q) && Skip(page, limit) >= 0 ==>
      var selected := Select(store.records, filter, LeadFields, CreatedAt, regex);
      reply == Listed(FindPage(store.records, filter, LeadFields, CreatedAt, regex, Skip(page, limit), limit),
                      Paginate(page, limit, |selected|))
    ensures reply.Listed? ==>
      && (forall i :: 0 <= i < |reply.leads| ==>
            reply.leads[i] in store.records && Wanted(q, LeadFields(reply.leads[i]), reply.leads[i].createdAt, regex, parseDate))
      && NewestFirst(reply.leads, CreatedAt)
      && |reply.leads| <= reply.pagination.totalCount
  {
    filter := BuildLeadFilter(q, parseDate);
    var skip := Skip(page, limit);
    if q.assignedTo != "" && !IsIdText(q.assignedTo) {
      return filter, ListFailed(500, "Failed to filter leads");
    }
    if skip < 0 {
      return filter, ListFailed(500, "Failed to filter leads");
    }
    var leads := FindPage(store.records, filter, LeadFields, CreatedAt, regex, skip, limit);
    var total := |Select(store.records, filter, LeadFields, CreatedAt, regex)|;
    FindPageSpec(store.records, filter, LeadFields, CreatedAt, regex, skip, limit);
    reply := Listed(leads, Paginate(page, limit, total));
  }
}
