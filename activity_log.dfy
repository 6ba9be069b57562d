/** The activity log (backend/models/ActivityLog.js and
    backend/controllers/activityController.js): the entry schema as a
    validation function, the 24-hour expiry, recording an entry, and the
    filtered, paginated listing. */
module ActivityLog {
  import opened Common
  import opened Collections
  import opened LeadSchema
  import opened Query

  const Actions: seq<string> := ["CREATE_LEAD", "UPDATE_LEAD", "DELETE_LEAD", "IMPORT_LEADS",
                                 "EXPORT_LEADS", "LOGIN", "LOGOUT", "FULL_ACCESS_GRANTED"]

  const EntityTypes: seq<string> := ["LEAD", "USER", "SYSTEM"]

  /** The twelve fields `logActivity` reads from the body, each absent when
      the body lacks it. The mixed-type data fields are kept as opaque
      text. */
  datatype ActivityDraft = ActivityDraft(
    userId: Option<string>, userName: Option<string>, userEmail: Option<string>,
    action: Option<string>, entityType: Option<string>, entityId: Option<string>,
    description: Option<string>, ipAddress: Option<string>, userAgent: Option<string>,
    oldData: Option<string>, newData: Option<string>, metadata: Option<string>)

  /** A stored entry. */
  datatype Entry = Entry(
    userId: Option<string>, userName: string, userEmail: string, action: string,
    entityType: string, entityId: Option<string>, description: string, ipAddress: string,
    userAgent: Option<string>, oldData: Option<string>, newData: Option<string>,
    metadata: Option<string>, createdAt: int)

  predicate ValidEntry(e: Entry) {
    && e.userName != "" && e.userEmail != "" && e.description != "" && e.ipAddress != ""
    && e.action in Actions && e.entityType in EntityTypes
    && (e.userId.None? || IsIdText(e.userId.value))
  }

  /** A required text path fails when absent or empty. */
  function RequiredText(path: string, v: Option<string>): seq<SchemaError> {
    if v.None? || v.value == "" then [Required(path)] else []
  }

  /** A required enum path fails when absent or empty, and otherwise on any
      value outside the enum. */
  function RequiredEnum(path: string, v: Option<string>, values: seq<string>): seq<SchemaError> {
    if v.None? || v.value == "" then [Required(path)]
    else if v.value !in values then [NotInEnum(path, v.value)]
    else []
  }

  /** The validation errors of a draft: the `userId` cast, recorded when
      the document is built, then the validators in schema path order. */
  function EntryErrors(d: ActivityDraft): (errs: seq<SchemaError>)
    ensures errs == [] <==>
      && (d.userId.None? || IsIdText(d.userId.value))
      && d.userName.Some? && d.userName.value != ""
      && d.userEmail.Some? && d.userEmail.value != ""
      && d.action.Some? && d.action.value in Actions
      && d.entityType.Some? && d.entityType.value in EntityTypes
      && d.description.Some? && d.description.value != ""
      && d.ipAddress.Some? && d.ipAddress.value != ""
  {
    CastErrors("userId", d.userId)
    + RequiredText("userName", d.userName) + RequiredText("userEmail", d.userEmail)
    + RequiredEnum("action", d.action, Actions) + RequiredEnum("entityType", d.entityType, EntityTypes)
    + RequiredText("description", d.description) + RequiredText("ipAddress", d.ipAddress)
  }

  /** Validating a draft at time `now`: an entry exactly when there are no
      errors, stamped with `now`. */
  function ValidateEntry(d: ActivityDraft, now: int): (r: Result<Entry, seq<SchemaError>>)
    ensures r.Ok? <==> EntryErrors(d) == []
    ensures r.Err? ==> r.error == EntryErrors(d)
    ensures r.Ok? ==> ValidEntry(r.value) && r.value.createdAt == now
  {
    if EntryErrors(d) != [] then Err(EntryErrors(d))
    else Ok(Entry(d.userId, d.userName.value, d.userEmail.value, d.action.value, d.entityType.value,
                  d.entityId, d.description.value, d.ipAddress.value, d.userAgent,
                  d.oldData, d.newData, d.metadata, now))
  }

  function EntryErrorMessage(errs: seq<SchemaError>): string {
    "ActivityLog validation failed: " + Join(seq(|errs|, i requires 0 <= i < |errs| => ErrorText(errs[i])), ", ")
  }

  // ---------------------------------------------------------------------
  // Expiry

  /** 24 hours in milliseconds. */
  const DayMs: int := 24 * 60 * 60 * 1000

  /** An entry is due for deletion once 24 hours have passed since its
      creation. */
  predicate Expired(e: Entry, now: int) {
    now >= e.createdAt + DayMs
  }

  function Live(logs: seq<Entry>, now: int): seq<Entry> {
    Where(logs, (e: Entry) => !Expired(e, now))
  }

  /** The live entries are exactly the unexpired ones, in order; an entry
      live at some time was live at every earlier time; and an entry stays
      live for the full day after its creation. */
  lemma LiveSpec(logs: seq<Entry>, now: int, earlier: int)
    requires earlier <= now
    ensures forall e :: e in Live(logs, now) <==> e in logs && now < e.createdAt + DayMs
    ensures forall e :: e in Live(logs, now) ==> e in Live(logs, earlier)
    ensures forall e :: e in logs && e.createdAt == now ==> e in Live(logs, now)
  {
    WhereSpec(logs, (e: Entry) => !Expired(e, now));
    WhereSpec(logs, (e: Entry) => !Expired(e, earlier));
  }

  // ---------------------------------------------------------------------
  // The collection

  class ActivityStore {
    var logs: seq<Entry>

    ghost predicate Valid()
      reads this
    {
      forall i :: 0 <= i < |logs| ==> ValidEntry(logs[i])
    }

    constructor ()
      ensures Valid() && logs == []
    {
      logs := [];
    }

    /** `new ActivityLog(fields).save()`. */
    method Save(d: ActivityDraft, now: int) returns (r: Result<Entry, seq<SchemaError>>)
      requires Valid()
      modifies this
      ensures Valid()
      ensures r == ValidateEntry(d, now)
      ensures logs == if r.Ok? then old(logs) + [r.value] else old(logs)
    {
      r := ValidateEntry(d, now);
      if r.Ok? {
        logs := logs + [r.value];
      }
    }

    /** The expiry monitor's pass at time `now`. */
    method Sweep(now: int)
      requires Valid()
      modifies this
      ensures Valid()
      ensures logs == Live(old(logs), now)
    {
      WhereSpec(logs, (e: Entry) => !Expired(e, now));
      ghost var before := logs;
      logs := Live(logs, now);
      forall i | 0 <= i < |logs| ensures ValidEntry(logs[i]) {
        assert logs[i] in before;
      }
    }
  }

  // ---------------------------------------------------------------------
  // logActivity

  /** The request body: its keys and their values. */
  type Body = map<string, string>

  function Get(body: Body, key: string): Option<string> {
    if key in body then Some(body[key]) else None
  }

  const LoggedKeys: seq<string> := ["userId", "userName", "userEmail", "action", "entityType", "entityId",
                                    "description", "ipAddress", "userAgent", "oldData", "newData", "metadata"]

  /** The destructured body fields, copied one for one. */
  function DraftOf(body: Body): ActivityDraft {
    ActivityDraft(Get(body, "userId"), Get(body, "userName"), Get(body, "userEmail"), Get(body, "action"),
                  Get(body, "entityType"), Get(body, "entityId"), Get(body, "description"),
                  Get(body, "ipAddress"), Get(body, "userAgent"), Get(body, "oldData"),
                  Get(body, "newData"), Get(body, "metadata"))
  }

  /** Only the twelve listed keys reach the entry: bodies that agree on
      them give the same draft, whatever else they carry. */
  lemma OnlyLoggedKeysRead(a: Body, b: Body)
    requires forall i :: 0 <= i < |LoggedKeys| ==> Get(a, LoggedKeys[i]) == Get(b, LoggedKeys[i])
    ensures DraftOf(a) == DraftOf(b)
  {
    assert Get(a, LoggedKeys[0]) == Get(b, LoggedKeys[0]);
    assert Get(a, LoggedKeys[1]) == Get(b, LoggedKeys[1]);
    assert Get(a, LoggedKeys[2]) == Get(b, LoggedKeys[2]);
    assert Get(a, LoggedKeys[3]) == Get(b, LoggedKeys[3]);
    assert Get(a, LoggedKeys[4]) == Get(b, LoggedKeys[4]);
    assert Get(a, LoggedKeys[5]) == Get(b, LoggedKeys[5]);
    assert Get(a, LoggedKeys[6]) == Get(b, LoggedKeys[6]);
    assert Get(a, LoggedKeys[7]) == Get(b, LoggedKeys[7]);
    assert Get(a, LoggedKeys[8]) == Get(b, LoggedKeys[8]);
    assert Get(a, LoggedKeys[9]) == Get(b, LoggedKeys[9]);
    assert Get(a, LoggedKeys[10]) == Get(b, LoggedKeys[10]);
    assert Get(a, LoggedKeys[11]) == Get(b, LoggedKeys[11]);
  }

  /** A stored entry carries each listed body field unchanged. */
  lemma EntryCopiesBody(body: Body, now: int)
    requires ValidateEntry(DraftOf(body), now).Ok?
    ensures var e := ValidateEntry(DraftOf(body), now).value;
      && e.userId == Get(body, "userId") && Some(e.userName) == Get(body, "userName")
      && Some(e.userEmail) == Get(body, "userEmail") && Some(e.action) == Get(body, "action")
      && Some(e.entityType) == Get(body, "entityType") && e.entityId == Get(body, "entityId")
      && Some(e.description) == Get(body, "description") && Some(e.ipAddress) == Get(body, "ipAddress")
      && e.userAgent == Get(body, "userAgent") && e.oldData == Get(body, "oldData")
      && e.newData == Get(body, "newData") && e.metadata == Get(body, "metadata")
      && e.createdAt == now
  {
  }

  datatype LogReply = Logged(entry: Entry) | LogFailed(status: nat, error: string, message: string)

  /** `logActivity`: 201 with the stored entry, or 500 with the validation
      message and nothing stored. */
  method LogActivity(store: ActivityStore, body: Body, now: int) returns (reply: LogReply)
    requires store.Valid()
    modifies store
    ensures store.Valid()
    ensures match ValidateEntry(DraftOf(body), now)
      case Ok(e) => reply == Logged(e) && store.logs == old(store.logs) + [e]
      case Err(errs) =>
        reply == LogFailed(500, "Failed to log activity", EntryErrorMessage(errs)) && store.logs == old(store.logs)
  {
    var saved := store.Save(DraftOf(body), now);
    match saved
    case Ok(e) => reply := Logged(e);
    case Err(errs) => reply := LogFailed(500, "Failed to log activity", EntryErrorMessage(errs));
  }

  // ---------------------------------------------------------------------
  // getActivityLogs

  /** The query of the listing; absent text parameters are the empty
      string, absent numbers take the defaults page 1 and limit 20. */
  datatype ActivityQuery = ActivityQuery(page: Option<int>, limit: Option<int>, userId: string, action: string,
                                         entityType: string, dateFrom: string, dateTo: string)

  function PageOf(q: ActivityQuery): int {
    match q.page case Some(p) => p case None => 1
  }

  function LimitOf(q: ActivityQuery): int {
    match q.limit case Some(l) => l case None => 20
  }

  function EntryPath(e: Entry, path: string): Option<string> {
    if path == "userId" then e.userId
    else if path == "action" then Some(e.action)
    else if path == "entityType" then Some(e.entityType)
    else None
  }

  function EntryFields(e: Entry): Fields {
    (path: string) => EntryPath(e, path)
  }

  function EntryTime(e: Entry): int {
    e.createdAt
  }

  /** What the listing asks of an entry. */
  predicate ActivityWanted(q: ActivityQuery, fields: Fields, time: int, parseDate: string -> int) {
    && (q.userId != "" ==> fields("userId") == Some(q.userId))
    && (q.action != "" ==> fields("action") == Some(q.action))
    && (q.entityType != "" ==> fields("entityType") == Some(q.entityType))
    && InDateRange(time, q.dateFrom, q.dateTo, parseDate)
  }

  /** The listing filter: a key per supplied parameter, matching exactly
      the wanted entries. */
  method BuildActivityFilter(q: ActivityQuery, parseDate: string -> int) returns (f: Filter)
    ensures f.Keys == (if q.userId != "" then {"userId"} else {})
                      + (if q.action != "" then {"action"} else {})
                      + (if q.entityType != "" then {"entityType"} else {})
                      + (if q.dateFrom != "" || q.dateTo != "" then {"createdAt"} else {})
    ensures forall fields, time, regex :: Matches(f, fields, time, regex) <==> ActivityWanted(q, fields, time, parseDate)
  {
    var eq := EqualityFilter(q);
    f := AddDateRange(eq, q.dateFrom, q.dateTo, parseDate);
  }

  /** The three equality conditions of the listing filter. */
  method EqualityFilter(q: ActivityQuery) returns (f: Filter)
    ensures f.Keys == (if q.userId != "" then {"userId"} else {})
                      + (if q.action != "" then {"action"} else {})
                      + (if q.entityType != "" then {"entityType"} else {})
    ensures forall fields, time, regex :: Matches(f, fields, time, regex) <==>
      && (q.userId != "" ==> fields("userId") == Some(q.userId))
      && (q.action != "" ==> fields("action") == Some(q.action))
      && (q.entityType != "" ==> fields("entityType") == Some(q.entityType))
  {
    MatchesEmpty();
    var f1 := AddEquals(map[], "userId", q.userId);
    var f2 := AddEquals(f1, "action", q.action);
    f := AddEquals(f2, "entityType", q.entityType);
  }

  /** The listing holds no pattern condition. */
  const NoPattern: Regex := (pattern: string, text: string) => false

  datatype ActivityPage = ActivityPage(logs: seq<Entry>, pagination: Pagination) | ActivityFailed(status: nat, error: string)

  /** The query casts: a supplied `userId` must be an id. */
  predicate ActivityQueryCasts(q: ActivityQuery) {
    q.userId == "" || IsIdText(q.userId)
  }

  /** `getActivityLogs`: newest first, skipping `(page - 1) * limit`
      entries, at most `limit` of them, with the pagination over all
      matching entries. A `userId` that is no id fails the filter's cast,
      and a negative skip is refused by the database. */
  method GetActivityLogs(store: ActivityStore, q: ActivityQuery, parseDate: string -> int)
    returns (filter: Filter, reply: ActivityPage)
    ensures forall fields, time, regex :: Matches(filter, fields, time, regex) <==> ActivityWanted(q, fields, time, parseDate)
    ensures !ActivityQueryCasts(q) || Skip(PageOf(q), LimitOf(q)) < 0 ==>
      reply == ActivityFailed(500, "Failed to fetch activity logs")
    ensures ActivityQueryCasts(q) && Skip(PageOf(q), LimitOf(q)) >= 0 ==>
      reply == ActivityPage(FindPage(store.logs, filter, EntryFields, EntryTime, NoPattern, Skip(PageOf(q), LimitOf(q)), LimitOf(q)),
                            Paginate(PageOf(q), LimitOf(q), |Select(store.logs, filter, EntryFields, EntryTime, NoPattern)|))
    ensures reply.ActivityPage? ==>
      && (forall i :: 0 <= i < |reply.logs| ==>
            reply.logs[i] in store.logs && ActivityWanted(q, EntryFields(reply.logs[i]), reply.logs[i].createdAt, parseDate))
      && NewestFirst(reply.logs, EntryTime)
      && |reply.logs| <= reply.pagination.totalCount
  {
    filter := BuildActivityFilter(q, parseDate);
    var page := PageOf(q);
    var limit := LimitOf(q);
    var skip := Skip(page, limit);
    if q.userId != "" && !IsIdText(q.userId) {
      return filter, ActivityFailed(500, "Failed to fetch activity logs");
    }
    if skip < 0 {
      return filter, ActivityFailed(500, "Failed to fetch activity logs");
    }
    var logs := FindPage(store.logs, filter, EntryFields, EntryTime, NoPattern, skip, limit);
    var total := |Select(store.logs, filter, EntryFields, EntryTime, NoPattern)|;
    FindPageSpec(store.logs, filter, EntryFields, EntryTime, NoPattern, skip, limit);
    reply := ActivityPage(logs, Paginate(page, limit, total));
  }

  /** Without page and limit, the listing shows the 20 newest matching
      entries and announces a next page exactly when more match. */
  lemma DefaultListing(q: ActivityQuery, total: nat)
    requires q.page.None? && q.limit.None?
    ensures Skip(PageOf(q), LimitOf(q)) == 0
    ensures var p := Paginate(PageOf(q), LimitOf(q), total);
      && p.totalPages == Some(CeilDiv(total, 20))
      && (p.hasNext <==> total > 20) && !p.hasPrev
  {
  }
}
