# UrbanCruise lead management: a verified model

This project models the lead pipeline of the UrbanCruise lead management
system, with its builders, validators and dashboards.

The backend takes in leads from several channels:
- spreadsheet and CSV uploads;
- JSON payloads fetched from a URL;
- the Meta Graph API, polled and pushed by webhook;
- the Google Ads API, polled;
- the public website form.

Each channel maps its records onto the lead schema. It then looks up the
record's `(email, source)` pair and creates a lead only when that pair is
absent, counting what it imported and what it skipped. Around this
pipeline sit:
- the lead REST handlers and the MySQL statement builders behind the list endpoint;
- the exports (spreadsheet rows, CSV text);
- the notification texts and the daily source breakdown;
- the activity log with its 24-hour expiry;
- the settings seed;
- the upload file filter;
- two client pages: the lead dashboard and the activity page.

All of it is written in Dafny 4.11, one module per source file plus a few
shared ones:
- `Common`: Option/Result, JavaScript string and number helpers.
- `Collections`: `filter` and stable newest-first sorting.
- `LeadSchema`: the lead document validator.
- `LeadStore`: the document store as a class.
- `Ingestion`: the pure folds that specify every insert loop.
- `Query`: Mongo-style filter documents, cursors and pagination.

Code that changes state step by step is modelled as methods on classes, each
proved against a pure function, with loop invariants:
- the store and the settings table;
- the activity store;
- the e-mail/SMS outbox;
- the two pages' component state.

The properties the system relies on are proved as lemmas about those
functions: counts, de-duplication, idempotent re-polls and re-seeds,
placeholder/parameter balance, round trips, bounds and orderings.

External calls are method parameters:
- the fetched payload, the rows a SQL statement returns and the e-mail and SMS delivery outcome;
- the clock (`now`), date parsing and date rendering;
- the pattern matcher behind `$regex`.

## Model

| member | source | states |
|---|---|---|
| LeadSchema.Errors | backend/models/Lead.js:3-20 | a draft has no validation error iff a given `assignedTo` casts to an id, name and email are non-empty, the source is one of website/meta/google and a given status is one of the five statuses |
| LeadSchema.Validate | backend/models/Lead.js:3-20 | a document is produced exactly when the draft has no errors, it is valid, and it keeps the id, email and source; otherwise the error list is the draft's errors |
| LeadSchema.ValidateCopies | backend/models/Lead.js:15-19 | a stored document copies every draft field, takes status `new` when none was given, and keeps each timestamp the draft gives, the creation time for each it does not |
| LeadSchema.ImportSourcesRejected | backend/models/Lead.js:12 | a draft whose source is `import` or `url_import` is always refused, with a not-in-enum error on `source` |
| LeadSchema.PatchErrors | backend/models/Lead.js:4-16 | an update whose `assignedTo` is no id fails with that cast error alone; otherwise, with update validators, it fails iff it sets name or email to empty, or sets source or status outside its enum |
| LeadSchema.ApplyPatch | backend/models/Lead.js:3-20 | an update keeps the id, keeps the creation time unless it sets one, preserves validity when its own checks pass, and the empty update changes nothing |
| LeadStore.FindId | backend/controllers/leadController.js:67 | `findById` returns a stored record with that id, or nothing only when no record has it |
| LeadStore.ReplaceId | backend/controllers/leadController.js:178-182 | the rewrite keeps the length and replaces exactly the records with the id; LeadStore.IdsAboveReplace and LeadController.UpdateLeadRules state what it promises |
| LeadStore.RemoveId | backend/controllers/leadController.js:229 | after the delete a record is present iff it was present and has another id |
| LeadStore.RemoveAbsent | backend/controllers/leadController.js:229-238 | deleting an id nobody has leaves the store unchanged |
| LeadStore.RemoveIdOrdered | backend/controllers/leadController.js:229 | deleting keeps the remaining ids in increasing insertion order |
| LeadStore.IdsAboveIncreasing | backend/models/Lead.js:22 | the ordering the store keeps means every id lies above the bound and ids strictly increase along the collection, so no two documents share one |
| LeadStore.IdsAboveSnoc | backend/models/Lead.js:22 | appending a document whose id exceeds every stored one keeps the order |
| LeadStore.IdsAboveReplace | backend/controllers/leadController.js:178-182 | rewriting a document under its own id keeps the order |
| LeadStore.Store.constructor | backend/models/Lead.js:22 | the store starts empty and valid |
| LeadStore.Store.Create | backend/models/Lead.js:3-20 | `create` validates the draft; on success it appends exactly the new document and advances the id, otherwise nothing changes |
| LeadStore.Store.FindByIdAndUpdate | backend/controllers/leadController.js:178-182 | validators run first and refuse without a write; an unknown id yields none; otherwise the record is rewritten with the update applied |
| LeadStore.Store.FindByIdAndDelete | backend/controllers/leadController.js:229 | returns the first record with the id and removes every record with it |
| Ingestion.FindPair | backend/controllers/importController.js:111-114 | the lookup finds a record iff a stored record has that email and source, and what it finds has them |
| Ingestion.HasPairAppend | backend/controllers/importController.js:116-118 | after appending a record, a pair is present iff it was present before or is the new record's |
| Ingestion.HasPairPrefix | backend/controllers/importController.js:105-126 | a pair already present stays present whatever is appended |
| Ingestion.UniqueAppend | backend/controllers/importController.js:111-118 | appending a record whose pair is absent keeps pairs unique |
| Ingestion.UrlGuardRedundant | backend/controllers/importController.js:194-199 | the URL loop's extra name-and-email guard makes the same step as the file loop, because the schema refuses those drafts anyway |
| Ingestion.ImportCounts | backend/controllers/importController.js:105-126 | every candidate is counted exactly once as imported or skipped; the store only grows, by one record per import, and ids advance with it |
| Ingestion.ImportKeepsUnique | backend/controllers/importController.js:111-121 | an import run never stores a second record with the same email and source |
| Ingestion.ImportSettles | backend/controllers/importController.js:105-126 | after a run, every candidate has its pair stored or is one the schema refuses (the store's own calls never fail in the model; see "## Left out") |
| Ingestion.ImportNoOp | backend/controllers/importController.js:119-125 | when every candidate is already stored or refused, a run stores nothing and skips them all |
| Ingestion.ImportIdempotent | backend/controllers/importController.js:105-126 | importing the same candidates again stores nothing and skips every one of them |
| Ingestion.ImportFallbackSourcesStoreNothing | backend/controllers/importController.js:122-125 | candidates with the fallback sources `import`/`url_import` are all skipped and nothing is stored |
| Ingestion.PollCounts | backend/controllers/metaController.js:29-36 | a poll adds at most one record per fetched lead, only appends, counts exactly what it appends, and does nothing after a failure |
| Ingestion.PollKeepsUnique | backend/controllers/metaController.js:31-35 | a poll never stores a second record with the same email and source |
| Ingestion.PollSettles | backend/controllers/googleController.js:44-51 | after a poll that ran to the end, every fetched lead with an email has its pair stored (the store's own calls never fail in the model; see "## Left out") |
| Ingestion.PollNoOp | backend/controllers/googleController.js:46-50 | when every fetched lead lacks an email or is already stored, a poll changes nothing |
| Ingestion.PollIdempotent | backend/controllers/metaController.js:31-35 | re-polling an unchanged upstream set after a complete poll adds nothing and changes nothing |
| Ingestion.PollAppendsOnly | backend/controllers/metaController.js:30-36 | a poll over single-source drafts appends only records of that source, each with an email |
| FieldMapping.PickSpec | backend/controllers/importController.js:44-55 | a mapped field is the first alias with a non-empty value, and the default exactly when every alias is empty |
| FieldMapping.PickNotes | backend/controllers/importController.js:56 | notes is empty iff every note alias is empty, else the one-element list of the first non-empty one |
| FieldMapping.MapFieldsDefaults | backend/controllers/importController.js:43-57 | a mapped draft always has a service and a status, no assignee, at most one note, and its source is from the record or the path's fallback |
| FieldMapping.CsvNamePrecedence | backend/controllers/importController.js:73 | for CSV, `Name` beats `name`, which beats `Full Name`, which beats `fullname`; with none filled the name is empty |
| FieldMapping.MissingSourceIsRejected | backend/controllers/importController.js:52 | a record without any source alias gets the fallback source, and the schema refuses it |
| FieldMapping.MapAll | backend/controllers/importController.js:72-86 | one draft per CSV record, in order, each the record's mapping |
| FieldMapping.KeptDrafts | backend/controllers/importController.js:59-61 | the kept drafts are no more than the input and each has a name and an email |
| FieldMapping.KeptDraftsMembers | backend/controllers/importController.js:88-90 | a draft is kept iff it is an input with a non-empty name and email |
| FieldMapping.KeptDraftsStep | backend/controllers/importController.js:59-61 | one more row extends the kept drafts by that row's draft exactly when it passes the drop rule |
| FieldMapping.RecordUpToSpec | backend/controllers/importController.js:35-40 | a row dictionary has a key iff a visited column with that header has a cell, and its value is the trimmed cell of the last such column |
| FieldMapping.HeaderKeyNormal | backend/controllers/importController.js:26-28 | a header key has no upper-case letter and no surrounding white space, so only lower-case aliases can match |
| FieldMapping.ReadHeaders | backend/controllers/importController.js:26-28 | the header loop fills one slot per column with the lowered, trimmed cell |
| FieldMapping.RowRecord | backend/controllers/importController.js:35-40 | the cell loop builds exactly the row dictionary |
| ImportController.AfterLast | backend/controllers/importController.js:14 | `split('.').pop()` is the suffix after the last dot, or the whole name when there is none |
| ImportController.AfterLastAppend | backend/controllers/importController.js:14 | the extension of `stem.ext` is `ext` for an `ext` without a dot |
| ImportController.TxtExtension | backend/controllers/importController.js:14 | a `.txt` file has extension `txt` |
| ImportController.SheetDrafts | backend/controllers/importController.js:31-57 | one draft per data row of the sheet, the row's mapping; what is kept is stated by ImportController.ReadSheet |
| ImportController.ReadSheet | backend/controllers/importController.js:31-62 | the Excel row loop collects exactly the kept drafts of the sheet's rows, in order |
| ImportController.ReadRecords | backend/controllers/importController.js:66-91 | the CSV loop collects exactly the kept drafts of the records, in order |
| ImportController.Somes | backend/controllers/importController.js:105-126 | each kept draft becomes one candidate of the insert loop, in order |
| ImportController.InsertOne | backend/controllers/importController.js:106-125 | one loop pass leaves the store and counters as one import step prescribes |
| ImportController.InsertDrafts | backend/controllers/importController.js:105-126 | the insert loop leaves the store and both counters as the import fold over the drafts prescribes |
| ImportController.ImportLeads | backend/controllers/importController.js:7-141 | no file gives 400 with nothing stored; a read error gives 500 `Import failed` with nothing stored; otherwise the store and the reply's counts are the import fold's |
| ImportController.FileImportCounts | backend/controllers/importController.js:105-135 | imported + skipped equals the number of kept rows, and the store grows by the imported count |
| ImportController.UnknownExtensionImportsNothing | backend/controllers/importController.js:14-64 | an extension other than xlsx/xls/csv yields no rows, and the fold ImportLeads' contract names keeps the records and counter and counts 0 imported and 0 skipped, so the store is unchanged and the reply is `Import completed. 0 leads imported, 0 skipped (duplicates)` |
| ImportController.FileImportIdempotent | backend/controllers/importController.js:105-126 | importing the same file twice imports nothing the second time and skips every kept row |
| ImportController.UrlCandidates | backend/controllers/importController.js:165-186 | one candidate per payload element: null fails, an object is mapped, anything else maps to the defaults |
| ImportController.InsertUrlItem | backend/controllers/importController.js:167-203 | one URL loop pass leaves the store and counters as the URL step prescribes |
| ImportController.InsertUrlItems | backend/controllers/importController.js:165-204 | the URL loop leaves the store and counters as the import fold over the elements prescribes |
| ImportController.ImportLeadsFromUrl | backend/controllers/importController.js:143-216 | a missing URL gives 400; a failed fetch gives 500; a bad shape gives 400 and a null body 500; all of these store nothing; otherwise the store and the counts are the fold's |
| ImportController.UrlImportCounts | backend/controllers/importController.js:188-210 | imported + skipped equals the number of payload elements |
| ImportController.BadShapeIffNoArray | backend/controllers/importController.js:156-163 | the 400 bad-shape reply comes exactly for bodies that are neither an array nor an object with a `leads` array |
| ImportController.UrlRecordWithoutSourceSkipped | backend/controllers/importController.js:181 | a URL record without a source alias gets `url_import` and is refused by the schema |
| Polling.PollOne | backend/controllers/metaController.js:31-35 | one poll pass leaves the store, the count and the failure as one poll step prescribes |
| Polling.PollInsert | backend/controllers/googleController.js:44-51 | the poll loop leaves the store, the count and the failure as the poll fold prescribes |
| MetaController.FieldValueSpec | backend/controllers/metaController.js:22-26 | a field is `values[0]` of the first entry with that name, or empty when there is none or it has no values |
| MetaController.MetaDraft | backend/controllers/metaController.js:21-27 | a polled record's draft always has source `meta`, no status and no notes |
| MetaController.MetaDrafts | backend/controllers/metaController.js:21-27 | one `meta` draft per fetched record, in order |
| MetaController.FetchMetaLeads | backend/controllers/metaController.js:4-48 | unconfigured means the notice and no writes; a failed fetch means the error reply and no writes; otherwise the poll fold and the fetched/new message, or the error reply after the first failed create |
| MetaController.MetaPollBounds | backend/controllers/metaController.js:29-36 | the new count is at most the fetched count and equals the records appended, all `meta` with an email |
| MetaController.NamelessRecordFails | backend/controllers/metaController.js:22-47 | a record with an email but no `full_name` is refused by the schema with a required-name error, which aborts the poll |
| MetaController.MetaRepollAddsNothing | backend/controllers/metaController.js:31-35 | a second poll over the same records after a complete one adds nothing |
| MetaController.SetupWebhook | backend/controllers/metaController.js:50-63 | 200 with the challenge iff the given token equals the configured one, else 403 `Verification failed` |
| MetaController.WebhookDraft | backend/controllers/metaController.js:76-82 | a leadgen change's draft has source `meta` and the change's campaign name |
| MetaController.ChangeDrafts | backend/controllers/metaController.js:71-73 | at most one draft per change; what is stored is stated by MetaController.WebhookAppendsOnly |
| MetaController.WebhookFromAppend | backend/controllers/metaController.js:70-95 | processing two batches in a row equals processing them together |
| MetaController.WebhookFromStopped | backend/controllers/metaController.js:99-102 | after a failed create nothing more happens |
| MetaController.WebhookAppendsOnly | backend/controllers/metaController.js:84-92 | whatever the lookup decides, the webhook only appends `meta` records, at most one per leadgen change |
| MetaController.HandleChange | backend/controllers/metaController.js:72-93 | one change updates the store as the webhook fold prescribes |
| MetaController.HandleChanges | backend/controllers/metaController.js:71-94 | the inner loop updates the store as the fold over the entry's leadgen drafts prescribes |
| MetaController.HandleWebhook | backend/controllers/metaController.js:65-103 | a non-`page` object changes nothing and replies `EVENT_RECEIVED`; otherwise the store is the fold's, with 500 after a failed create |
| GoogleController.GoogleDraftFields | backend/controllers/googleController.js:35-42 | the name is first and last name joined by a space (never empty), source `google`, campaign and keyword copied |
| GoogleController.GoogleDrafts | backend/controllers/googleController.js:35-42 | one `google` draft per row, in order |
| GoogleController.GoogleDraftValid | backend/controllers/googleController.js:36-48 | a Google draft with an email always passes the schema |
| GoogleController.GooglePollNeverFails | backend/controllers/googleController.js:44-51 | so a Google poll never stops on a failed create |
| GoogleController.FetchGoogleLeads | backend/controllers/googleController.js:10-63 | unconfigured means the notice and no writes; a failed query means the error reply and no writes; otherwise the poll fold and `Google leads fetched: N found, M new leads added` |
| GoogleController.GooglePollBounds | backend/controllers/googleController.js:44-51 | the poll appends only `google` records with an email, exactly as many as it reports, and afterwards every row with an email has its pair stored |
| GoogleController.GoogleRepollAddsNothing | backend/controllers/googleController.js:46-50 | a second poll over the same rows adds nothing |
| WebsiteController.WebsiteDraft | backend/controllers/websiteController.js:7-14 | the source is always `website` |
| WebsiteController.OnlyFormFieldsRead | backend/controllers/websiteController.js:7-14 | bodies that agree on name, email, phone and service give the same draft, whatever else they carry |
| WebsiteController.SubmissionWithContactStored | backend/controllers/websiteController.js:5-20 | a submission with a name and an email is always stored: nothing is looked up first |
| WebsiteController.CreateWebsiteLead | backend/controllers/websiteController.js:5-24 | a valid submission is appended and answered 201, and then the notification is sent; an invalid one answers 400, stores nothing and notifies nobody |
| NotificationController.Outbox.constructor | backend/controllers/notificationController.js:12-19 | the SMS client exists iff both Twilio credentials are set and the client library accepts them (a throwing `twilio(...)` leaves no client) |
| NotificationController.Outbox.SendEmail | backend/controllers/notificationController.js:21-32 | a delivered mail is recorded, a failed one is swallowed |
| NotificationController.Outbox.SendSms | backend/controllers/notificationController.js:34-48 | without a client nothing is sent; an error is swallowed |
| NotificationController.NewLeadEmailNA | backend/controllers/notificationController.js:52 | the email shows `N/A` for a missing phone or service and the values otherwise |
| NotificationController.NewLeadSmsText | backend/controllers/notificationController.js:58 | the SMS starts with `New Lead: ` |
| NotificationController.NotifyNewLead | backend/controllers/notificationController.js:50-60 | one email to the admin address (default `admin@urbancruise.in`), then one SMS to the admin phone if a client exists |
| NotificationController.CountStatus | backend/controllers/notificationController.js:77-78 | a status count is at most the number of leads |
| NotificationController.CountTwoStatuses | backend/controllers/notificationController.js:77-78 | two distinct statuses together count at most all leads |
| NotificationController.CreatedBetween | backend/controllers/notificationController.js:72-74 | today's leads are stored leads created in `[today, tomorrow)` |
| NotificationController.DailySummaryCounts | backend/controllers/notificationController.js:76-78 | new and converted are each, and together, at most the day's total |
| NotificationController.FirstOccurrencesSpec | backend/controllers/notificationController.js:95 | the breakdown's keys are exactly the sources present, each once |
| NotificationController.BreakdownSumsToTotal | backend/controllers/notificationController.js:89-93 | the counts over the distinct sources sum to the number of leads |
| NotificationController.OccurrencesAbsent | backend/controllers/notificationController.js:92 | a source not present has count 0 |
| NotificationController.SumOccurrencesAddOne | backend/controllers/notificationController.js:91-93 | one more lead raises the sum by one exactly when its source is a key |
| NotificationController.PrefixStep | backend/controllers/notificationController.js:91-93 | one `forEach` step adds the source if new and raises its count by one |
| NotificationController.TallySources | backend/controllers/notificationController.js:90-93 | the tally loop yields the distinct sources in first-occurrence order and each one's exact count |
| NotificationController.SourcesOf | backend/controllers/notificationController.js:91-92 | one source per lead, in order; the tally over it is stated by NotificationController.FirstOccurrencesSpec |
| NotificationController.SourceBreakdown | backend/controllers/notificationController.js:89-98 | the text is one `- source: count` line per distinct source in first-occurrence order, joined by newlines |
| NotificationController.BreakdownLines | backend/controllers/notificationController.js:95-96 | one line per key; each line's text is stated by NotificationController.SourceBreakdown |
| Query.MatchesEmpty | backend/controllers/leadController.js:334 | the empty filter matches every document |
| Query.MatchesAdd | backend/controllers/leadController.js:337-339 | adding a condition on a new key narrows a filter by exactly that condition |
| Query.AddEquals | backend/controllers/leadController.js:337-339 | `if (v) filter[k] = v` adds the key iff the value is non-empty and then requires equality |
| Query.AddDateRange | backend/controllers/leadController.js:342-346 | a `createdAt` key exactly when a date is given, with a lower bound for `dateFrom` and an upper bound for `dateTo` |
| Query.SelectSpec | backend/controllers/leadController.js:358-364 | `find`/`countDocuments` select exactly the matching documents |
| Query.Window | backend/controllers/leadController.js:360-361 | skip/limit returns no more than its input; the page's contents are stated by Query.WindowPage |
| Query.PaginationConsistent | backend/controllers/leadController.js:44-50 | totalPages is the ceiling of total/limit, hasNext iff page·limit < total iff this is not the last page, hasPrev iff page > 1 |
| Query.WindowPage | backend/controllers/leadController.js:358-376 | the page shows the results from (page-1)·limit on, at most limit of them, and hasNext iff results remain after it |
| Query.WindowRun | backend/controllers/leadController.js:360-361 | a page is a contiguous run of the sorted results |
| Query.WindowOfSorted | backend/controllers/leadController.js:360-362 | a page of newest-first results is itself newest first and holds only results |
| Query.FindPageSpec | backend/controllers/leadController.js:358-364 | every listed document matches, the page is newest first, and it is no larger than the selection |
| LeadController.TransformId | backend/controllers/leadController.js:22 | the stringified id is a numeral that names the same row again |
| LeadController.NotesRoundTrip | backend/controllers/leadController.js:35 | notes written by `create` come back unchanged for none, `[]` or one non-empty note, and as a single joined note when there are two or more |
| LeadController.GetLeads | backend/controllers/leadController.js:3-63 | sends the `findAll` and `count` statements for the truthy options and offset (page-1)·limit, transforms every row, and paginates over the count |
| LeadController.ListStatements | backend/controllers/leadController.js:6-18 | page 1 sends no OFFSET, a LIMIT is sent iff the limit is non-zero, and the count filters by exactly the page's clauses |
| LeadController.GetLeadSpec | backend/controllers/leadController.js:65-91 | 200 iff a record has the id, and it is that record; 404 names the id; a non-id is 500 |
| LeadController.FindConflict | backend/controllers/leadController.js:107-112 | the conflict found is the first record with the same email or the given phone; none means no record conflicts |
| LeadController.CreateLead | backend/controllers/leadController.js:93-171 | the reply and the store are those of the creation rules (the `assignedTo` cast included), and the id advances only on 201 |
| LeadController.CreateLeadRules | backend/controllers/leadController.js:96-153 | 400 iff name, email or source is missing; 409 iff a record shares the email or given phone, reporting it and naming `email` or `phone number`; 201 iff present, no clash and schema-valid, appending the lead; an `assignedTo` that is no id is a 400 save failure; otherwise nothing stored |
| LeadController.GetAfterCreate | backend/controllers/leadController.js:129-130 | a lead just created is what `getLead` returns for its id |
| LeadController.UpdateLead | backend/controllers/leadController.js:173-225 | the reply and the store are those of the update rules, and ids never advance |
| LeadController.UpdateLeadRules | backend/controllers/leadController.js:178-191 | 404 iff a valid update names an absent id; an `assignedTo` that is no id is a 400 with the cast message; a 200 rewrites only that id's records, merges the given fields, keeps the id, keeps the creation time unless the body sets one, stamps `updatedAt` with now; otherwise nothing changes |
| LeadController.DeleteLead | backend/controllers/leadController.js:227-271 | the reply and the store are those of the delete rules |
| LeadController.DeleteLeadRules | backend/controllers/leadController.js:229-238 | 200 iff a record has the id; then it is gone, every other record stays, and deleting it again answers 404 |
| LeadController.AssignLead | backend/controllers/leadController.js:273-319 | the reply and the store are those of the assignment rules |
| LeadController.AssignLeadRules | backend/controllers/leadController.js:277-302 | 400 iff an id is missing; 500 iff the lead id or the user id fails its cast, with nothing stored; 200 iff both cast and the lead exists, which then carries the user and the new stamp |
| LeadController.AssignPatchValid | backend/controllers/leadController.js:286-292 | the assignment update fails iff the user id is no id, and then with that cast error alone |
| LeadController.AssignNonIdUserFails | backend/controllers/leadController.js:286-317 | assigning user `bob` to stored lead 1 is the 500 with the cast message and leaves the lead as it was |
| LeadController.AssignApplied | backend/controllers/leadController.js:288-291 | the assignment sets exactly `assignedTo` and `updatedAt` |
| LeadController.SearchMeaning | backend/controllers/leadController.js:349-356 | the `$or` holds iff the pattern matches name, email, phone or service |
| LeadController.BasicLeadFilter | backend/controllers/leadController.js:337-339 | a key for each supplied source, status and assignee, matching exactly on them |
| LeadController.BuildLeadFilter | backend/controllers/leadController.js:334-356 | a key exactly for each supplied parameter, and a document matches iff it is wanted |
| LeadController.FilterLeads | backend/controllers/leadController.js:321-389 | lists the newest-first page of what the filter selects with pagination over all of it; every listed lead is stored and wanted; an `assignedTo` that is no id and a negative skip are the 500 reply |
| MySqlLeads.HolesAppend | backend/models/mysql/Leads.js:38-66 | placeholders of joined statement pieces add up |
| MySqlLeads.RenderPlaceholders | backend/models/mysql/Leads.js:38-66 | with `?`-free literals, the text carries one `?` per placeholder |
| MySqlLeads.SqlOf | backend/models/mysql/Leads.js:41-54 | one placeholder per clause |
| MySqlLeads.ParamsOf | backend/models/mysql/Leads.js:43-53 | one parameter per clause, in clause order |
| MySqlLeads.SqlOfAppend | backend/models/mysql/Leads.js:41-66 | clause text accumulates as the clauses do |
| MySqlLeads.AddClause | backend/models/mysql/Leads.js:42-43 | `query +=` and `params.push` extend text and parameters by one clause |
| MySqlLeads.FilterQuery | backend/models/mysql/Leads.js:38-54 | the base query followed by a clause and a parameter for each truthy source, status and (for `findAll`) email |
| MySqlLeads.FindAllQuery | backend/models/mysql/Leads.js:35-73 | the statement is the filtered query, `ORDER BY created_at DESC`, then LIMIT and OFFSET for truthy values |
| MySqlLeads.CountQuery | backend/models/mysql/Leads.js:118-139 | the count statement filters by source and status only |
| MySqlLeads.FindAllBalanced | backend/models/mysql/Leads.js:38-66 | `findAll` binds exactly one parameter per placeholder |
| MySqlLeads.CountBalanced | backend/models/mysql/Leads.js:121-132 | `count` binds exactly one parameter per placeholder |
| MySqlLeads.ClausesFollowOptions | backend/models/mysql/Leads.js:41-66 | a filter clause exactly for each truthy option; OFFSET iff the offset is non-zero and LIMIT iff the limit is |
| MySqlLeads.QueriesRendered | backend/models/mysql/Leads.js:38-68 | the text sent carries one `?` per bound parameter, for `findAll` and `count` |
| MySqlLeads.CountIgnoresEmail | backend/models/mysql/Leads.js:121-132 | `count` ignores the email option |
| MySqlLeads.CountMatchesFindAll | backend/models/mysql/Leads.js:124-132 | without email, `count` filters exactly as `findAll` does |
| MySqlLeads.DefinedSpec | backend/models/mysql/Leads.js:91-96 | a key survives with its value iff the value is defined |
| MySqlLeads.SetTerms | backend/models/mysql/Leads.js:93 | one `key = ?` per defined key |
| MySqlLeads.Values | backend/models/mysql/Leads.js:94 | one value per defined key |
| MySqlLeads.JoinSqlHoles | backend/models/mysql/Leads.js:101 | joining the SET terms keeps one placeholder per term |
| MySqlLeads.UpdateStatement | backend/models/mysql/Leads.js:85-107 | no statement iff no value is defined; otherwise the SET terms in key order, `updated_at = NOW()`, and the id bound last |
| MySqlLeads.UpdateBalanced | backend/models/mysql/Leads.js:98-101 | the update binds one parameter per placeholder, with the id last |
| MySqlLeads.UpdateRendered | backend/models/mysql/Leads.js:93-101 | while no key holds a `?`, the text carries one `?` per bound parameter |
| MySqlLeads.UpdateKeys | backend/models/mysql/Leads.js:92-93 | only keys with defined values reach the statement |
| MySqlLeads.CreateParams | backend/models/mysql/Leads.js:12-27 | thirteen parameters, one per column before the two timestamps, the last the joined notes or NULL |
| MySqlLeads.Inserted | backend/models/mysql/Leads.js:26 | the stored notes column is the joined notes, or NULL without notes |
| ExportController.BuildExportFilter | backend/controllers/exportController.js:10-17 | a key exactly for each supplied parameter, with date bounds only for given dates, matching exactly the wanted leads |
| ExportController.Cells | backend/controllers/exportController.js:79-97 | sixteen cells after the id, one per remaining column; their CSV form is stated by ExportController.CsvMatchesExcel |
| ExportController.ExcelRows | backend/controllers/exportController.js:78-98 | one spreadsheet row per lead; the rows' contents are stated by ExportController.CsvMatchesExcel |
| ExportController.CsvLines | backend/controllers/exportController.js:166-187 | one CSV line per lead; the lines' contents are stated by ExportController.CsvMatchesExcel |
| ExportController.ExportToCsv | backend/controllers/exportController.js:163-192 | the CSV is the header line followed by each lead's line, in input order |
| ExportController.CsvMatchesExcel | backend/controllers/exportController.js:167-185 | each line has 17 fields; the first is index+1, as the spreadsheet id; the others are the spreadsheet cells, quoted where the CSV quotes them |
| ExportController.CsvIdsCount | backend/controllers/exportController.js:168 | the first column runs 1, 2, … down the file |
| ExportController.CsvQuoting | backend/controllers/exportController.js:169-182 | name, email, assignee and first note are quoted; source and status are bare |
| ExportController.UnescapePlain | backend/controllers/exportController.js:169-182 | a text without quotes reads back as itself |
| ExportController.UnescapeShrinks | backend/controllers/exportController.js:169-182 | reading an escaped field never lengthens it |
| ExportController.QuoteRoundTrip | backend/controllers/exportController.js:169-182 | a quoted field reads back as RFC 4180 section 2.7 prescribes iff it holds no double quote |
| ExportController.ExportLeads | backend/controllers/exportController.js:5-42 | selects the wanted leads newest first, as a permutation of the selection, then answers the spreadsheet, PDF, CSV or the 400 invalid-format reply |
| ActivityLog.EntryErrors | backend/models/ActivityLog.js:3-25 | no error iff a given `userId` casts to an id, userName, userEmail, description and ipAddress are given and non-empty, the action is one of the eight and the entity type one of the three |
| ActivityLog.ValidateEntry | backend/models/ActivityLog.js:3-25 | an entry exactly when there is no error, valid, stamped with now |
| ActivityLog.LiveSpec | backend/models/ActivityLog.js:24 | an entry is live iff less than 24 hours old; live later means live earlier; a new entry is live |
| ActivityLog.ActivityStore.constructor | backend/models/ActivityLog.js:27 | the log starts empty |
| ActivityLog.ActivityStore.Save | backend/controllers/activityController.js:35 | saving appends exactly the validated entry, or nothing on a cast or validation error |
| ActivityLog.ActivityStore.Sweep | backend/models/ActivityLog.js:24 | the expiry pass keeps exactly the live entries, in order |
| ActivityLog.OnlyLoggedKeysRead | backend/controllers/activityController.js:5-18 | only the twelve listed body keys reach the entry |
| ActivityLog.EntryCopiesBody | backend/controllers/activityController.js:20-33 | a stored entry carries each of the twelve body fields unchanged |
| ActivityLog.LogActivity | backend/controllers/activityController.js:3-52 | 201 with the stored entry appended, or 500 `Failed to log activity` with the cast or validation message and nothing stored |
| ActivityLog.EqualityFilter | backend/controllers/activityController.js:59-61 | a key for each supplied userId, action and entity type, matching exactly on them |
| ActivityLog.BuildActivityFilter | backend/controllers/activityController.js:57-68 | a key exactly for each supplied parameter, date bounds only for given dates, matching exactly the wanted entries |
| ActivityLog.GetActivityLogs | backend/controllers/activityController.js:54-100 | the newest-first page after (page-1)·limit with the pagination over all matches; every listed entry is stored and wanted; a `userId` that is no id and a negative skip are the 500 reply |
| ActivityLog.DefaultListing | backend/controllers/activityController.js:56-87 | without page and limit: no skip, ⌈total/20⌉ pages, a next page iff more than 20 match, no previous page |
| Settings.DefaultsWellFormed | backend/models/Setting.js:38-54 | fifteen defaults with pairwise distinct keys, each type in the enum |
| Settings.FindOrCreate | backend/models/Setting.js:59-62 | unchanged when the key exists, otherwise the default inserted under the next id; Settings.FindOrCreateSpec and Settings.SeedSpec state its properties |
| Settings.FindOrCreateSpec | backend/models/Setting.js:59-62 | keys stay unique, existing rows are untouched, at most one row is added and the key is then present |
| Settings.SeedSpec | backend/models/Setting.js:56-67 | seeding keeps keys unique, never changes an existing row, adds at most one row per default, and without a failure leaves every default key present |
| Settings.SeedPresent | backend/models/Setting.js:58-63 | with every default present, a pass changes nothing |
| Settings.SeedIdempotent | backend/models/Setting.js:56-67 | seeding twice gives the same table as seeding once |
| Settings.SeedEmpty | backend/models/Setting.js:56-63 | on a table without those keys, a complete pass appends the defaults in order with consecutive ids |
| Settings.FirstStartSeedsAll | backend/models/Setting.js:38-67 | the first start stores the fifteen defaults in order under ids 1 to 15 |
| Settings.SeedStops | backend/models/Setting.js:57-66 | a failure at position k leaves the table as the first k steps made it |
| Settings.SettingsTable.constructor | backend/models/Setting.js:3-36 | the table starts empty with the counter at 1 |
| Settings.SettingsTable.FindOrCreateRow | backend/models/Setting.js:59-62 | the call applies find-or-create, or changes nothing when the database rejects it |
| Settings.SettingsTable.Seed | backend/models/Setting.js:56-67 | the hook's loop leaves the table as the seeding pass prescribes, stopping at the first failure |
| Settings.SettingsTable.SeedDefaults | backend/models/Setting.js:56-67 | the hook seeds the fifteen defaults |
| UploadFilter.EndsWithSpec | backend/routes/import.js:23-26 | a name ends with a suffix iff it is some text followed by that suffix |
| UploadFilter.FileFilter | backend/routes/import.js:14-31 | accepted iff the type is one of the five or the name ends in `.xlsx`, `.xls` or `.csv`; refused with `Invalid file type. Only Excel and CSV files are allowed.`; UploadFilter.AcceptedByName and UploadFilter.PostLeads state its consequences |
| UploadFilter.ExtensionOf | backend/routes/import.js:23-26 | the handler's extension of `stem.ext` is the lowered `ext` |
| UploadFilter.AcceptedByName | backend/routes/import.js:23-26 | a name with one of the three endings passes whatever its type |
| UploadFilter.AcceptedNameDispatched | backend/routes/import.js:23-26 | such a name is dispatched to the matching reader |
| UploadFilter.PlainTextPassesButImportsNothing | backend/routes/import.js:20 | a `text/plain` `.txt` file passes the filter but yields no rows: 0 imported, 0 skipped |
| UploadFilter.PostLeads | backend/routes/import.js:10-35 | a refused type or a file over 10 MiB never reaches the handler or the store; a request without a file gets the handler's 400; an accepted file within the limit is handed to the handler exactly then, with the store and reply of ImportLeads: the 500 `Import failed` for an unreadable sheet, otherwise the import fold's records, counter and counts |
| Collections.WhereSpec | src/app/page.tsx:190-205 | a filter keeps an element iff it was there and passes, as a sub-multiset |
| Collections.SortNewestFirstSpec | src/app/page.tsx:209 | the sort is newest first and a permutation of its input |
| Common.CeilDiv | src/app/page.tsx:267 | `Math.ceil(a/b)` is the least r with a ≤ r·b |
| Common.RoundDiv | src/app/page.tsx:296 | `Math.round(p/q)` is the nearest integer, halves up |
| Common.JsSlice | src/app/page.tsx:255 | `slice` returns at most the whole sequence; a page's contents are stated by Common.PageSlice |
| Common.PageSlice | src/app/page.tsx:253-255 | page p of size k holds the existing items at (p-1)·k to p·k-1 |
| Common.TrimProperties | backend/controllers/importController.js:27-37 | `trim` leaves no white space at either end and keeps a contiguous piece |
| Common.NatToStringRoundTrip | backend/controllers/leadController.js:22 | `toString` of a count or id reads back as the same number |
| Dashboard.DashboardViewSpec | src/app/page.tsx:185-212 | the table shows exactly the kept leads, each as often as fetched, as a sub-multiset, newest first |
| Dashboard.NoFiltersShowAll | src/app/page.tsx:189-206 | with no search and both selects on `all`, every fetched lead is shown |
| Dashboard.ConversionRateBounds | src/app/page.tsx:296 | the rate lies in 0..100, is 0 without conversions and 100 when every lead converted |
| Dashboard.StatsBounds | src/app/page.tsx:293-296 | new plus converted is at most the total, the rate at most 100 and 0 without leads |
| Dashboard.ChartData | src/app/page.tsx:298-302 | three bars; their sum is bounded by Dashboard.ChartWithinTotal |
| Dashboard.ChartWithinTotal | src/app/page.tsx:298-302 | the three source bars add up to at most the shown leads |
| Dashboard.MonthlyData | src/app/page.tsx:305-322 | twelve months; each bar's contents are stated by Dashboard.MonthlySpec |
| Dashboard.MonthlySpec | src/app/page.tsx:305-322 | month i carries its name, counts exactly the leads of that month of the year, and its source counts stay within that count |
| Dashboard.NewLeadIdsSpec | src/app/page.tsx:226-232 | an id is highlighted iff some lead with it is less than five minutes old |
| Dashboard.RequestFiltersAsPage | src/app/page.tsx:216-221 | the server filters by source iff the source select is active, likewise for status, and the page size is 10 |
| Dashboard.LeadsOf | src/app/page.tsx:223 | nested leads, else top-level leads, else empty: an empty array is kept; Dashboard.DashboardPage.FetchLeads states how the page uses it |
| Dashboard.TotalPagesOf | src/app/page.tsx:235 | the first non-zero page count, else 1; Dashboard.DashboardPage.FetchLeads states how the page uses it |
| Dashboard.SelectsFilter | src/app/page.tsx:242-250 | the two sample filters keep exactly the leads both selects keep |
| Dashboard.FallbackSpec | src/app/page.tsx:241-267 | the fallback page holds the kept sample leads from (p-1)·10 on, at most 10, with ⌈n/10⌉ pages, 0 iff none is kept |
| Dashboard.DashboardPage.constructor | src/app/page.tsx:185-212 | the page starts with no leads, empty filters, page 1 of 1 and nothing highlighted |
| Dashboard.DashboardPage.ApplyFilters | src/app/page.tsx:185-212 | the effect sets the shown leads to the dashboard view and changes nothing else |
| Dashboard.DashboardPage.FetchLeads | src/app/page.tsx:214-269 | a reply sets its leads, its page count and the recent ids; a failed request sets the sample fallback page and the ids of recent sample leads |
| Dashboard.Narrow | src/app/page.tsx:186-206 | the three conditional filter steps keep exactly the leads the three controls keep |
| ActivityView.PageSpec | frontend/src/app/notifications/page.tsx:123-137 | page p holds the kept logs from (p-1)·20 on, at most 20, with ⌈n/20⌉ pages, 0 iff nothing matches |
| ActivityView.ActionColorSpec | frontend/src/app/notifications/page.tsx:146-158 | the six coloured actions have pairwise distinct badges, and an action is gray iff it is not one of them |
| ActivityView.EntityColorSpec | frontend/src/app/notifications/page.tsx:160-167 | the three entity types have distinct badges and every other value is gray |
| ActivityView.Underscores | frontend/src/app/notifications/page.tsx:170 | replacing underscores keeps the length; the label's form is stated by ActivityView.FormatActionSpec |
| ActivityView.Capitalise | frontend/src/app/notifications/page.tsx:170 | capitalising keeps the length; the label's form is stated by ActivityView.FormatActionSpec |
| ActivityView.FormatActionSpec | frontend/src/app/notifications/page.tsx:169-171 | the label has no underscore, one character per character, upper case exactly at word starts that are letters, and up to case each character is the action's with `_` read as a space |
| ActivityView.FormatActionIdempotent | frontend/src/app/notifications/page.tsx:169-171 | formatting a label again changes nothing |
| ActivityView.FormatCreateLead | frontend/src/app/notifications/page.tsx:169-171 | `CREATE_LEAD` is shown as `Create Lead` |
| ActivityView.UsersOfMembers | frontend/src/app/notifications/page.tsx:242 | the active users are exactly the user ids of the shown logs |
| ActivityView.UsersOfSize | frontend/src/app/notifications/page.tsx:242 | at most one active user per shown log and at least one when any is shown |
| ActivityView.CardsBounds | frontend/src/app/notifications/page.tsx:210-242 | lead operations plus system events are at most the total, active users at most the total and positive when any log is shown |
| ActivityView.ActivityLogsPage.constructor | frontend/src/app/notifications/page.tsx:100-106 | the page starts empty, unfiltered, on page 1 of 1, loading |
| ActivityView.NarrowLogs | frontend/src/app/notifications/page.tsx:121-129 | the two conditional filters keep exactly the logs both selects keep, in order |
| ActivityView.ActivityLogsPage.FetchActivityLogs | frontend/src/app/notifications/page.tsx:116-144 | the logs become page `currentPage` of 20 of the kept logs, the page count ⌈n/20⌉, loading ends |
| ActivityView.ActivityLogsPage.SyncFiltered | frontend/src/app/notifications/page.tsx:112-114 | the table shows the fetched logs |

## Left out

- LeadStore.Store.Create, Ingestion.FindPair, Ingestion.ImportFrom and Ingestion.PollFrom: a lookup or create that fails for a reason other than schema validation (a lost connection, a driver error) is not modelled. The store's calls always answer. In the source, the file and URL import loops count such a row as skipped and go on (backend/controllers/importController.js:122-125 and 200-203), and the Meta and Google polls abort with a 500 (backend/controllers/metaController.js:42-47, backend/controllers/googleController.js:57-62). Ingestion.ImportSettles, Ingestion.PollSettles and GoogleController.GooglePollNeverFails therefore hold only for a store that does not fail.
- Database and network I/O are left out. The MySQL rows and counts, the fetched Graph/Ads/URL payloads, and e-mail and SMS delivery are method inputs. Pools, connections, server wiring, authentication middleware and the other routes are not part of this model.
- The lead handlers in backend/controllers/leadController.js use `Lead` without importing it, so the code as written would throw before reaching the store. The model gives the handlers' decision logic against the lead store instead.
- The `11000` duplicate-key branch of `createLead` is left out: the lead schema declares no unique index, so the branch cannot be reached.
- The activity-log writes inside the lead handlers are left out. Without an authenticated user they pass the user id `'system'`, which fails the `userId` cast that ActivityLog.EntryErrors states. Because the writes sit inside each handler's `try` (backend/controllers/leadController.js:134, 195 and 242), the source then answers after the store has already changed: createLead gives 400 with the lead stored (:154-164), updateLead gives 400 with the rewrite kept (:216-218), and deleteLead gives 500 with the lead removed (:262-264). LeadController.CreateLeadRules, UpdateLeadRules and DeleteLeadRules state the replies for a request with an authenticated user, where the write succeeds.
- Document ids are numbers. A text casts to an id (`_id`, `assignedTo`, `userId`) exactly when it is a non-empty decimal numeral, which stands in for the 24-digit hexadecimal form.
- `populate('assignedTo')` is modelled as a map from user id to name.
- Dates are integer millisecond timestamps. `new Date(...)` parsing, `toLocaleDateString`, `getMonth` and `getFullYear` are function parameters.
- Non-numeric `page`/`limit` strings and invalid dates are not modelled.
- The order of equal `createdAt` values under Mongo's sort is not modelled. The model sorts stably.
- The `$regex` search is an abstract predicate.
- Lower-casing and trimming cover ASCII letters and the common white-space characters only.
- The PDF export is modelled as the selected leads only. Its page layout is a library encoder.
- ImportController.UrlCandidates: a fetched element's properties are text only. A number or boolean, which the `||` chains test by JavaScript truthiness (so `0` and `false` fall through to the next alias) and the schema then casts to text, cannot be expressed. Neither can a nested object or array, whose cast fails. Such properties behave as absent.
- WebsiteController.WebsiteDraft: the body's form fields are text only. A number or boolean, which the schema casts to text, and an object or array, whose cast fails with a 400, are not modelled.
- Excel/CSV decoding is left out: rows arrive as header→string maps. The two-stream timing of the CSV branch is left out too; all CSV rows are mapped before the insert loop.
- `validateMetaToken`, `syncCampaignData`, `getKeywordData` and the UrbanCruise demo-data endpoints are left out. They are network round trips or constant data.
- Report.js and the React components apart from the two pages are left out: they carry no logic of their own.
- The cron schedules in backend/cronJobs.js are left out. A tick is a call of `FetchMetaLeads` and then `FetchGoogleLeads` with `viaHttp` false.
- The webhook lookup's `{ where: ... }` filter is an arbitrary predicate, so no de-duplication is claimed for webhooks.
- `getUserActivity` and `getRecentActivity` of activityController.js are not part of this model.
- The TTL monitor's timing is not modelled: `Sweep` runs at any given time.
- Dashboard.ConversionRateBounds: the rate is modelled exactly (`Math.round` of a rational), not in floating point.
- Race conditions between overlapping polls or imports are not modelled. Everything runs sequentially.
- page.tsx sorts `filtered` in place, and `filtered` may alias the `leads` state. The model uses value semantics, so this aliasing is not captured.
- The `updateLeadStatus`, `deleteLead` and `handleLeadAdded` network calls of page.tsx are not modelled.
- The concrete sample leads and mock activity logs are parameters.
- `setTimeout` and the loading spinner's intermediate states are not modelled.
- Multer's disk storage and streaming are not modelled. Only the size limit, the filter and the hand-off to the handler are.
- MySqlLeads.UpdateRendered: keys are spliced into the SQL text. The placeholder count holds only for keys without a `?`, so the lemma requires that.
- The exact white space of the INSERT statement is not reproduced; only its parameters are.
- The CSV export's `csv +=` is modelled as the accumulated text, not as a stream.
- The micros-to-currency conversions in googleController.js are floating-point and are left out.
