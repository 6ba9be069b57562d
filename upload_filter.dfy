/** The upload route of backend/routes/import.js: the size limit and file
    filter applied before the file import handler runs. */
module UploadFilter {
  import opened Common
  import opened LeadStore
  import opened Ingestion
  import opened ImportController

  /** 10 MiB. */
  const MaxUpload: nat := 10 * 1024 * 1024

  const AllowedTypes: seq<string> := [
    "application/vnd.ms-excel",
    "application/vnd.openxmlformats-officedocument.spreadsheetml.sheet",
    "text/csv",
    "application/csv",
    "text/plain"
  ]

  const InvalidTypeMessage: string := "Invalid file type. Only Excel and CSV files are allowed."

  predicate EndsWith(s: string, suffix: string) {
    |suffix| <= |s| && s[|s| - |suffix|..] == suffix
  }

  /** `s + suffix` ends with `suffix`, and ending with it means being of
      that form. */
  lemma EndsWithSpec(s: string, suffix: string)
    ensures EndsWith(s + suffix, suffix)
    ensures EndsWith(s, suffix) ==> s == s[..|s| - |suffix|] + suffix
  {
    assert (s + suffix)[|s + suffix| - |suffix|..] == suffix;
  }

  /** The original name ends in one of the three spreadsheet endings. */
  predicate AllowedName(name: string) {
    EndsWith(name, ".xlsx") || EndsWith(name, ".xls") || EndsWith(name, ".csv")
  }

  /** The filter's decision: accepted, or refused with its message. */
  function FileFilter(mimetype: string, name: string): (refusal: Option<string>)
    ensures refusal.None? <==> mimetype in AllowedTypes || AllowedName(name)
    ensures refusal.Some? ==> refusal.value == InvalidTypeMessage
  {
    if mimetype in AllowedTypes || AllowedName(name) then None else Some(InvalidTypeMessage)
  }

  /** The handler's extension of `stem.ext` for an `ext` without a dot. */
  lemma ExtensionOf(stem: string, ext: string)
    requires '.' !in ext
    ensures Extension(stem + "." + ext) == ToLower(ext)
  {
    assert stem + "." + ext == stem + ['.'] + ext;
    AfterLastAppend(stem, '.', ext);
  }

  /** A name with one of the three endings passes the filter whatever its
      declared type. */
  lemma AcceptedByName(stem: string, ending: string, mimetype: string)
    requires ending == ".xlsx" || ending == ".xls" || ending == ".csv"
    ensures AllowedName(stem + ending)
    ensures FileFilter(mimetype, stem + ending).None?
  {
    EndsWithSpec(stem, ending);
  }

  /** A name ending in `.xlsx`, `.xls` or `.csv` is dispatched by the
      import handler to the matching reader. */
  lemma AcceptedNameDispatched(stem: string, ext: string)
    requires ext == "xlsx" || ext == "xls" || ext == "csv"
    ensures Extension(stem + "." + ext) == ext
  {
    ExtensionOf(stem, ext);
    assert ToLower(ext) == ext;
  }

  /** A plain-text file passes the filter by its type but no reader takes
      it: the import then adds and skips nothing. */
  lemma PlainTextPassesButImportsNothing(stem: string, u: Upload)
    requires u.originalName == stem + ".txt"
    ensures FileFilter("text/plain", u.originalName).None?
    ensures FileCandidates(u) == Ok([])
  {
    TxtExtension(stem);
    UnknownExtensionImportsNothing(u, [], 0, 0);
  }

  /** An incoming multipart file: its declared type, its size in bytes, and
      the upload the handler would see. */
  datatype Incoming = Incoming(mimetype: string, size: nat, upload: Upload)

  /** What the route answers: the handler's reply, a refusal by the filter,
      or the size limit's rejection. */
  datatype RouteReply = Handled(reply: Reply) | Refused(message: string) | TooLarge

  /** A file that the filter accepts and that stays within the size limit. */
  predicate Passes(f: Incoming) {
    FileFilter(f.mimetype, f.upload.originalName).None? && f.size <= MaxUpload
  }

  /** `POST /leads` after authentication: the file is checked against the
      filter, then (while streamed) against the size limit, and only then
      is the handler run; a request without a file reaches the handler
      without one. */
  method PostLeads(store: Store, file: Option<Incoming>, now: int) returns (r: RouteReply)
    requires store.Valid()
    modifies store
    ensures store.Valid()
    ensures file.Some? && FileFilter(file.value.mimetype, file.value.upload.originalName).Some? ==>
      r == Refused(InvalidTypeMessage) && store.records == old(store.records) && store.nextId == old(store.nextId)
    ensures file.Some? && FileFilter(file.value.mimetype, file.value.upload.originalName).None? && file.value.size > MaxUpload ==>
      r == TooLarge && store.records == old(store.records) && store.nextId == old(store.nextId)
    ensures file.None? ==>
      r == Handled(BadRequest("No file uploaded")) && store.records == old(store.records) && store.nextId == old(store.nextId)
    ensures file.Some? && Passes(file.value) && FileCandidates(file.value.upload).Err? ==>
      r == Handled(ServerError("Import failed", FileCandidates(file.value.upload).error))
      && store.records == old(store.records) && store.nextId == old(store.nextId)
    ensures file.Some? && Passes(file.value) && FileCandidates(file.value.upload).Ok? ==>
      var f := ImportFrom(Start(old(store.records), old(store.nextId)), Somes(FileCandidates(file.value.upload).value), now);
      && store.records == f.records && store.nextId == f.nextId
      && r == Handled(Imported(ImportMessage(f.imported, f.skipped), f.imported, f.skipped))
    ensures r.Handled? <==> file.None? || Passes(file.value)
  {
    if file.None? {
      var reply := ImportLeads(store, None, now);
      return Handled(reply);
    }
    var f := file.value;
    var refusal := FileFilter(f.mimetype, f.upload.originalName);
    if refusal.Some? {
      return Refused(refusal.value);
    }
    if f.size > MaxUpload {
      return TooLarge;
    }
    var reply := ImportLeads(store, Some(f.upload), now);
    r := Handled(reply);
  }
}
