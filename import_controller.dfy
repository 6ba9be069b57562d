/** The two import handlers of backend/controllers/importController.js: a
    spreadsheet or CSV upload, and a JSON payload fetched from a URL. Rows are
    mapped to drafts, then inserted one at a time under the `(email, source)`
    de-duplication rule, counting imported and skipped records. */
module ImportController {
  import opened Common
  import opened LeadSchema
  import opened Ingestion
  import opened LeadStore
  import opened FieldMapping

  /** The first worksheet as the spreadsheet reader presents it: the cells of
      row 1 and the cells of every later non-empty row. */
  datatype Sheet = Sheet(header: seq<Cell>, rows: seq<seq<Cell>>)

  /** An uploaded file: its original name, what the spreadsheet reader makes
      of it (or the error it throws), and the rows the CSV reader yields. */
  datatype Upload = Upload(originalName: string, sheet: Result<Sheet, string>, csvRows: seq<Record>)

  /** A reply: the JSON result of a finished import, a 400 with a message, or
      a 500 with the failure's message. */
  datatype Reply =
    | Imported(message: string, imported: nat, skipped: nat)
    | BadRequest(message: string)
    | ServerError(message: string, error: string)

  function StatusCode(r: Reply): nat {
    match r
    case Imported(_, _, _) => 200
    case BadRequest(_) => 400
    case ServerError(_, _) => 500
  }

  // ---------------------------------------------------------------------
  // File extension

  /** The text after the last occurrence of `c`, or all of `s` when `c` does
      not occur (`s.split(c).pop()`). */
  function AfterLast(s: string, c: char): (r: string)
    ensures c !in r
    ensures |r| <= |s| && r == s[|s| - |r|..]
    ensures |r| < |s| ==> s[|s| - |r| - 1] == c
  {
    if s == [] then []
    else if s[|s| - 1] == c then []
    else
      var r := AfterLast(s[..|s| - 1], c);
      assert s[..|s| - 1][|s| - 1 - |r|..] + [s[|s| - 1]] == s[|s| - 1 - |r|..];
      r + [s[|s| - 1]]
  }

  lemma {:induction false} AfterLastAppend(p: string, c: char, t: string)
    requires c !in t
    ensures AfterLast(p + [c] + t, c) == t
    decreases |t|
  {
    if t == [] {
    } else {
      var s := p + [c] + t;
      var t' := t[..|t| - 1];
      assert s[..|s| - 1] == p + [c] + t';
      AfterLastAppend(p, c, t');
      assert t == t' + [t[|t| - 1]];
    }
  }

  /** The lowercased extension the handler dispatches on. */
  function Extension(name: string): string {
    ToLower(AfterLast(name, '.'))
  }

  /** A file named `*.txt` (which the upload filter lets through as
      `text/plain`) has extension `txt`. */
  lemma TxtExtension(stem: string)
    ensures Extension(stem + ".txt") == "txt"
  {
    assert stem + ".txt" == stem + ['.'] + "txt";
    AfterLastAppend(stem, '.', "txt");
  }

  // ---------------------------------------------------------------------
  // Mapping the rows of an upload

  /** The header slots of a sheet's first row. */
  function Headers(cells: seq<Cell>): seq<Option<string>> {
    seq(|cells|, j requires 0 <= j < |cells| => HeaderKey(cells[j]))
  }

  /** The draft of every data row of a sheet, in row order. */
  function SheetDrafts(sheet: Sheet, t: AliasTable): (ds: seq<LeadDraft>)
    ensures |ds| == |sheet.rows|
  {
    var h := Headers(sheet.header);
    seq(|sheet.rows|, i requires 0 <= i < |sheet.rows| =>
      MapFields(RecordUpTo(h, sheet.rows[i], |sheet.rows[i]|), t))
  }

  /** The kept drafts of an upload, in order, or the error reading it threw.
      An extension other than the three known ones yields no rows. */
  function FileCandidates(u: Upload): Result<seq<LeadDraft>, string> {
    var ext := Extension(u.originalName);
    if ext == "xlsx" || ext == "xls" then
      match u.sheet
      case Ok(sheet) => Ok(KeptDrafts(SheetDrafts(sheet, ExcelAliases)))
      case Err(e) => Err(e)
    else if ext == "csv" then Ok(KeptDrafts(MapAll(u.csvRows, CsvAliases)))
    else Ok([])
  }

  /** Reading a sheet row by row, the way the handler fills `leads`. */
  method ReadSheet(sheet: Sheet, t: AliasTable) returns (leads: seq<LeadDraft>)
    ensures leads == KeptDrafts(SheetDrafts(sheet, t))
  {
    var headers := ReadHeaders(sheet.header);
    assert headers == Headers(sheet.header);
    ghost var all := SheetDrafts(sheet, t);
    leads := [];
    var i := 0;
    while i < |sheet.rows|
      invariant 0 <= i <= |sheet.rows|
      invariant leads == KeptDrafts(all[..i])
    {
      var m := RowRecord(headers, sheet.rows[i]);
      var d := MapFields(m, t);
      KeptDraftsStep(all, i);
      if Kept(d) {
        leads := leads + [d];
      }
      i := i + 1;
    }
    assert all[..i] == all;
  }

  /** Mapping CSV rows (under the CSV aliases), the way the handler fills `leads`. */
  method ReadRecords(rows: seq<Record>, t: AliasTable) returns (leads: seq<LeadDraft>)
    ensures leads == KeptDrafts(MapAll(rows, t))
  {
    ghost var all := MapAll(rows, t);
    leads := [];
    var i := 0;
    while i < |rows|
      invariant 0 <= i <= |rows|
      invariant leads == KeptDrafts(all[..i])
    {
      var d := MapFields(rows[i], t);
      KeptDraftsStep(all, i);
      if Kept(d) {
        leads := leads + [d];
      }
      i := i + 1;
    }
    assert all[..i] == all;
  }

  // ---------------------------------------------------------------------
  // The insert loops

  /** Every draft as the candidate of an import step. */
  function Somes(ds: seq<LeadDraft>): (cs: seq<Option<LeadDraft>>)
    ensures |cs| == |ds| && forall k :: 0 <= k < |ds| ==> cs[k] == Some(ds[k])
  {
    seq(|ds|, k requires 0 <= k < |ds| => Some(ds[k]))
  }

  /** The import state a handler starts from: the store as it is, both
      counters at zero. */
  function Start(rs: seq<Lead>, nextId: nat): ImportState {
    ImportState(rs, nextId, 0, 0)
  }

  /** The import step for a draft whose pair is absent: the outcome of `create`. */
  lemma CreateStep(st: ImportState, d: LeadDraft, now: int, r: Result<Lead, seq<SchemaError>>)
    requires !HasPair(st.records, d.email, d.source) && r == Validate(d, st.nextId, now)
    ensures ImportStep(st, Some(d), now) ==
      if r.Ok? then ImportState(st.records + [r.value], st.nextId + 1, st.imported + 1, st.skipped)
      else st.(skipped := st.skipped + 1)
  {
  }

  /** The import step for a draft whose pair is present: a skip. */
  lemma SkipStep(st: ImportState, d: LeadDraft, now: int)
    requires HasPair(st.records, d.email, d.source)
    ensures ImportStep(st, Some(d), now) == st.(skipped := st.skipped + 1)
  {
  }

  /** The URL step for an absent pair with a name and an email: the outcome of `create`. */
  lemma UrlCreateStep(st: ImportState, d: LeadDraft, now: int, r: Result<Lead, seq<SchemaError>>)
    requires !HasPair(st.records, d.email, d.source) && d.name != "" && d.email != ""
    requires r == Validate(d, st.nextId, now)
    ensures UrlImportStep(st, Some(d), now) ==
      if r.Ok? then ImportState(st.records + [r.value], st.nextId + 1, st.imported + 1, st.skipped)
      else st.(skipped := st.skipped + 1)
  {
  }

  /** The URL step otherwise: a skip. */
  lemma UrlSkipStep(st: ImportState, d: LeadDraft, now: int)
    requires HasPair(st.records, d.email, d.source) || d.name == "" || d.email == ""
    ensures UrlImportStep(st, Some(d), now) == st.(skipped := st.skipped + 1)
  {
  }

  /** One pass of the file import's loop body: look the pair up, create
      when absent, and count the outcome. */
  method InsertOne(store: Store, d: LeadDraft, now: int, imported: nat, skipped: nat)
    returns (imported': nat, skipped': nat)
    requires store.Valid()
    modifies store
    ensures store.Valid()
    ensures ImportState(store.records, store.nextId, imported', skipped')
      == ImportStep(ImportState(old(store.records), old(store.nextId), imported, skipped), Some(d), now)
  {
    imported', skipped' := imported, skipped;
    ghost var st := ImportState(store.records, store.nextId, imported, skipped);
    var existing := store.FindOne(d.email, d.source);
    if existing.None? {
      var r := store.Create(d, now);
      CreateStep(st, d, now, r);
      if r.Ok? {
        imported' := imported + 1;
      } else {
        skipped' := skipped + 1;
      }
    } else {
      SkipStep(st, d, now);
      skipped' := skipped + 1;
    }
  }

  /** The file import's insert loop. */
  method InsertDrafts(store: Store, ds: seq<LeadDraft>, now: int) returns (imported: nat, skipped: nat)
    requires store.Valid()
    modifies store
    ensures store.Valid()
    ensures var r := ImportFrom(Start(old(store.records), old(store.nextId)), Somes(ds), now);
      store.records == r.records && store.nextId == r.nextId && imported == r.imported && skipped == r.skipped
  {
    ghost var cs := Somes(ds);
    ghost var goal := ImportFrom(Start(store.records, store.nextId), cs, now);
    imported, skipped := 0, 0;
    var i := 0;
    while i < |ds|
      invariant 0 <= i <= |ds|
      invariant store.Valid()
      invariant ImportFrom(ImportState(store.records, store.nextId, imported, skipped), cs[i..], now) == goal
    {
      FoldStep(ImportState(store.records, store.nextId, imported, skipped), cs, i, now);
      imported, skipped := InsertOne(store, ds[i], now, imported, skipped);
      i := i + 1;
    }
  }

  /** `POST /api/import`. */
  function ImportMessage(imported: nat, skipped: nat): string {
    "Import completed. " + NatToString(imported) + " leads imported, " + NatToString(skipped) + " skipped (duplicates)"
  }

  method ImportLeads(store: Store, upload: Option<Upload>, now: int) returns (reply: Reply)
    requires store.Valid()
    modifies store
    ensures store.Valid()
    ensures upload.None? ==>
      reply == BadRequest("No file uploaded") && store.records == old(store.records) && store.nextId == old(store.nextId)
    ensures upload.Some? && FileCandidates(upload.value).Err? ==>
      reply == ServerError("Import failed", FileCandidates(upload.value).error)
      && store.records == old(store.records) && store.nextId == old(store.nextId)
    ensures upload.Some? && FileCandidates(upload.value).Ok? ==>
      var r := ImportFrom(Start(old(store.records), old(store.nextId)), Somes(FileCandidates(upload.value).value), now);
      && store.records == r.records && store.nextId == r.nextId
      && reply == Imported(ImportMessage(r.imported, r.skipped), r.imported, r.skipped)
  {
    if upload.None? {
      return BadRequest("No file uploaded");
    }
    var u := upload.value;
    var ext := Extension(u.originalName);
    var leads: seq<LeadDraft> := [];
    if ext == "xlsx" || ext == "xls" {
      if u.sheet.Err? {
        return ServerError("Import failed", u.sheet.error);
      }
      leads := ReadSheet(u.sheet.value, ExcelAliases);
    } else if ext == "csv" {
      leads := ReadRecords(u.csvRows, CsvAliases);
    }
    var imported, skipped := InsertDrafts(store, leads, now);
    reply := Imported(ImportMessage(imported, skipped), imported, skipped);
  }

  /** A file import counts every kept row exactly once, as imported or
      skipped; dropped rows are counted in neither. */
  lemma FileImportCounts(rs: seq<Lead>, nextId: nat, ds: seq<LeadDraft>, now: int)
    ensures var r := ImportFrom(Start(rs, nextId), Somes(ds), now);
      r.imported + r.skipped == |ds| && |r.records| == |rs| + r.imported
  {
    ImportCounts(Start(rs, nextId), Somes(ds), now);
  }

  /** A file the handler cannot dispatch (a `.txt` file, say) imports nothing
      and skips nothing: by ImportLeads' contract the store keeps its records
      and counter, and the reply is `Imported(ImportMessage(0, 0), 0, 0)`. */
  lemma UnknownExtensionImportsNothing(u: Upload, rs: seq<Lead>, nextId: nat, now: int)
    requires Extension(u.originalName) !in ["xlsx", "xls", "csv"]
    ensures FileCandidates(u) == Ok([])
    ensures var r := ImportFrom(Start(rs, nextId), Somes(FileCandidates(u).value), now);
      r.records == rs && r.nextId == nextId && r.imported == 0 && r.skipped == 0
  {
    var ext := Extension(u.originalName);
    assert ext != "xlsx" && ext != "xls" && ext != "csv";
    assert Somes([]) == [];
    var r := ImportFrom(Start(rs, nextId), Somes(FileCandidates(u).value), now);
    assert r == Start(rs, nextId);
  }

  /** Importing the same file twice: the second run imports nothing and
      skips every kept row. */
  lemma FileImportIdempotent(rs: seq<Lead>, nextId: nat, ds: seq<LeadDraft>, now: int, later: int)
    ensures var r1 := ImportFrom(Start(rs, nextId), Somes(ds), now);
      var r2 := ImportFrom(Start(r1.records, r1.nextId), Somes(ds), later);
      r2.records == r1.records && r2.imported == 0 && r2.skipped == |ds|
  {
    ImportIdempotent(Start(rs, nextId), Somes(ds), now, later);
  }

  // ---------------------------------------------------------------------
  // URL import

  /** One element of a fetched JSON array: `null`, an object (its string
      properties), or any other value. */
  datatype Element = ENull | EObject(fields: Record) | EOther

  /** A fetched body: `null`, an array, an object (with its `leads` property
      when that is an array), or any other value. */
  datatype Payload = PNull | PArray(items: seq<Element>) | PObject(leads: Option<seq<Element>>) | POther

  /** What one element becomes: reading a property of `null` throws, which
      the loop counts as skipped; any value that is not an object has no
      properties and maps to the defaults. */
  function UrlCandidate(e: Element): Option<LeadDraft> {
    match e
    case ENull => None
    case EObject(f) => Some(MapFields(f, UrlAliases))
    case EOther => Some(MapFields(map[], UrlAliases))
  }

  function UrlCandidates(items: seq<Element>): (cs: seq<Option<LeadDraft>>)
    ensures |cs| == |items| && forall k :: 0 <= k < |items| ==> cs[k] == UrlCandidate(items[k])
  {
    seq(|items|, k requires 0 <= k < |items| => UrlCandidate(items[k]))
  }

  /** The error message of reading `leads` from `null`. */
  const NullLeadsError := "Cannot read properties of null (reading 'leads')"

  /** One pass of the URL import's loop body: map the element, look the
      pair up, and create when absent and both name and email are present. */
  method InsertUrlItem(store: Store, e: Element, now: int, imported: nat, skipped: nat)
    returns (imported': nat, skipped': nat)
    requires store.Valid()
    modifies store
    ensures store.Valid()
    ensures ImportState(store.records, store.nextId, imported', skipped')
      == UrlImportStep(ImportState(old(store.records), old(store.nextId), imported, skipped), UrlCandidate(e), now)
  {
    var c := UrlCandidate(e);
    imported', skipped' := InsertUrlCandidate(store, c, now, imported, skipped);
  }

  /** The loop body once the element is mapped (`None` for `null`). */
  method InsertUrlCandidate(store: Store, c: Option<LeadDraft>, now: int, imported: nat, skipped: nat)
    returns (imported': nat, skipped': nat)
    requires store.Valid()
    modifies store
    ensures store.Valid()
    ensures ImportState(store.records, store.nextId, imported', skipped')
      == UrlImportStep(ImportState(old(store.records), old(store.nextId), imported, skipped), c, now)
  {
    imported', skipped' := imported, skipped;
    ghost var st := ImportState(store.records, store.nextId, imported, skipped);
    if c.None? {
      skipped' := skipped + 1;
    } else {
      var d := c.value;
      var existing := store.FindOne(d.email, d.source);
      if existing.None? && d.name != "" && d.email != "" {
        var r := store.Create(d, now);
        UrlCreateStep(st, d, now, r);
        if r.Ok? {
          imported' := imported + 1;
        } else {
          skipped' := skipped + 1;
        }
      } else {
        UrlSkipStep(st, d, now);
        skipped' := skipped + 1;
      }
    }
  }

  /** The fold over the candidates from position `i` is one step and then
      the fold from `i + 1`. */
  lemma FoldStep(st: ImportState, cs: seq<Option<LeadDraft>>, i: nat, now: int)
    requires i < |cs|
    ensures ImportFrom(st, cs[i..], now) == ImportFrom(ImportStep(st, cs[i], now), cs[i + 1..], now)
  {
    assert cs[i..][0] == cs[i] && cs[i..][1..] == cs[i + 1..];
  }

  /** The URL import's insert loop. */
  method InsertUrlItems(store: Store, items: seq<Element>, now: int) returns (imported: nat, skipped: nat)
    requires store.Valid()
    modifies store
    ensures store.Valid()
    ensures var r := ImportFrom(Start(old(store.records), old(store.nextId)), UrlCandidates(items), now);
      store.records == r.records && store.nextId == r.nextId && imported == r.imported && skipped == r.skipped
  {
    ghost var cs := UrlCandidates(items);
    ghost var goal := ImportFrom(Start(store.records, store.nextId), cs, now);
    imported, skipped := 0, 0;
    var i := 0;
    while i < |items|
      invariant 0 <= i <= |items|
      invariant store.Valid()
      invariant ImportFrom(ImportState(store.records, store.nextId, imported, skipped), cs[i..], now) == goal
    {
      ghost var st := ImportState(store.records, store.nextId, imported, skipped);
      FoldStep(st, cs, i, now);
      UrlGuardRedundant(st, cs[i], now);
      imported, skipped := InsertUrlItem(store, items[i], now, imported, skipped);
      i := i + 1;
    }
  }

  function UrlImportMessage(imported: nat, skipped: nat): string {
    "Import from URL completed. " + NatToString(imported) + " leads imported, " + NatToString(skipped) + " skipped"
  }

  /** The records of a body, or the reply that ends the request. */
  function PayloadItems(p: Payload): Result<seq<Element>, Reply> {
    match p
    case PArray(items) => Ok(items)
    case PObject(Some(items)) => Ok(items)
    case PObject(None) => Err(BadRequest("Invalid data format from URL"))
    case POther => Err(BadRequest("Invalid data format from URL"))
    case PNull => Err(ServerError("URL import failed", NullLeadsError))
  }

  /** `POST /api/import/url`; `fetched` is the body the URL returned or the
      error the request failed with. */
  method ImportLeadsFromUrl(store: Store, url: string, fetched: Result<Payload, string>, now: int) returns (reply: Reply)
    requires store.Valid()
    modifies store
    ensures store.Valid()
    ensures url == "" ==>
      reply == BadRequest("URL is required") && store.records == old(store.records) && store.nextId == old(store.nextId)
    ensures url != "" && fetched.Err? ==>
      reply == ServerError("URL import failed", fetched.error)
      && store.records == old(store.records) && store.nextId == old(store.nextId)
    ensures url != "" && fetched.Ok? && PayloadItems(fetched.value).Err? ==>
      reply == PayloadItems(fetched.value).error
      && store.records == old(store.records) && store.nextId == old(store.nextId)
    ensures url != "" && fetched.Ok? && PayloadItems(fetched.value).Ok? ==>
      var r := ImportFrom(Start(old(store.records), old(store.nextId)), UrlCandidates(PayloadItems(fetched.value).value), now);
      && store.records == r.records && store.nextId == r.nextId
      && reply == Imported(UrlImportMessage(r.imported, r.skipped), r.imported, r.skipped)
  {
    if url == "" {
      return BadRequest("URL is required");
    }
    if fetched.Err? {
      return ServerError("URL import failed", fetched.error);
    }
    var items := PayloadItems(fetched.value);
    if items.Err? {
      return items.error;
    }
    var imported, skipped := InsertUrlItems(store, items.value, now);
    reply := Imported(UrlImportMessage(imported, skipped), imported, skipped);
  }

  /** A URL import counts every element of the payload, as imported or
      skipped. */
  lemma UrlImportCounts(rs: seq<Lead>, nextId: nat, items: seq<Element>, now: int)
    ensures var r := ImportFrom(Start(rs, nextId), UrlCandidates(items), now);
      r.imported + r.skipped == |items| && |r.records| == |rs| + r.imported
  {
    ImportCounts(Start(rs, nextId), UrlCandidates(items), now);
  }

  /** The bodies the handler refuses with 400 are exactly the ones that are
      neither an array nor an object holding a `leads` array. */
  lemma BadShapeIffNoArray(p: Payload)
    ensures (PayloadItems(p).Err? && StatusCode(PayloadItems(p).error) == 400) <==>
      (p.POther? || (p.PObject? && p.leads.None?))
  {
  }

  /** An element without a source property gets `url_import` and is never
      stored. */
  lemma UrlRecordWithoutSourceSkipped(f: Record, id: nat, now: int)
    requires forall i :: 0 <= i < |UrlAliases.source| ==> Get(f, UrlAliases.source[i]) == ""
    ensures UrlCandidate(EObject(f)).value.source == "url_import"
    ensures Validate(UrlCandidate(EObject(f)).value, id, now).Err?
  {
    MissingSourceIsRejected(f, UrlAliases, id, now);
  }
}
