/** The field normalisers of the three import paths
    (backend/controllers/importController.js): every canonical field is the
    first non-empty value among a list of aliases, falling back to a default. */
module FieldMapping {
  import opened Common
  import opened LeadSchema

  /** A record as a reader hands it over: column or property names to strings. */
  type Record = map<string, string>

  /** Property access followed by `|| ...`: an absent key reads as the empty
      string, which is what the chain treats it as. */
  function Get(m: Record, k: string): string {
    if k in m then m[k] else ""
  }

  /** `m[a0] || m[a1] || ... || dflt`. */
  function Pick(m: Record, aliases: seq<string>, dflt: string): string {
    if aliases == [] then dflt
    else if Get(m, aliases[0]) != "" then Get(m, aliases[0])
    else Pick(m, aliases[1..], dflt)
  }

  /** The value picked is the first alias with a non-empty value, and the
      default exactly when every alias is empty. */
  lemma {:induction false} PickSpec(m: Record, aliases: seq<string>, dflt: string)
    ensures var r := Pick(m, aliases, dflt);
      && ((forall i :: 0 <= i < |aliases| ==> Get(m, aliases[i]) == "") ==> r == dflt)
      && (r == "" ==> forall i :: 0 <= i < |aliases| ==> Get(m, aliases[i]) == "")
      && (forall i :: FirstFilled(m, aliases, i) ==> r == Get(m, aliases[i]))
      && (r == dflt || exists i :: FirstFilled(m, aliases, i) && r == Get(m, aliases[i]))
  {
    if aliases == [] {
    } else if Get(m, aliases[0]) != "" {
      assert FirstFilled(m, aliases, 0);
    } else {
      PickSpec(m, aliases[1..], dflt);
      var r := Pick(m, aliases[1..], dflt);
      assert forall i :: 1 <= i < |aliases| ==> aliases[i] == aliases[1..][i - 1];
      assert forall i :: FirstFilled(m, aliases, i) ==> FirstFilled(m, aliases[1..], i - 1);
      if r != dflt {
        var i :| FirstFilled(m, aliases[1..], i) && r == Get(m, aliases[1..][i]);
        assert FirstFilled(m, aliases, i + 1);
      }
    }
  }

  /** Alias i is the first one with a non-empty value. */
  predicate FirstFilled(m: Record, aliases: seq<string>, i: int) {
    && 0 <= i < |aliases|
    && Get(m, aliases[i]) != ""
    && forall j :: 0 <= j < i ==> Get(m, aliases[j]) == ""
  }

  /** The alias lists of one import path, per canonical field, and its
      fallback source. */
  datatype AliasTable = AliasTable(
    name: seq<string>,
    email: seq<string>,
    phone: seq<string>,
    service: seq<string>,
    vehicle: seq<string>,
    city: seq<string>,
    rentalDays: seq<string>,
    rentalMonths: seq<string>,
    source: seq<string>,
    campaign: seq<string>,
    keyword: seq<string>,
    status: seq<string>,
    notes: seq<string>,
    fallbackSource: string)

  /** Excel rows, whose keys are the lowercased, trimmed header cells. */
  const ExcelAliases: AliasTable := AliasTable(
    ["name", "full name", "fullname"],
    ["email"],
    ["phone", "mobile", "contact"],
    ["service", "service type"],
    ["vehicle", "vehicle type"],
    ["city", "location"],
    ["rental days", "rentaldays", "days"],
    ["rental months", "rentalmonths", "months"],
    ["source"],
    ["campaign", "campaign name"],
    ["keyword", "keywords"],
    ["status"],
    ["notes", "description", "comments"],
    "import")

  /** CSV rows, whose keys are the header cells as written. */
  const CsvAliases: AliasTable := AliasTable(
    ["Name", "name", "Full Name", "fullname"],
    ["Email", "email"],
    ["Phone", "phone", "Mobile", "mobile", "Contact", "contact"],
    ["Service", "service", "Service Type", "servicetype"],
    ["Vehicle", "vehicle", "Vehicle Type", "vehicletype"],
    ["City", "city", "Location", "location"],
    ["Rental Days", "rentalDays", "Days", "days"],
    ["Rental Months", "rentalMonths", "Months", "months"],
    ["Source", "source"],
    ["Campaign", "campaign", "Campaign Name", "campaignname"],
    ["Keyword", "keyword", "Keywords", "keywords"],
    ["Status", "status"],
    ["Notes", "notes", "Description", "description", "Comments", "comments"],
    "import")

  /** Records of a URL payload, keyed by their JSON property names. */
  const UrlAliases: AliasTable := AliasTable(
    ["name", "fullName", "full_name"],
    ["email"],
    ["phone", "mobile", "contact"],
    ["service", "serviceType"],
    ["vehicle", "vehicleType"],
    ["city", "location"],
    ["rentalDays", "days"],
    ["rentalMonths", "months"],
    ["source"],
    ["campaign", "campaignName"],
    ["keyword", "keywords"],
    ["status"],
    ["notes", "description", "comments"],
    "url_import")

  /** The `notes` field: the first non-empty of the note aliases as a
      one-element list, or the empty list. */
  function PickNotes(m: Record, aliases: seq<string>): (r: seq<string>)
    ensures |r| <= 1
    ensures r == [] <==> forall i :: 0 <= i < |aliases| ==> Get(m, aliases[i]) == ""
    ensures r != [] ==> exists i :: FirstFilled(m, aliases, i) && r == [Get(m, aliases[i])]
  {
    PickSpec(m, aliases, "");
    var v := Pick(m, aliases, "");
    if v != "" then [v] else []
  }

  /** The canonical draft of one record under one alias table. */
  function MapFields(m: Record, t: AliasTable): LeadDraft {
    LeadDraft(
      Pick(m, t.name, ""),
      Pick(m, t.email, ""),
      Pick(m, t.phone, ""),
      Pick(m, t.service, "GENERAL"),
      Pick(m, t.vehicle, ""),
      Pick(m, t.city, ""),
      Pick(m, t.rentalDays, ""),
      Pick(m, t.rentalMonths, ""),
      Pick(m, t.source, t.fallbackSource),
      Pick(m, t.campaign, ""),
      Pick(m, t.keyword, ""),
      Some(Pick(m, t.status, "new")),
      None,
      PickNotes(m, t.notes),
      None, None)
  }

  /** Whatever the record, the mapped draft has a service and a status, no
      assignee, at most one note, and either a source from the record or the
      path's fallback. */
  lemma MapFieldsDefaults(m: Record, t: AliasTable)
    ensures var d := MapFields(m, t);
      && d.service != "" && d.status.Some? && d.status.value != ""
      && d.assignedTo.None? && |d.notes| <= 1
      && (d.source == t.fallbackSource || exists i :: FirstFilled(m, t.source, i) && d.source == Get(m, t.source[i]))
  {
    PickSpec(m, t.service, "GENERAL");
    PickSpec(m, t.status, "new");
    PickSpec(m, t.source, t.fallbackSource);
  }

  /** CSV precedence: a capitalised column beats its lower-case twin, which
      beats the long form, which beats the run-together form; with none of
      the four filled the name is empty. */
  lemma CsvNamePrecedence(m: Record)
    ensures var name := Pick(m, CsvAliases.name, "");
      && (Get(m, "Name") != "" ==> name == m["Name"])
      && (Get(m, "Name") == "" && Get(m, "name") != "" ==> name == m["name"])
      && (Get(m, "Name") == "" && Get(m, "name") == "" && Get(m, "Full Name") != "" ==> name == m["Full Name"])
      && (Get(m, "Name") == "" && Get(m, "name") == "" && Get(m, "Full Name") == "" && Get(m, "fullname") != "" ==>
            name == m["fullname"])
      && (Get(m, "Name") == "" && Get(m, "name") == "" && Get(m, "Full Name") == "" && Get(m, "fullname") == "" ==>
            name == "")
  {
    var a := CsvAliases.name;
    PickSpec(m, a, "");
    if Get(m, "Name") != "" {
      assert FirstFilled(m, a, 0);
    } else if Get(m, "name") != "" {
      assert FirstFilled(m, a, 1);
    } else if Get(m, "Full Name") != "" {
      assert FirstFilled(m, a, 2);
    } else if Get(m, "fullname") != "" {
      assert FirstFilled(m, a, 3);
    }
  }

  /** A record without any of the source aliases gets the path's fallback
      source, which the schema's enum refuses: such a record is never stored. */
  lemma {:induction false} MissingSourceIsRejected(m: Record, t: AliasTable, id: nat, now: int)
    requires t == ExcelAliases || t == CsvAliases || t == UrlAliases
    requires forall i :: 0 <= i < |t.source| ==> Get(m, t.source[i]) == ""
    ensures MapFields(m, t).source == t.fallbackSource
    ensures Validate(MapFields(m, t), id, now).Err?
  {
    PickSpec(m, t.source, t.fallbackSource);
    ImportSourcesRejected(MapFields(m, t), id, now);
  }

  /** The file-import drop rule: rows whose mapped name or email is empty
      never reach the insert loop. */
  predicate Kept(d: LeadDraft) {
    d.name != "" && d.email != ""
  }

  /** The drafts of a sequence of records, one per record, in order. */
  function MapAll(ms: seq<Record>, t: AliasTable): (ds: seq<LeadDraft>)
    ensures |ds| == |ms|
    ensures forall k :: 0 <= k < |ms| ==> ds[k] == MapFields(ms[k], t)
  {
    seq(|ms|, k requires 0 <= k < |ms| => MapFields(ms[k], t))
  }

  /** The drafts that survive the drop rule, in order. */
  function KeptDrafts(ds: seq<LeadDraft>): (r: seq<LeadDraft>)
    ensures |r| <= |ds|
    ensures forall k :: 0 <= k < |r| ==> Kept(r[k])
  {
    if ds == [] then []
    else KeptDrafts(ds[..|ds| - 1]) + (if Kept(ds[|ds| - 1]) then [ds[|ds| - 1]] else [])
  }

  /** A draft survives exactly when it is one of the inputs and has a name
      and an email. */
  lemma {:induction false} KeptDraftsMembers(ds: seq<LeadDraft>, d: LeadDraft)
    ensures d in KeptDrafts(ds) <==> d in ds && Kept(d)
  {
    if ds != [] {
      var init := ds[..|ds| - 1];
      KeptDraftsMembers(init, d);
      assert ds == init + [ds[|ds| - 1]];
    }
  }

  /** Visiting one more row extends the kept drafts by that row's draft when
      it is kept. */
  lemma KeptDraftsStep(ds: seq<LeadDraft>, i: nat)
    requires i < |ds|
    ensures KeptDrafts(ds[..i + 1]) == KeptDrafts(ds[..i]) + (if Kept(ds[i]) then [ds[i]] else [])
  {
    assert ds[..i + 1][..i] == ds[..i];
  }

  // ---------------------------------------------------------------------
  // Excel sheets: the header row and the per-row dictionaries

  /** One cell as the reader sees it; `None` is an empty cell, which the
      cell iteration skips. */
  type Cell = Option<string>

  /** The key a header cell yields: lowercased, then trimmed; absent for an
      empty cell. */
  function HeaderKey(c: Cell): Option<string> {
    match c
    case Some(v) => Some(Trim(ToLower(v)))
    case None => None
  }

  /** Column j of the row feeds key k: its header is k, k is non-empty, and
      the cell is not empty. */
  predicate Feeds(headers: seq<Option<string>>, row: seq<Cell>, k: string, j: int) {
    && 0 <= j < |row| && j < |headers|
    && headers[j] == Some(k) && k != ""
    && row[j].Some?
  }

  /** The dictionary of a row after its first n cells have been visited. */
  function RecordUpTo(headers: seq<Option<string>>, row: seq<Cell>, n: nat): Record
    requires n <= |row|
  {
    if n == 0 then map[]
    else
      var m := RecordUpTo(headers, row, n - 1);
      var j := n - 1;
      if j < |headers| && headers[j].Some? && headers[j].value != "" && row[j].Some?
      then m[headers[j].value := Trim(row[j].value)]
      else m
  }

  /** A key is present iff some visited column feeds it, and its value is the
      trimmed cell of the last such column. */
  lemma {:induction false} RecordUpToSpec(headers: seq<Option<string>>, row: seq<Cell>, n: nat, k: string)
    requires n <= |row|
    ensures var m := RecordUpTo(headers, row, n);
      && (k in m <==> exists j :: 0 <= j < n && Feeds(headers, row, k, j))
      && (k in m ==> exists j :: 0 <= j < n && Feeds(headers, row, k, j) && m[k] == Trim(row[j].value)
                         && forall j' :: j < j' < n ==> !Feeds(headers, row, k, j'))
  {
    if n > 0 {
      RecordUpToSpec(headers, row, n - 1, k);
      var j := n - 1;
      if Feeds(headers, row, k, j) {
        var m := RecordUpTo(headers, row, n);
        assert m[k] == Trim(row[j].value);
      }
    }
  }

  /** A lowered and trimmed header has no upper-case letter and no
      surrounding white space, so an alias with either never matches. */
  lemma HeaderKeyNormal(c: Cell)
    requires HeaderKey(c).Some?
    ensures var k := HeaderKey(c).value;
      NoUpper(k) && (k == [] || (!IsSpace(k[0]) && !IsSpace(k[|k| - 1])))
  {
    var low := ToLower(c.value);
    ToLowerNoUpper(c.value);
    TrimProperties(low);
    var t := Trim(low);
    var p :| OccursAt(low, t, p);
    forall i | 0 <= i < |t| ensures !IsUpper(t[i]) {
      assert t[i] == low[p + i];
    }
  }

  /** Reading the header row: one slot per column, filled from its cell. */
  method ReadHeaders(cells: seq<Cell>) returns (headers: seq<Option<string>>)
    ensures |headers| == |cells|
    ensures forall j :: 0 <= j < |cells| ==> headers[j] == HeaderKey(cells[j])
  {
    headers := [];
    var j := 0;
    while j < |cells|
      invariant 0 <= j <= |cells|
      invariant |headers| == j
      invariant forall i :: 0 <= i < j ==> headers[i] == HeaderKey(cells[i])
    {
      headers := headers + [HeaderKey(cells[j])];
      j := j + 1;
    }
  }

  /** Building the dictionary of one data row, cell by cell. */
  method RowRecord(headers: seq<Option<string>>, row: seq<Cell>) returns (m: Record)
    ensures m == RecordUpTo(headers, row, |row|)
  {
    m := map[];
    var j := 0;
    while j < |row|
      invariant 0 <= j <= |row|
      invariant m == RecordUpTo(headers, row, j)
    {
      if j < |headers| && headers[j].Some? && headers[j].value != "" && row[j].Some? {
        m := m[headers[j].value := Trim(row[j].value)];
      }
      j := j + 1;
    }
  }
}
