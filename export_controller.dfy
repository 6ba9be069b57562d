/** The lead export (backend/controllers/exportController.js): the filter, the
    newest-first selection, the format dispatch, the spreadsheet rows and the
    CSV text. */
module ExportController {
  import opened Common
  import opened Collections
  import opened LeadSchema
  import opened LeadStore
  import opened Query
  import opened LeadController

  // ---------------------------------------------------------------------
  // Filter and selection

  /** The query of an export; an absent parameter is the empty string. */
  datatype ExportQuery = ExportQuery(format: string, source: string, status: string, dateFrom: string, dateTo: string)

  /** What an export asks of a lead. */
  predicate ExportWanted(q: ExportQuery, fields: Fields, time: int, parseDate: string -> int) {
    && (q.source != "" ==> fields("source") == Some(q.source))
    && (q.status != "" ==> fields("status") == Some(q.status))
    && InDateRange(time, q.dateFrom, q.dateTo, parseDate)
  }

  /** The export filter: a key for each supplied parameter, and a lead
      matches it exactly when the export wants it. */
  method BuildExportFilter(q: ExportQuery, parseDate: string -> int) returns (f: Filter)
    ensures f.Keys == (if q.source != "" then {"source"} else {})
                      + (if q.status != "" then {"status"} else {})
                      + (if q.dateFrom != "" || q.dateTo != "" then {"createdAt"} else {})
    ensures forall fields, time, regex :: Matches(f, fields, time, regex) <==> ExportWanted(q, fields, time, parseDate)
  {
    MatchesEmpty();
    var f1 := AddEquals(map[], "source", q.source);
    var f2 := AddEquals(f1, "status", q.status);
    f := AddDateRange(f2, q.dateFrom, q.dateTo, parseDate);
  }

  /** The export filter holds no pattern condition, so any regex gives the
      same selection. */
  const AnyRegex: Regex := (pattern: string, text: string) => false

  // ---------------------------------------------------------------------
  // Cells

  /** The 17 column headings, shared by the spreadsheet and the CSV. */
  const Columns: seq<string> := ["ID", "Name", "Email", "Phone", "Service", "Vehicle", "City",
    "Rental Days", "Rental Months", "Source", "Campaign", "Keyword", "Status", "Assigned To",
    "Notes", "Created Date", "Last Update"]

  /** The populated assignee's name, or "" without one. `users` maps a user
      id to its name. */
  function AssigneeName(l: Lead, users: map<string, string>): string {
    if l.assignedTo.Some? && l.assignedTo.value in users then users[l.assignedTo.value] else ""
  }

  /** `lead.notes?.[0] || ''`. */
  function FirstNote(notes: seq<string>): string {
    if notes == [] then "" else notes[0]
  }

  /** The 16 cells after the ID, in column order. Absent optional text is the
      empty string already; `showDate` stands for `toLocaleDateString`. */
  function Cells(l: Lead, users: map<string, string>, showDate: int -> string): (c: seq<string>)
    ensures |c| == |Columns| - 1
  {
    [l.name, l.email, l.phone, l.service, l.vehicle, l.city, l.rentalDays, l.rentalMonths,
     l.source, l.campaign, l.keyword, l.status, AssigneeName(l, users), FirstNote(l.notes),
     showDate(l.createdAt), showDate(l.updatedAt)]
  }

  /** Which of the 16 cells the CSV wraps in double quotes: all but source,
      status and the two dates. */
  const Quoted: seq<bool> := [true, true, true, true, true, true, true, true,
                              false, true, true, false, true, true, false, false]

  /** A spreadsheet row: the position-based id and the 16 cells. */
  datatype ExcelRow = ExcelRow(id: nat, cells: seq<string>)

  function ExcelRows(leads: seq<Lead>, users: map<string, string>, showDate: int -> string): (rows: seq<ExcelRow>)
    ensures |rows| == |leads|
  {
    seq(|leads|, i requires 0 <= i < |leads| => ExcelRow(i + 1, Cells(leads[i], users, showDate)))
  }

  // ---------------------------------------------------------------------
  // CSV

  function Quote(s: string): string {
    "\"" + s + "\""
  }

  /** The 17 fields of the CSV line of the lead at position `index`. */
  function CsvFields(index: nat, l: Lead, users: map<string, string>, showDate: int -> string): seq<string> {
    var c := Cells(l, users, showDate);
    [NatToString(index + 1)] + seq(16, k requires 0 <= k < 16 => if Quoted[k] then Quote(c[k]) else c[k])
  }

  function CsvLine(index: nat, l: Lead, users: map<string, string>, showDate: int -> string): string {
    Join(CsvFields(index, l, users, showDate), ",") + "\n"
  }

  /** The header line: the column headings separated by commas. */
  const Header: string :=
    "ID,Name,Email,Phone,Service,Vehicle,City,Rental Days,Rental Months,Source,Campaign,Keyword,Status,Assigned To,Notes,Created Date,Last Update\n"

  function CsvLines(leads: seq<Lead>, users: map<string, string>, showDate: int -> string): (ls: seq<string>)
    ensures |ls| == |leads|
  {
    seq(|leads|, i requires 0 <= i < |leads| => CsvLine(i, leads[i], users, showDate))
  }

  /** `exportToCSV`: the header line, then one line per lead in input
      order. */
  method ExportToCsv(leads: seq<Lead>, users: map<string, string>, showDate: int -> string) returns (csv: string)
    ensures csv == Header + Concat(CsvLines(leads, users, showDate))
  {
    ghost var lines := CsvLines(leads, users, showDate);
    var body := "";
    var i := 0;
    while i < |leads|
      invariant 0 <= i <= |leads|
      invariant body == Concat(lines[..i])
    {
      ConcatSnoc(lines, i);
      var line := CsvLine(i, leads[i], users, showDate);
      assert line == lines[i];
      body := body + line;
      i := i + 1;
    }
    csv := Header + body;
    assert lines[..|leads|] == lines;
  }

  /** A CSV line has one field per column. Its first field is the position
      plus one, the number the spreadsheet row carries as its id; every
      other field is the spreadsheet cell of the same column, quoted or
      not. */
  lemma CsvMatchesExcel(leads: seq<Lead>, users: map<string, string>, showDate: int -> string, i: nat)
    requires i < |leads|
    ensures var f := CsvFields(i, leads[i], users, showDate);
      var x := ExcelRows(leads, users, showDate)[i];
      && |f| == |Columns|
      && AllDigits(f[0]) && ParseNat(f[0]) == x.id == i + 1
      && forall k :: 0 <= k < 16 ==> f[k + 1] == if Quoted[k] then Quote(x.cells[k]) else x.cells[k]
  {
    NatToStringRoundTrip(i + 1);
  }

  /** Down the CSV, the ids are 1, 2, ... in order. */
  lemma CsvIdsCount(leads: seq<Lead>, users: map<string, string>, showDate: int -> string)
    ensures forall i :: 0 <= i < |leads| ==> ParseNat(CsvFields(i, leads[i], users, showDate)[0]) == i + 1
  {
    forall i | 0 <= i < |leads| ensures ParseNat(CsvFields(i, leads[i], users, showDate)[0]) == i + 1 {
      NatToStringRoundTrip(i + 1);
    }
  }

  /** Source and status go out bare, name and email quoted. */
  lemma CsvQuoting(index: nat, l: Lead, users: map<string, string>, showDate: int -> string)
    ensures var f := CsvFields(index, l, users, showDate);
      && f[1] == Quote(l.name) && f[2] == Quote(l.email)
      && f[9] == l.source && f[12] == l.status
      && f[13] == Quote(AssigneeName(l, users)) && f[14] == Quote(FirstNote(l.notes))
  {
    assert Quoted[0] && Quoted[1] && !Quoted[8] && !Quoted[11] && Quoted[12] && Quoted[13];
  }

  // ---------------------------------------------------------------------
  // Reading a quoted field back (section 2.7 of RFC 4180)

  /** The inside of an escaped field: a doubled quote stands for one quote,
      and a lone quote makes it no field at all. */
  function Unescape(s: string): Option<string> {
    if s == [] then Some("")
    else if s[0] != '"' then
      match Unescape(s[1..]) case Some(t) => Some([s[0]] + t) case None => None
    else if |s| >= 2 && s[1] == '"' then
      match Unescape(s[2..]) case Some(t) => Some("\"" + t) case None => None
    else None
  }

  /** What a reader following RFC 4180 makes of an escaped field. */
  function ReadField(f: string): Option<string> {
    if |f| >= 2 && f[0] == '"' && f[|f| - 1] == '"' then Unescape(f[1..|f| - 1]) else None
  }

  lemma {:induction false} UnescapePlain(s: string)
    requires '"' !in s
    ensures Unescape(s) == Some(s)
  {
    if s != [] {
      assert s[0] in s;
      assert forall c :: c in s[1..] ==> c in s;
      UnescapePlain(s[1..]);
      assert [s[0]] + s[1..] == s;
    }
  }

  /** Reading an escaped inside back never lengthens it, and keeps its
      length only when it holds no quote. */
  lemma {:induction false} UnescapeShrinks(s: string)
    ensures Unescape(s).Some? ==> |Unescape(s).value| <= |s|
    ensures Unescape(s).Some? && |Unescape(s).value| == |s| ==> '"' !in s
  {
    if s != [] {
      if s[0] != '"' {
        UnescapeShrinks(s[1..]);
        assert forall c :: c in s ==> c == s[0] || c in s[1..];
      } else if |s| >= 2 && s[1] == '"' {
        UnescapeShrinks(s[2..]);
      }
    }
  }

  /** The CSV quoting survives a reader exactly when the text holds no
      double quote: an embedded quote is not doubled, so such a field reads
      back as something else or as no field at all. */
  lemma QuoteRoundTrip(s: string)
    ensures ReadField(Quote(s)) == Some(s) <==> '"' !in s
  {
    var f := Quote(s);
    assert f[1..|f| - 1] == s;
    if '"' !in s {
      UnescapePlain(s);
    } else {
      UnescapeShrinks(s);
    }
  }

  // ---------------------------------------------------------------------
  // exportLeads

  /** What an export sends: a spreadsheet, a PDF of the leads, CSV text, or
      a 400 for an unknown format. */
  datatype ExportReply =
    | Spreadsheet(rows: seq<ExcelRow>)
    | PdfDocument(leads: seq<Lead>)
    | CsvText(text: string)
    | Invalid(status: nat, message: string)

  const InvalidFormatMessage := "Invalid format. Use excel, pdf, or csv"

  /** `exportLeads`: build the filter, select and order the leads newest
      first, then dispatch on the format. */
  method ExportLeads(store: Store, q: ExportQuery, users: map<string, string>,
                     parseDate: string -> int, showDate: int -> string)
    returns (filter: Filter, leads: seq<Lead>, reply: ExportReply)
    ensures forall fields, time, regex :: Matches(filter, fields, time, regex) <==> ExportWanted(q, fields, time, parseDate)
    ensures leads == SortNewestFirst(Select(store.records, filter, LeadFields, CreatedAt, AnyRegex), CreatedAt)
    ensures reply == (if q.format == "excel" then Spreadsheet(ExcelRows(leads, users, showDate))
                      else if q.format == "pdf" then PdfDocument(leads)
                      else if q.format == "csv" then CsvText(Header + Concat(CsvLines(leads, users, showDate)))
                      else Invalid(400, InvalidFormatMessage))
    ensures forall i :: 0 <= i < |leads| ==>
      leads[i] in store.records && ExportWanted(q, LeadFields(leads[i]), leads[i].createdAt, parseDate)
    ensures NewestFirst(leads, CreatedAt)
    ensures multiset(leads) == multiset(Select(store.records, filter, LeadFields, CreatedAt, AnyRegex))
  {
    filter := BuildExportFilter(q, parseDate);
    var selected := Select(store.records, filter, LeadFields, CreatedAt, AnyRegex);
    leads := SortNewestFirst(selected, CreatedAt);
    SelectSpec(store.records, filter, LeadFields, CreatedAt, AnyRegex);
    SortNewestFirstSpec(selected, CreatedAt);
    forall i | 0 <= i < |leads|
      ensures leads[i] in store.records && ExportWanted(q, LeadFields(leads[i]), leads[i].createdAt, parseDate)
    {
      assert leads[i] in multiset(leads);
      assert leads[i] in selected;
    }
    if q.format == "excel" {
      reply := Spreadsheet(ExcelRows(leads, users, showDate));
    } else if q.format == "pdf" {
      reply := PdfDocument(leads);
    } else if q.format == "csv" {
      var csv := ExportToCsv(leads, users, showDate);
      reply := CsvText(csv);
    } else {
      reply := Invalid(400, InvalidFormatMessage);
    }
  }
}
