/** The SQL the relational lead model sends (backend/models/mysql/Leads.js):
    statements assembled clause by clause with one bound parameter per `?`
    placeholder, and the row shape the list endpoint reads back. */
module MySqlLeads {
  import opened Common

  /** A bound parameter. */
  datatype Param = Str(s: string) | Num(n: int) | Null

  /** Statement text as it is assembled: literal pieces and `?`
      placeholders. */
  datatype Piece = Lit(text: string) | Hole

  type Sql = seq<Piece>

  /** A statement and the parameters bound to its placeholders. */
  datatype Statement = Statement(sql: Sql, params: seq<Param>)

  /** The text the driver receives. */
  function Render(q: Sql): string {
    if q == [] then "" else (match q[0] case Lit(t) => t case Hole => "?") + Render(q[1..])
  }

  function Holes(q: Sql): nat {
    if q == [] then 0 else (if q[0].Hole? then 1 else 0) + Holes(q[1..])
  }

  /** A literal followed by a placeholder holds one placeholder; a lone
      literal holds none. */
  lemma HolesOfTerm(t: string)
    ensures Holes([Lit(t), Hole]) == 1 && Holes([Lit(t)]) == 0
  {
    assert [Lit(t), Hole][1..] == [Hole];
    assert [Hole][1..] == [];
    assert [Lit(t)][1..] == [];
  }

  lemma {:induction false} HolesAppend(a: Sql, b: Sql)
    ensures Holes(a + b) == Holes(a) + Holes(b)
  {
    if a != [] {
      assert (a + b)[0] == a[0];
      assert (a + b)[1..] == a[1..] + b;
      HolesAppend(a[1..], b);
    } else {
      assert a + b == b;
    }
  }

  /** The number of `?` characters in a text. */
  function Placeholders(s: string): nat {
    if s == [] then 0 else (if s[0] == '?' then 1 else 0) + Placeholders(s[1..])
  }

  lemma {:induction false} PlaceholdersAppend(a: string, b: string)
    ensures Placeholders(a + b) == Placeholders(a) + Placeholders(b)
  {
    if a != [] {
      assert (a + b)[0] == a[0];
      assert (a + b)[1..] == a[1..] + b;
      PlaceholdersAppend(a[1..], b);
    } else {
      assert a + b == b;
    }
  }

  lemma {:induction false} NoPlaceholders(s: string)
    requires '?' !in s
    ensures Placeholders(s) == 0
  {
    if s != [] {
      assert s[0] in s;
      assert forall c :: c in s[1..] ==> c in s;
      NoPlaceholders(s[1..]);
    }
  }

  /** No literal piece carries a `?` of its own. */
  predicate LiteralsFree(q: Sql) {
    forall i :: 0 <= i < |q| ==> q[i].Lit? ==> '?' !in q[i].text
  }

  /** When the literal pieces are free of `?`, the text the driver receives
      has exactly one `?` per placeholder. */
  lemma {:induction false} RenderPlaceholders(q: Sql)
    requires LiteralsFree(q)
    ensures Placeholders(Render(q)) == Holes(q)
  {
    if q != [] {
      assert LiteralsFree(q[1..]) by {
        forall i | 0 <= i < |q[1..]| ensures q[1..][i].Lit? ==> '?' !in q[1..][i].text {
          assert q[1..][i] == q[i + 1];
        }
      }
      RenderPlaceholders(q[1..]);
      var first := match q[0] case Lit(t) => t case Hole => "?";
      PlaceholdersAppend(first, Render(q[1..]));
      if q[0].Lit? {
        NoPlaceholders(q[0].text);
      }
    }
  }

  lemma LiteralsFreeAppend(a: Sql, b: Sql)
    requires LiteralsFree(a) && LiteralsFree(b)
    ensures LiteralsFree(a + b)
  {
    forall i | 0 <= i < |a + b| ensures (a + b)[i].Lit? ==> '?' !in (a + b)[i].text {
      if i >= |a| {
        assert (a + b)[i] == b[i - |a|];
      }
    }
  }

  // ---------------------------------------------------------------------
  // findAll / count

  /** The options `findAll` and `count` read. An option is used only when
      truthy: an empty string or a zero number counts as absent. */
  datatype QueryOptions = QueryOptions(source: string, status: string, email: string, limit: int, offset: int)

  /** One optional clause: its text, a placeholder, and the parameter the
      placeholder binds. */
  datatype Clause = Clause(text: string, param: Param)

  function SqlOf(cs: seq<Clause>): (q: Sql)
    ensures Holes(q) == |cs|
  {
    if cs == [] then [] else
      var rest := SqlOf(cs[1..]);
      HolesAppend([Lit(cs[0].text), Hole], rest);
      [Lit(cs[0].text), Hole] + rest
  }

  function ParamsOf(cs: seq<Clause>): (ps: seq<Param>)
    ensures |ps| == |cs|
    ensures forall i :: 0 <= i < |cs| ==> ps[i] == cs[i].param
  {
    seq(|cs|, i requires 0 <= i < |cs| => cs[i].param)
  }

  lemma {:induction false} SqlOfAppend(a: seq<Clause>, b: seq<Clause>)
    ensures SqlOf(a + b) == SqlOf(a) + SqlOf(b)
  {
    if a != [] {
      assert (a + b)[0] == a[0];
      assert (a + b)[1..] == a[1..] + b;
      SqlOfAppend(a[1..], b);
    } else {
      assert a + b == b;
    }
  }

  lemma {:induction false} SqlOfFree(cs: seq<Clause>)
    requires forall i :: 0 <= i < |cs| ==> '?' !in cs[i].text
    ensures LiteralsFree(SqlOf(cs))
  {
    if cs != [] {
      SqlOfFree(cs[1..]);
      LiteralsFreeAppend([Lit(cs[0].text), Hole], SqlOf(cs[1..]));
    }
  }

  const FromLeads := " FROM leads WHERE 1=1"
  const SelectBase := "SELECT *" + FromLeads
  const CountBase := "SELECT COUNT(*) as count" + FromLeads
  const OrderNewestFirst := " ORDER BY created_at DESC"

  /** The filter clauses for the truthy options, in the order source,
      status and (for `findAll` only) email. */
  function FilterClauses(o: QueryOptions, withEmail: bool): seq<Clause> {
    (if o.source != "" then [Clause(" AND source = ", Str(o.source))] else [])
    + (if o.status != "" then [Clause(" AND status = ", Str(o.status))] else [])
    + (if withEmail && o.email != "" then [Clause(" AND email = ", Str(o.email))] else [])
  }

  /** The LIMIT and OFFSET clauses for the truthy options. */
  function PagingClauses(o: QueryOptions): seq<Clause> {
    (if o.limit != 0 then [Clause(" LIMIT ", Num(o.limit))] else [])
    + (if o.offset != 0 then [Clause(" OFFSET ", Num(o.offset))] else [])
  }

  /** The `findAll` statement: the base query, each truthy filter, the
      newest-first ordering, then the truthy LIMIT and OFFSET. */
  function FindAllSql(o: QueryOptions): Sql {
    [Lit(SelectBase)] + SqlOf(FilterClauses(o, true)) + [Lit(OrderNewestFirst)] + SqlOf(PagingClauses(o))
  }

  function FindAllParams(o: QueryOptions): seq<Param> {
    ParamsOf(FilterClauses(o, true)) + ParamsOf(PagingClauses(o))
  }

  lemma ParamsOfAppend(a: seq<Clause>, c: Clause)
    ensures ParamsOf(a + [c]) == ParamsOf(a) + [c.param]
  {
  }

  /** One optional-clause step of the builders: the text gains the clause
      and its placeholder, the parameters gain its value. */
  method AddClause(query: Sql, params: seq<Param>, ghost added: seq<Clause>, c: Clause)
    returns (query': Sql, params': seq<Param>, ghost added': seq<Clause>)
    requires params == ParamsOf(added)
    ensures added' == added + [c]
    ensures query' == query + SqlOf([c])
    ensures params' == ParamsOf(added')
  {
    query' := query + [Lit(c.text), Hole];
    params' := params + [c.param];
    added' := added + [c];
    ParamsOfAppend(added, c);
  }

  /** The filter part both builders share: the base query, then a clause
      for each truthy source, status and (for `findAll`) email option. */
  method FilterQuery(base: string, o: QueryOptions, withEmail: bool) returns (query: Sql, params: seq<Param>)
    ensures query == [Lit(base)] + SqlOf(FilterClauses(o, withEmail))
    ensures params == ParamsOf(FilterClauses(o, withEmail))
  {
    query := [Lit(base)];
    params := [];
    ghost var added: seq<Clause> := [];
    if o.source != "" {
      query, params, added := AddClause(query, params, added, Clause(" AND source = ", Str(o.source)));
    }
    assert query == [Lit(base)] + SqlOf(added);
    if o.status != "" {
      SqlOfAppend(added, [Clause(" AND status = ", Str(o.status))]);
      query, params, added := AddClause(query, params, added, Clause(" AND status = ", Str(o.status)));
    }
    assert query == [Lit(base)] + SqlOf(added);
    if withEmail && o.email != "" {
      SqlOfAppend(added, [Clause(" AND email = ", Str(o.email))]);
      query, params, added := AddClause(query, params, added, Clause(" AND email = ", Str(o.email)));
    }
    assert query == [Lit(base)] + SqlOf(added);
    assert added == FilterClauses(o, withEmail);
  }

  /** `findAll(options)`: the filtered base query, the newest-first
      ordering, then a LIMIT and an OFFSET clause for a truthy limit and
      offset. */
  method FindAllQuery(o: QueryOptions) returns (st: Statement)
    ensures st == Statement(FindAllSql(o), FindAllParams(o))
  {
    var query, params := FilterQuery(SelectBase, o, true);
    query := query + [Lit(OrderNewestFirst)];
    var pquery: Sql := [];
    var pparams: seq<Param> := [];
    ghost var paging: seq<Clause> := [];
    if o.limit != 0 {
      pquery, pparams, paging := AddClause(pquery, pparams, paging, Clause(" LIMIT ", Num(o.limit)));
    }
    assert pquery == SqlOf(paging);
    if o.offset != 0 {
      SqlOfAppend(paging, [Clause(" OFFSET ", Num(o.offset))]);
      pquery, pparams, paging := AddClause(pquery, pparams, paging, Clause(" OFFSET ", Num(o.offset)));
    }
    assert pquery == SqlOf(paging);
    assert paging == PagingClauses(o);
    st := Statement(query + pquery, params + pparams);
  }

  function CountSql(o: QueryOptions): Sql {
    [Lit(CountBase)] + SqlOf(FilterClauses(o, false))
  }

  /** `count(options)`: the same filters as `findAll` except email. */
  method CountQuery(o: QueryOptions) returns (st: Statement)
    ensures st == Statement(CountSql(o), ParamsOf(FilterClauses(o, false)))
  {
    var query, params := FilterQuery(CountBase, o, false);
    st := Statement(query, params);
  }

  /** Every placeholder of the `findAll` statement has exactly one bound
      parameter, whatever the options. */
  lemma FindAllBalanced(o: QueryOptions)
    ensures Holes(FindAllSql(o)) == |FindAllParams(o)|
  {
    var f := SqlOf(FilterClauses(o, true));
    HolesAppend([Lit(SelectBase)], f);
    HolesAppend([Lit(SelectBase)] + f, [Lit(OrderNewestFirst)]);
    HolesAppend([Lit(SelectBase)] + f + [Lit(OrderNewestFirst)], SqlOf(PagingClauses(o)));
  }

  /** The same for `count`. */
  lemma CountBalanced(o: QueryOptions)
    ensures Holes(CountSql(o)) == |ParamsOf(FilterClauses(o, false))|
  {
    HolesAppend([Lit(CountBase)], SqlOf(FilterClauses(o, false)));
  }

  /** A filter clause appears exactly for each truthy filter option, and
      LIMIT and OFFSET exactly for a non-zero limit and offset: a zero
      offset (the first page) sends no OFFSET clause at all. */
  lemma ClausesFollowOptions(o: QueryOptions)
    ensures (exists i :: 0 <= i < |FilterClauses(o, true)| && FilterClauses(o, true)[i] == Clause(" AND source = ", Str(o.source)))
            <==> o.source != ""
    ensures |FilterClauses(o, true)| == (if o.source != "" then 1 else 0) + (if o.status != "" then 1 else 0)
                                        + (if o.email != "" then 1 else 0)
    ensures (exists i :: 0 <= i < |PagingClauses(o)| && PagingClauses(o)[i].text == " OFFSET ") <==> o.offset != 0
    ensures (exists i :: 0 <= i < |PagingClauses(o)| && PagingClauses(o)[i].text == " LIMIT ") <==> o.limit != 0
  {
    var f := FilterClauses(o, true);
    if o.source != "" {
      assert f[0] == Clause(" AND source = ", Str(o.source));
    }
    assert " AND status = " != " AND source = " by {
      assert " AND status = "[7] != " AND source = "[7];
    }
    assert " AND email = " != " AND source = " by {
      assert |" AND email = "| != |" AND source = "|;
    }
    var p := PagingClauses(o);
    assert " LIMIT " != " OFFSET " by {
      assert |" LIMIT "| != |" OFFSET "|;
    }
    if o.offset != 0 {
      assert p[|p| - 1].text == " OFFSET ";
    }
    if o.limit != 0 {
      assert p[0].text == " LIMIT ";
    }
  }

  lemma ClauseTextsFree(o: QueryOptions, withEmail: bool)
    ensures forall i :: 0 <= i < |FilterClauses(o, withEmail)| ==> '?' !in FilterClauses(o, withEmail)[i].text
    ensures forall i :: 0 <= i < |PagingClauses(o)| ==> '?' !in PagingClauses(o)[i].text
  {
    assert '?' !in " AND source = ";
    assert '?' !in " AND status = ";
    assert '?' !in " AND email = ";
    assert '?' !in " LIMIT ";
    assert '?' !in " OFFSET ";
  }

  lemma LitFree(t: string)
    requires '?' !in t
    ensures LiteralsFree([Lit(t)]) && LiteralsFree([Lit(t), Hole])
  {
  }

  lemma BasesFree()
    ensures LiteralsFree([Lit(SelectBase)]) && LiteralsFree([Lit(OrderNewestFirst)])
    ensures LiteralsFree([Lit(CountBase)])
  {
    LitFree(SelectBase);
    LitFree(OrderNewestFirst);
    LitFree(CountBase);
  }

  /** The text the driver receives carries one `?` per bound parameter of
      `findAll` and of `count`. */
  lemma QueriesRendered(o: QueryOptions)
    ensures Placeholders(Render(FindAllSql(o))) == |FindAllParams(o)|
    ensures Placeholders(Render(CountSql(o))) == |ParamsOf(FilterClauses(o, false))|
  {
    ClauseTextsFree(o, true);
    ClauseTextsFree(o, false);
    BasesFree();
    var f := SqlOf(FilterClauses(o, true));
    SqlOfFree(FilterClauses(o, true));
    SqlOfFree(FilterClauses(o, false));
    SqlOfFree(PagingClauses(o));
    LiteralsFreeAppend([Lit(SelectBase)], f);
    LiteralsFreeAppend([Lit(SelectBase)] + f, [Lit(OrderNewestFirst)]);
    LiteralsFreeAppend([Lit(SelectBase)] + f + [Lit(OrderNewestFirst)], SqlOf(PagingClauses(o)));
    LiteralsFreeAppend([Lit(CountBase)], SqlOf(FilterClauses(o, false)));
    RenderPlaceholders(FindAllSql(o));
    RenderPlaceholders(CountSql(o));
    FindAllBalanced(o);
    CountBalanced(o);
  }

  /** `count` never looks at the email option. */
  lemma CountIgnoresEmail(o: QueryOptions, email: string)
    ensures CountSql(o) == CountSql(o.(email := email))
  {
  }

  /** Without an email option, `count` filters exactly as `findAll` does, so
      the total and the page come from the same selection. */
  lemma CountMatchesFindAll(o: QueryOptions)
    requires o.email == ""
    ensures FilterClauses(o, false) == FilterClauses(o, true)
  {
  }

  // ---------------------------------------------------------------------
  // update

  /** The key-value pairs whose value is defined, in key order. Keys pair
      with `undefined` as None. */
  function Defined(data: seq<(string, Option<Param>)>): seq<(string, Param)> {
    if data == [] then []
    else Defined(data[..|data| - 1])
         + (if data[|data| - 1].1.Some? then [(data[|data| - 1].0, data[|data| - 1].1.value)] else [])
  }

  lemma DefinedAppend(data: seq<(string, Option<Param>)>, kv: (string, Option<Param>))
    ensures Defined(data + [kv]) == Defined(data) + (if kv.1.Some? then [(kv.0, kv.1.value)] else [])
  {
    assert (data + [kv])[..|data + [kv]| - 1] == data;
  }

  /** A key survives with its value exactly when that value was defined. */
  lemma {:induction false} DefinedSpec(data: seq<(string, Option<Param>)>)
    ensures forall kv :: kv in Defined(data) <==> (kv.0, Some(kv.1)) in data
  {
    if data != [] {
      DefinedSpec(data[..|data| - 1]);
      assert data == data[..|data| - 1] + [data[|data| - 1]];
    }
  }

  /** `${key} = ?` for each defined key. */
  function SetTerms(d: seq<(string, Param)>): (r: seq<Sql>)
    ensures |r| == |d|
  {
    seq(|d|, i requires 0 <= i < |d| => [Lit(d[i].0 + " = "), Hole])
  }

  function Values(d: seq<(string, Param)>): (r: seq<Param>)
    ensures |r| == |d|
  {
    seq(|d|, i requires 0 <= i < |d| => d[i].1)
  }

  lemma SetTermsAppend(d: seq<(string, Param)>, kv: (string, Param))
    ensures SetTerms(d + [kv]) == SetTerms(d) + [[Lit(kv.0 + " = "), Hole]]
    ensures Values(d + [kv]) == Values(d) + [kv.1]
  {
  }

  /** `fields.join(', ')` over statement pieces. */
  function JoinSql(parts: seq<Sql>, sep: Sql): Sql {
    if parts == [] then []
    else if |parts| == 1 then parts[0]
    else parts[0] + sep + JoinSql(parts[1..], sep)
  }

  /** Joining single-placeholder terms with a placeholder-free separator
      keeps one placeholder per term. */
  lemma {:induction false} JoinSqlHoles(parts: seq<Sql>, sep: Sql)
    requires Holes(sep) == 0
    requires forall i :: 0 <= i < |parts| ==> Holes(parts[i]) == 1
    ensures Holes(JoinSql(parts, sep)) == |parts|
  {
    if |parts| > 1 {
      JoinSqlHoles(parts[1..], sep);
      HolesAppend(parts[0], sep);
      HolesAppend(parts[0] + sep, JoinSql(parts[1..], sep));
    }
  }

  lemma {:induction false} JoinSqlFree(parts: seq<Sql>, sep: Sql)
    requires LiteralsFree(sep)
    requires forall i :: 0 <= i < |parts| ==> LiteralsFree(parts[i])
    ensures LiteralsFree(JoinSql(parts, sep))
  {
    if |parts| > 1 {
      JoinSqlFree(parts[1..], sep);
      LiteralsFreeAppend(parts[0], sep);
      LiteralsFreeAppend(parts[0] + sep, JoinSql(parts[1..], sep));
    }
  }

  const UpdateHead := "UPDATE leads SET "
  const UpdateTail := ", updated_at = NOW() WHERE id = "

  lemma UpdateFrameFree()
    ensures LiteralsFree([Lit(UpdateHead)]) && LiteralsFree([Lit(UpdateTail), Hole])
  {
    assert '?' !in UpdateHead;
    assert '?' !in UpdateTail;
  }

  function UpdateSql(d: seq<(string, Param)>): Sql {
    [Lit(UpdateHead)] + JoinSql(SetTerms(d), [Lit(", ")])
    + [Lit(UpdateTail), Hole]
  }

  /** `update(id, updateData)`: one `key = ?` per defined value, in key
      order, then the `updated_at` stamp and the id; no statement at all
      when no value is defined. */
  method UpdateStatement(id: int, data: seq<(string, Option<Param>)>) returns (r: Option<Statement>)
    ensures r.None? <==> Defined(data) == []
    ensures r.Some? ==> r.value == Statement(UpdateSql(Defined(data)), Values(Defined(data)) + [Num(id)])
  {
    var fields: seq<Sql> := [];
    var values: seq<Param> := [];
    var i := 0;
    while i < |data|
      invariant 0 <= i <= |data|
      invariant fields == SetTerms(Defined(data[..i]))
      invariant values == Values(Defined(data[..i]))
    {
      assert data[..i + 1] == data[..i] + [data[i]];
      DefinedAppend(data[..i], data[i]);
      if data[i].1.Some? {
        SetTermsAppend(Defined(data[..i]), (data[i].0, data[i].1.value));
        fields := fields + [[Lit(data[i].0 + " = "), Hole]];
        values := values + [data[i].1.value];
      }
      i := i + 1;
    }
    assert data[..|data|] == data;
    if |fields| == 0 {
      return None;
    }
    values := values + [Num(id)];
    r := Some(Statement([Lit(UpdateHead)] + JoinSql(fields, [Lit(", ")])
                        + [Lit(UpdateTail), Hole], values));
  }

  /** An update binds one parameter per placeholder, with the id last. */
  lemma UpdateBalanced(id: int, d: seq<(string, Param)>)
    ensures var ps := Values(d) + [Num(id)];
      Holes(UpdateSql(d)) == |ps| && ps[|ps| - 1] == Num(id)
  {
    var terms := SetTerms(d);
    forall i | 0 <= i < |terms| ensures Holes(terms[i]) == 1 {
      assert terms[i] == [Lit(d[i].0 + " = "), Hole];
      HolesOfTerm(d[i].0 + " = ");
    }
    HolesOfTerm(", ");
    HolesOfTerm(UpdateHead);
    HolesOfTerm(UpdateTail);
    JoinSqlHoles(terms, [Lit(", ")]);
    var j := JoinSql(terms, [Lit(", ")]);
    HolesAppend([Lit(UpdateHead)], j);
    HolesAppend([Lit(UpdateHead)] + j, [Lit(UpdateTail), Hole]);
  }

  /** The keys are spliced into the text, so only while no key contains a
      `?` of its own does the text the driver receives carry exactly one `?`
      per bound parameter. */
  lemma UpdateRendered(id: int, d: seq<(string, Param)>)
    requires forall i :: 0 <= i < |d| ==> '?' !in d[i].0
    ensures Placeholders(Render(UpdateSql(d))) == |Values(d) + [Num(id)]|
  {
    UpdateBalanced(id, d);
    var terms := SetTerms(d);
    assert '?' !in " = ";
    forall i | 0 <= i < |terms| ensures LiteralsFree(terms[i]) {
      assert terms[i] == [Lit(d[i].0 + " = "), Hole];
    }
    assert LiteralsFree([Lit(", ")]) by {
      assert '?' !in ", ";
    }
    JoinSqlFree(terms, [Lit(", ")]);
    var j := JoinSql(terms, [Lit(", ")]);
    UpdateFrameFree();
    LiteralsFreeAppend([Lit(UpdateHead)], j);
    LiteralsFreeAppend([Lit(UpdateHead)] + j, [Lit(UpdateTail), Hole]);
    RenderPlaceholders(UpdateSql(d));
  }

  /** A key reaches the statement only with a defined value. */
  lemma UpdateKeys(data: seq<(string, Option<Param>)>)
    ensures forall i :: 0 <= i < |Defined(data)| ==> (Defined(data)[i].0, Some(Defined(data)[i].1)) in data
  {
    DefinedSpec(data);
    forall i | 0 <= i < |Defined(data)| ensures (Defined(data)[i].0, Some(Defined(data)[i].1)) in data {
      assert Defined(data)[i] in Defined(data);
    }
  }

  // ---------------------------------------------------------------------
  // create, and the row read back

  /** The lead data `create` receives. `notes` is absent when the caller
      gives none. */
  datatype NewLead = NewLead(
    name: string, email: string, phone: string, service: string, vehicle: string,
    city: string, rentalDays: string, rentalMonths: string, source: string,
    campaign: string, keyword: string, status: string, notes: Option<seq<string>>)

  const InsertColumns: seq<string> := ["name", "email", "phone", "service", "vehicle", "city",
    "rental_days", "rental_months", "source", "campaign", "keyword", "status", "notes",
    "created_at", "updated_at"]

  /** The notes column: the notes joined with ", ", or NULL without notes. */
  function NotesColumn(notes: Option<seq<string>>): Param {
    match notes
    case Some(ns) => Str(Join(ns, ", "))
    case None => Null
  }

  /** The thirteen parameters of the INSERT, one per column before the two
      `NOW()` timestamps. */
  function CreateParams(d: NewLead): (ps: seq<Param>)
    ensures |ps| == |InsertColumns| - 2
    ensures ps[12] == NotesColumn(d.notes)
  {
    [Str(d.name), Str(d.email), Str(d.phone), Str(d.service), Str(d.vehicle), Str(d.city),
     Str(d.rentalDays), Str(d.rentalMonths), Str(d.source), Str(d.campaign), Str(d.keyword),
     Str(d.status), NotesColumn(d.notes)]
  }

  /** A row of the `leads` table as `SELECT *` returns it; `notes` is NULL
      when stored as NULL. */
  datatype Row = Row(
    id: nat, name: string, email: string, phone: string, service: string, vehicle: string,
    city: string, rentalDays: string, rentalMonths: string, source: string,
    campaign: string, keyword: string, status: string, notes: Option<string>,
    createdAt: int, updatedAt: int)

  /** The row an INSERT of `d` leaves under the new id at time `now`. */
  function Inserted(id: nat, d: NewLead, now: int): (r: Row)
    ensures r.notes == match NotesColumn(d.notes) case Str(s) => Some(s) case _ => None
  {
    Row(id, d.name, d.email, d.phone, d.service, d.vehicle, d.city, d.rentalDays,
        d.rentalMonths, d.source, d.campaign, d.keyword, d.status,
        match d.notes case Some(ns) => Some(Join(ns, ", ")) case None => None,
        now, now)
  }
}
