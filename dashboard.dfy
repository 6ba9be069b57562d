/** The lead dashboard (src/app/page.tsx): the client-side search, filter
    and sort of the fetched leads, the figures and charts computed from
    them, the request it sends and the sample-data fallback when the
    request fails. */
module Dashboard {
  import opened Common
  import opened Collections
  import opened Query
  import opened MySqlLeads
  import LeadController

  /** A lead as the page holds it; `createdAt` in milliseconds. */
  datatype CardLead = CardLead(id: string, name: string, email: string, phone: string, service: string,
                               source: string, status: string, createdAt: int)

  function CreatedAt(l: CardLead): int {
    l.createdAt
  }

  /** A select filter applies only when set to something other than `all`. */
  predicate FilterActive(f: string) {
    f != "" && f != "all"
  }

  /** The case-insensitive search over name, email, phone and service. */
  predicate SearchHit(l: CardLead, term: string) {
    var t := ToLower(term);
    Contains(ToLower(l.name), t) || Contains(ToLower(l.email), t)
    || Contains(ToLower(l.phone), t) || Contains(ToLower(l.service), t)
  }

  predicate SearchKept(l: CardLead, term: string) {
    term == "" || SearchHit(l, term)
  }

  predicate SourceKept(l: CardLead, source: string) {
    !FilterActive(source) || l.source == source
  }

  predicate StatusKept(l: CardLead, status: string) {
    !FilterActive(status) || l.status == status
  }

  /** What the three controls together ask of a lead. */
  predicate Kept(l: CardLead, term: string, source: string, status: string) {
    SearchKept(l, term) && SourceKept(l, source) && StatusKept(l, status)
  }

  /** The leads the table shows: the kept leads, newest first. */
  function DashboardView(leads: seq<CardLead>, term: string, source: string, status: string): seq<CardLead> {
    SortNewestFirst(Where(leads, (l: CardLead) => Kept(l, term, source, status)), CreatedAt)
  }

  /** The table shows exactly the kept leads, each as often as fetched,
      newest first. */
  lemma DashboardViewSpec(leads: seq<CardLead>, term: string, source: string, status: string)
    ensures var v := DashboardView(leads, term, source, status);
      && (forall l :: l in v <==> l in leads && Kept(l, term, source, status))
      && multiset(v) == multiset(Where(leads, (l: CardLead) => Kept(l, term, source, status)))
      && multiset(v) <= multiset(leads)
      && NewestFirst(v, CreatedAt)
  {
    var kept := Where(leads, (l: CardLead) => Kept(l, term, source, status));
    WhereSpec(leads, (l: CardLead) => Kept(l, term, source, status));
    SortNewestFirstSpec(kept, CreatedAt);
    forall l ensures l in DashboardView(leads, term, source, status) <==> l in kept {
      assert l in DashboardView(leads, term, source, status) <==> l in multiset(DashboardView(leads, term, source, status));
      assert l in kept <==> l in multiset(kept);
    }
  }

  /** With no search and both selects on `all`, every fetched lead is
      shown. */
  lemma NoFiltersShowAll(leads: seq<CardLead>)
    ensures multiset(DashboardView(leads, "", "all", "all")) == multiset(leads)
  {
    WhereAll(leads, (l: CardLead) => Kept(l, "", "all", "all"));
    SortNewestFirstSpec(leads, CreatedAt);
  }

  // ---------------------------------------------------------------------
  // Figures and charts

  datatype Stats = Stats(total: nat, newLeads: nat, converted: nat, conversionRate: nat)

  predicate IsNew(l: CardLead) {
    l.status == "new"
  }

  predicate IsConverted(l: CardLead) {
    l.status == "converted"
  }

  /** `Math.round(converted / total * 100)`, or 0 without leads. */
  function ConversionRate(converted: nat, total: nat): nat {
    if total > 0 then RoundDiv(100 * converted, total) else 0
  }

  lemma DivBetween(a: int, b: int, k: int)
    requires b > 0 && b * k <= a < b * (k + 1)
    ensures a / b == k
  {
    var d := a / b;
    if d < k {
      MulMonotone(d + 1, k, b);
    }
    if d > k {
      MulMonotone(k + 1, d, b);
    }
  }

  lemma DivBelow(a: int, b: int, k: int)
    requires b > 0 && a < b * k
    ensures a / b < k
  {
    var d := a / b;
    if d >= k {
      MulMonotone(k, d, b);
    }
  }

  /** The rate lies in 0..100, is 0 without conversions and 100 when
      every lead converted. */
  lemma ConversionRateBounds(converted: nat, total: nat)
    requires converted <= total
    ensures ConversionRate(converted, total) <= 100
    ensures converted == 0 ==> ConversionRate(converted, total) == 0
    ensures total > 0 && converted == total ==> ConversionRate(converted, total) == 100
  {
    if total > 0 {
      DivBelow(200 * converted + total, 2 * total, 101);
      if converted == total {
        DivBetween(200 * converted + total, 2 * total, 100);
      }
      if converted == 0 {
        DivBetween(total, 2 * total, 0);
      }
    }
  }

  function DashboardStats(filtered: seq<CardLead>): Stats {
    var converted := CountWhere(filtered, IsConverted);
    Stats(|filtered|, CountWhere(filtered, IsNew), converted, ConversionRate(converted, |filtered|))
  }

  /** New and converted leads are counted apart, together at most the
      total, and the rate is a percentage. */
  lemma StatsBounds(filtered: seq<CardLead>)
    ensures var s := DashboardStats(filtered);
      && s.newLeads + s.converted <= s.total
      && s.conversionRate <= 100
      && (s.total == 0 ==> s.conversionRate == 0)
  {
    var never := (l: CardLead) => false;
    ExclusiveCounts(filtered, IsNew, IsConverted, never);
    ConversionRateBounds(CountWhere(filtered, IsConverted), |filtered|);
  }

  datatype Bar = Bar(name: string, leads: nat)

  function FromSource(source: string): CardLead -> bool {
    (l: CardLead) => l.source == source
  }

  function HasStatus(status: string): CardLead -> bool {
    (l: CardLead) => l.status == status
  }

  function ChartData(filtered: seq<CardLead>): (bars: seq<Bar>)
    ensures |bars| == 3
  {
    [Bar("Website", CountWhere(filtered, FromSource("website"))),
     Bar("Meta", CountWhere(filtered, FromSource("meta"))),
     Bar("Google", CountWhere(filtered, FromSource("google")))]
  }

  /** The three source bars never add up to more than the leads shown;
      leads from other sources are in no bar. */
  lemma ChartWithinTotal(filtered: seq<CardLead>)
    ensures var bars := ChartData(filtered);
      bars[0].leads + bars[1].leads + bars[2].leads <= |filtered|
  {
    ExclusiveCounts(filtered, FromSource("website"), FromSource("meta"), FromSource("google"));
  }

  const Months: seq<string> := ["Jan", "Feb", "Mar", "Apr", "May", "Jun", "Jul", "Aug", "Sep", "Oct", "Nov", "Dec"]

  datatype MonthBar = MonthBar(month: string, leads: nat, website: nat, meta: nat, google: nat)

  /** The leads created in month `index` (0 for January) of `year`;
      `monthOf` and `yearOf` stand for `getMonth` and `getFullYear`. */
  function InMonth(index: int, year: int, monthOf: int -> int, yearOf: int -> int): CardLead -> bool {
    (l: CardLead) => monthOf(l.createdAt) == index && yearOf(l.createdAt) == year
  }

  function MonthBarOf(leads: seq<CardLead>, index: int, name: string, year: int,
                      monthOf: int -> int, yearOf: int -> int): MonthBar {
    var ms := Where(leads, InMonth(index, year, monthOf, yearOf));
    MonthBar(name, |ms|, CountWhere(ms, FromSource("website")), CountWhere(ms, FromSource("meta")),
             CountWhere(ms, FromSource("google")))
  }

  /** `generateMonthlyData` over all fetched leads (not just the shown
      ones). */
  function MonthlyData(leads: seq<CardLead>, year: int, monthOf: int -> int, yearOf: int -> int): (bars: seq<MonthBar>)
    ensures |bars| == 12
  {
    seq(12, i requires 0 <= i < 12 => MonthBarOf(leads, i, Months[i], year, monthOf, yearOf))
  }

  /** Month `i` is labelled with its name, counts exactly the leads of that
      month of the year, and its source counts stay within that count. */
  lemma MonthlySpec(leads: seq<CardLead>, year: int, monthOf: int -> int, yearOf: int -> int, i: nat)
    requires i < 12
    ensures var b := MonthlyData(leads, year, monthOf, yearOf)[i];
      && b.month == Months[i]
      && b.leads == CountWhere(leads, InMonth(i, year, monthOf, yearOf))
      && b.website + b.meta + b.google <= b.leads
  {
    var ms := Where(leads, InMonth(i, year, monthOf, yearOf));
    ExclusiveCounts(ms, FromSource("website"), FromSource("meta"), FromSource("google"));
  }

  // ---------------------------------------------------------------------
  // Fetching

  /** Five minutes in milliseconds. */
  const FiveMinutes: int := 5 * 60 * 1000

  /** The ids of the leads created in the last five minutes. */
  function NewLeadIds(ls: seq<CardLead>, now: int): set<string> {
    set i | 0 <= i < |ls| && ls[i].createdAt > now - FiveMinutes :: ls[i].id
  }

  /** An id is highlighted exactly when some lead with it was created less
      than five minutes ago. */
  lemma NewLeadIdsSpec(ls: seq<CardLead>, now: int)
    ensures forall id :: id in NewLeadIds(ls, now) <==>
      exists l :: l in ls && l.id == id && now - l.createdAt < FiveMinutes
  {
    forall id | exists l :: l in ls && l.id == id && now - l.createdAt < FiveMinutes
      ensures id in NewLeadIds(ls, now)
    {
      var l :| l in ls && l.id == id && now - l.createdAt < FiveMinutes;
      var i :| 0 <= i < |ls| && ls[i] == l;
      assert ls[i].id in NewLeadIds(ls, now);
    }
  }

  /** The query string of the request: an absent key when a select is on
      `all` (the empty string is sent as such). */
  datatype LeadsRequest = LeadsRequest(page: int, limit: int, source: Option<string>, status: Option<string>)

  function RequestOf(page: int, source: string, status: string): LeadsRequest {
    LeadsRequest(page, 10, if source != "all" then Some(source) else None,
                 if status != "all" then Some(status) else None)
  }

  /** What the list handler reads from a query parameter. */
  function Param(p: Option<string>): string {
    match p case Some(v) => v case None => ""
  }

  /** The server filters by source exactly when the page's source select
      is active, and by the chosen source; the same holds for status, and
      every request asks for at most 10 rows. */
  lemma RequestFiltersAsPage(page: int, source: string, status: string)
    ensures var r := RequestOf(page, source, status);
      var o := LeadController.ListOptions(r.page, r.limit, Param(r.source), Param(r.status));
      && ((exists i :: 0 <= i < |FilterClauses(o, true)| && FilterClauses(o, true)[i] == Clause(" AND source = ", Str(source)))
          <==> FilterActive(source))
      && (Param(r.status) != "" <==> FilterActive(status))
      && (FilterActive(status) ==> Param(r.status) == status)
      && (exists i :: 0 <= i < |PagingClauses(o)| && PagingClauses(o)[i] == Clause(" LIMIT ", Num(10)))
  {
    var r := RequestOf(page, source, status);
    var o := LeadController.ListOptions(r.page, r.limit, Param(r.source), Param(r.status));
    ClausesFollowOptions(o);
    assert PagingClauses(o)[0] == Clause(" LIMIT ", Num(10));
    if exists i :: 0 <= i < |FilterClauses(o, true)| && FilterClauses(o, true)[i] == Clause(" AND source = ", Str(source)) {
      assert o.source != "";
    }
  }

  /** The list reply as the page reads it: `data.leads`, top-level
      `leads`, and the two places a page count may be; or a failed
      request. */
  datatype LeadsResponse =
    | Response(nestedLeads: Option<seq<CardLead>>, topLeads: Option<seq<CardLead>>,
               nestedTotalPages: Option<int>, topTotalPages: Option<int>)
    | RequestFailed

  /** `a || b || []` on arrays: any array, even an empty one, is truthy. */
  function LeadsOf(nested: Option<seq<CardLead>>, top: Option<seq<CardLead>>): (ls: seq<CardLead>)
    ensures nested.Some? ==> ls == nested.value
    ensures nested.None? && top.Some? ==> ls == top.value
    ensures nested.None? && top.None? ==> ls == []
  {
    match nested
    case Some(ls) => ls
    case None => match top case Some(ls) => ls case None => []
  }

  /** `a || b || 1` on numbers: 0 is falsy. */
  function TotalPagesOf(nested: Option<int>, top: Option<int>): (n: int)
    ensures n != 0
    ensures nested.Some? && nested.value != 0 ==> n == nested.value
    ensures (nested.None? || nested.value == 0) && top.Some? && top.value != 0 ==> n == top.value
    ensures (nested.None? || nested.value == 0) && (top.None? || top.value == 0) ==> n == 1
  {
    if nested.Some? && nested.value != 0 then nested.value
    else if top.Some? && top.value != 0 then top.value
    else 1
  }

  datatype Fallback = Fallback(leads: seq<CardLead>, totalPages: int)

  /** The sample data filtered by the two selects (not by the search, and
      unsorted), page `page` of 10, and `Math.ceil(n / 10)` pages. */
  function FallbackPage(sample: seq<CardLead>, source: string, status: string, page: int): Fallback {
    var bySource := if FilterActive(source) then Where(sample, FromSource(source)) else sample;
    var byStatus := if FilterActive(status) then Where(bySource, HasStatus(status)) else bySource;
    Fallback(JsSlice(byStatus, (page - 1) * 10, (page - 1) * 10 + 10), CeilDiv(|byStatus|, 10))
  }

  /** The sample leads the selects keep. */
  function SampleKept(sample: seq<CardLead>, source: string, status: string): seq<CardLead> {
    Where(sample, (l: CardLead) => SourceKept(l, source) && StatusKept(l, status))
  }

  lemma SelectsFilter(sample: seq<CardLead>, source: string, status: string)
    ensures var bySource := if FilterActive(source) then Where(sample, FromSource(source)) else sample;
      (if FilterActive(status) then Where(bySource, HasStatus(status)) else bySource)
        == SampleKept(sample, source, status)
  {
    var both := (l: CardLead) => SourceKept(l, source) && StatusKept(l, status);
    var src := (l: CardLead) => SourceKept(l, source);
    var bySource := if FilterActive(source) then Where(sample, FromSource(source)) else sample;
    if FilterActive(source) {
      WhereSame(sample, FromSource(source), src);
    } else {
      WhereAll(sample, src);
    }
    assert bySource == Where(sample, src);
    if FilterActive(status) {
      WhereWhere(sample, src, HasStatus(status), both);
    } else {
      WhereSame(sample, src, both);
    }
  }

  /** Page `p` of the fallback holds the kept sample leads from position
      `(p - 1) * 10` on, at most 10 of them, and the page count is the
      fewest pages of 10 that hold them all (0 when none is kept). */
  lemma FallbackSpec(sample: seq<CardLead>, source: string, status: string, page: int)
    requires page >= 1
    ensures var f := FallbackPage(sample, source, status, page);
      var kept := SampleKept(sample, source, status);
      && |f.leads| == Max(0, Min(|kept|, page * 10) - (page - 1) * 10)
      && (forall i :: 0 <= i < |f.leads| ==> f.leads[i] == kept[(page - 1) * 10 + i])
      && (f.totalPages - 1) * 10 < |kept| <= f.totalPages * 10
      && (|kept| == 0 <==> f.totalPages == 0)
  {
    var kept := SampleKept(sample, source, status);
    FallbackShape(sample, source, status, page);
    PageSlice(kept, page, 10);
  }

  /** The fallback page is a slice of the kept sample leads and its page
      count their number over 10, rounded up. */
  lemma FallbackShape(sample: seq<CardLead>, source: string, status: string, page: int)
    ensures var kept := SampleKept(sample, source, status);
      FallbackPage(sample, source, status, page)
        == Fallback(JsSlice(kept, (page - 1) * 10, (page - 1) * 10 + 10), CeilDiv(|kept|, 10))
  {
    SelectsFilter(sample, source, status);
  }

  // ---------------------------------------------------------------------
  // The page's state

  class DashboardPage {
    var leads: seq<CardLead>
    var filteredLeads: seq<CardLead>
    var sourceFilter: string
    var statusFilter: string
    var searchTerm: string
    var currentPage: int
    var totalPages: int
    var newLeadIds: set<string>

    constructor ()
      ensures leads == [] && filteredLeads == [] && sourceFilter == "" && statusFilter == ""
      ensures searchTerm == "" && currentPage == 1 && totalPages == 1 && newLeadIds == {}
    {
      leads := [];
      filteredLeads := [];
      sourceFilter := "";
      statusFilter := "";
      searchTerm := "";
      currentPage := 1;
      totalPages := 1;
      newLeadIds := {};
    }

    /** The filter effect: search, then source, then status, each only when
        set, then newest first. */
    method ApplyFilters()
      modifies this
      ensures filteredLeads == DashboardView(leads, searchTerm, sourceFilter, statusFilter)
      ensures leads == old(leads) && sourceFilter == old(sourceFilter) && statusFilter == old(statusFilter)
      ensures searchTerm == old(searchTerm) && currentPage == old(currentPage) && totalPages == old(totalPages)
      ensures newLeadIds == old(newLeadIds)
    {
      var term, source, status := searchTerm, sourceFilter, statusFilter;
      var kept := Narrow(leads, term, source, status);
      filteredLeads := SortNewestFirst(kept, CreatedAt);
    }

    /** `fetchLeads` with the answer to its request: the leads and page
        count of the reply, or the filtered sample page when the request
        fails. The highlighted ids are taken from the reply's leads, or
        from the whole sample. */
    method FetchLeads(response: LeadsResponse, sample: seq<CardLead>, now: int)
      modifies this
      ensures response.Response? ==>
        && leads == LeadsOf(response.nestedLeads, response.topLeads)
        && totalPages == TotalPagesOf(response.nestedTotalPages, response.topTotalPages)
        && newLeadIds == NewLeadIds(leads, now)
      ensures response.RequestFailed? ==>
        var f := FallbackPage(sample, old(sourceFilter), old(statusFilter), old(currentPage));
        leads == f.leads && totalPages == f.totalPages && newLeadIds == NewLeadIds(sample, now)
      ensures filteredLeads == old(filteredLeads) && sourceFilter == old(sourceFilter)
      ensures statusFilter == old(statusFilter) && searchTerm == old(searchTerm) && currentPage == old(currentPage)
    {
      match response
      case Response(nested, top, nestedPages, topPages) =>
        var fetched := LeadsOf(nested, top);
        newLeadIds := NewLeadIds(fetched, now);
        leads := fetched;
        totalPages := TotalPagesOf(nestedPages, topPages);
      case RequestFailed =>
        var f := FallbackPage(sample, sourceFilter, statusFilter, currentPage);
        newLeadIds := NewLeadIds(sample, now);
        leads := f.leads;
        totalPages := f.totalPages;
    }
  }

  /** The three filter steps of the effect, each applied only when its
      control is set. */
  method Narrow(leads: seq<CardLead>, term: string, source: string, status: string) returns (filtered: seq<CardLead>)
    ensures filtered == Where(leads, (l: CardLead) => Kept(l, term, source, status))
  {
    ghost var k1 := (l: CardLead) => SearchKept(l, term);
    ghost var k2 := (l: CardLead) => SearchKept(l, term) && SourceKept(l, source);
    ghost var k3 := (l: CardLead) => Kept(l, term, source, status);
    filtered := leads;
    if term != "" {
      filtered := Where(filtered, (l: CardLead) => SearchHit(l, term));
      WhereSame(leads, (l: CardLead) => SearchHit(l, term), k1);
    } else {
      WhereAll(leads, k1);
    }
    assert filtered == Where(leads, k1);
    if FilterActive(source) {
      filtered := Where(filtered, FromSource(source));
      WhereWhere(leads, k1, FromSource(source), k2);
    } else {
      WhereSame(leads, k1, k2);
    }
    assert filtered == Where(leads, k2);
    if FilterActive(status) {
      filtered := Where(filtered, HasStatus(status));
      WhereWhere(leads, k2, HasStatus(status), k3);
    } else {
      WhereSame(leads, k2, k3);
    }
  }
}
