/** The activity-log page (frontend/src/app/notifications/page.tsx): the
    action and entity filters over the demonstration logs, the page of 20,
    the badges and labels, and the summary cards. */
module ActivityView {
  import opened Common
  import opened Collections

  /** A log entry as the page shows it. */
  datatype PageLog = PageLog(id: string, userId: string, userName: string, action: string,
                             entityType: string, description: string, createdAt: int)

  predicate FilterActive(f: string) {
    f != "" && f != "all"
  }

  predicate ActionKept(l: PageLog, action: string) {
    !FilterActive(action) || l.action == action
  }

  predicate EntityKept(l: PageLog, entity: string) {
    !FilterActive(entity) || l.entityType == entity
  }

  /** The logs both selects keep, in their stored order. */
  function KeptLogs(logs: seq<PageLog>, action: string, entity: string): seq<PageLog> {
    Where(logs, (l: PageLog) => ActionKept(l, action) && EntityKept(l, entity))
  }

  /** Rows per page. */
  const PageSize: nat := 20

  /** Page `p` of the kept logs holds those from position `(p - 1) * 20` on,
      at most 20 of them, and the page count is the fewest pages of 20
      that hold every kept log: 0 when nothing matches. */
  lemma PageSpec(logs: seq<PageLog>, action: string, entity: string, page: int)
    requires page >= 1
    ensures var kept := KeptLogs(logs, action, entity);
      var shown := JsSlice(kept, (page - 1) * PageSize, (page - 1) * PageSize + PageSize);
      var pages := CeilDiv(|kept|, PageSize);
      && |shown| == Max(0, Min(|kept|, page * PageSize) - (page - 1) * PageSize)
      && (forall i :: 0 <= i < |shown| ==> shown[i] == kept[(page - 1) * PageSize + i])
      && (pages - 1) * PageSize < |kept| <= pages * PageSize
      && (pages == 0 <==> |kept| == 0)
  {
    PageSlice(KeptLogs(logs, action, entity), page, PageSize);
  }

  /** The two conditional `filter` calls of `fetchActivityLogs`: the action
      select, then the entity select, each only when set. */
  method NarrowLogs(mock: seq<PageLog>, action: string, entity: string) returns (filteredData: seq<PageLog>)
    ensures filteredData == KeptLogs(mock, action, entity)
  {
    filteredData := mock;
    ghost var byAction := (l: PageLog) => ActionKept(l, action);
    ghost var both := (l: PageLog) => ActionKept(l, action) && EntityKept(l, entity);
    if FilterActive(action) {
      filteredData := Where(filteredData, (l: PageLog) => l.action == action);
      WhereSame(mock, (l: PageLog) => l.action == action, byAction);
    } else {
      WhereAll(mock, byAction);
    }
    if FilterActive(entity) {
      filteredData := Where(filteredData, (l: PageLog) => l.entityType == entity);
      WhereWhere(mock, byAction, (l: PageLog) => l.entityType == entity, both);
    } else {
      WhereSame(mock, byAction, both);
    }
  }

  // ---------------------------------------------------------------------
  // Badges and labels

  const Green: string := "bg-green-100 text-green-800"
  const Blue: string := "bg-blue-100 text-blue-800"
  const Red: string := "bg-red-100 text-red-800"
  const Purple: string := "bg-purple-100 text-purple-800"
  const Orange: string := "bg-orange-100 text-orange-800"
  const Gray: string := "bg-gray-100 text-gray-800"
  const Yellow: string := "bg-yellow-100 text-yellow-800"

  /** The actions that get a colour of their own. */
  const ColouredActions: seq<string> := ["CREATE_LEAD", "UPDATE_LEAD", "DELETE_LEAD", "IMPORT_LEADS",
                                         "EXPORT_LEADS", "FULL_ACCESS_GRANTED"]

  function ActionColor(action: string): string {
    if action == "CREATE_LEAD" then Green
    else if action == "UPDATE_LEAD" then Blue
    else if action == "DELETE_LEAD" then Red
    else if action == "IMPORT_LEADS" then Purple
    else if action == "EXPORT_LEADS" then Orange
    else if action == "LOGIN" then Gray
    else if action == "LOGOUT" then Gray
    else if action == "FULL_ACCESS_GRANTED" then Yellow
    else Gray
  }

  /** The colours differ in their fourth character, gray and green in
      their sixth. */
  lemma ColoursDistinct()
    ensures [Green[3], Blue[3], Red[3], Purple[3], Orange[3], Yellow[3]] == ['g', 'b', 'r', 'p', 'o', 'y']
    ensures Gray[3] == 'g' && Gray[5] == 'a' && Green[5] == 'e'
  {
  }

  /** Each of the six coloured actions has a badge no other action has,
      and every other action (`LOGIN`, `LOGOUT` or unknown) is gray. */
  lemma ActionColorSpec(a: string, b: string)
    ensures a in ColouredActions && b in ColouredActions && a != b ==> ActionColor(a) != ActionColor(b)
    ensures ActionColor(a) == Gray <==> a !in ColouredActions
  {
    ColoursDistinct();
    var c := ActionColor(a);
    if a in ColouredActions {
      assert c[3] != 'g' || c[5] != 'a';
    }
  }

  function EntityColor(entityType: string): string {
    if entityType == "LEAD" then Blue
    else if entityType == "USER" then Green
    else if entityType == "SYSTEM" then Purple
    else Gray
  }

  /** The three entity types have three different badges, and every other
      value is gray. */
  lemma EntityColorSpec(e: string)
    ensures EntityColor("LEAD") != EntityColor("USER") && EntityColor("USER") != EntityColor("SYSTEM")
    ensures EntityColor("SYSTEM") != EntityColor("LEAD")
    ensures EntityColor(e) == Gray <==> e != "LEAD" && e != "USER" && e != "SYSTEM"
  {
    ColoursDistinct();
  }

  /** A character `\w` matches. */
  predicate IsWordChar(c: char) {
    'a' <= c <= 'z' || 'A' <= c <= 'Z' || '0' <= c <= '9' || c == '_'
  }

  /** `\b\w` matches at `i`: a word character at the start or after a
      non-word character. */
  predicate WordStart(s: string, i: int)
    requires 0 <= i < |s|
  {
    IsWordChar(s[i]) && (i == 0 || !IsWordChar(s[i - 1]))
  }

  function Underscores(s: string): (r: string)
    ensures |r| == |s|
  {
    seq(|s|, i requires 0 <= i < |s| => if s[i] == '_' then ' ' else s[i])
  }

  function Capitalise(s: string): (r: string)
    ensures |r| == |s|
  {
    seq(|s|, i requires 0 <= i < |s| => if WordStart(s, i) then UpperChar(s[i]) else s[i])
  }

  /** `formatAction`: underscores to spaces, lowercase, then each word's
      first letter upper case. */
  function FormatAction(action: string): string {
    Capitalise(ToLower(Underscores(action)))
  }

  lemma LowerKeepsWords(s: string)
    ensures forall i :: 0 <= i < |s| ==> IsWordChar(ToLower(s)[i]) == IsWordChar(s[i])
  {
  }

  lemma UpperLower(c: char)
    ensures LowerChar(UpperChar(LowerChar(c))) == LowerChar(c)
    ensures IsWordChar(UpperChar(c)) == IsWordChar(c)
  {
  }

  /** The label has no underscore, one character per character of the
      action, each word beginning upper case and no other letter upper
      case; up to case, each character is the action's, with `_` read as a
      space. */
  lemma FormatActionSpec(action: string)
    ensures var f := FormatAction(action);
      && |f| == |action|
      && (forall i :: 0 <= i < |f| ==> f[i] != '_')
      && (forall i :: 0 <= i < |f| && IsUpper(f[i]) ==> WordStart(f, i))
      && (forall i :: 0 <= i < |f| && WordStart(f, i) ==> !IsLower(f[i]))
      && (forall i :: 0 <= i < |f| ==> LowerChar(f[i]) == LowerChar(if action[i] == '_' then ' ' else action[i]))
  {
    var u := ToLower(Underscores(action));
    var f := FormatAction(action);
    LowerKeepsWords(Underscores(action));
    forall i | 0 <= i < |f|
      ensures IsWordChar(f[i]) == IsWordChar(u[i])
      ensures LowerChar(f[i]) == LowerChar(if action[i] == '_' then ' ' else action[i])
    {
      UpperLower(u[i]);
      UpperLower(Underscores(action)[i]);
    }
    forall i | 0 <= i < |f| ensures WordStart(f, i) == WordStart(u, i) {
    }
  }

  /** Formatting a label again changes nothing. */
  lemma FormatActionIdempotent(action: string)
    ensures FormatAction(FormatAction(action)) == FormatAction(action)
  {
    var u := ToLower(Underscores(action));
    var f := FormatAction(action);
    var g := FormatAction(f);
    assert Underscores(f) == f;
    var v := ToLower(f);
    forall i | 0 <= i < |f| ensures v[i] == u[i] && IsWordChar(f[i]) == IsWordChar(u[i]) {
      UpperLower(u[i]);
    }
    assert v == u;
  }

  /** `CREATE_LEAD` is shown as `Create Lead`. */
  lemma FormatCreateLead()
    ensures FormatAction("CREATE_LEAD") == "Create Lead"
  {
    var u := ToLower(Underscores("CREATE_LEAD"));
    assert u == "create lead";
    assert WordStart(u, 0) && WordStart(u, 7);
  }

  // ---------------------------------------------------------------------
  // Summary cards

  function UsersOf(logs: seq<PageLog>): set<string> {
    if logs == [] then {} else UsersOf(logs[..|logs| - 1]) + {logs[|logs| - 1].userId}
  }

  /** Some shown log was written by user `u`. */
  predicate HasUser(logs: seq<PageLog>, u: string) {
    exists i :: 0 <= i < |logs| && logs[i].userId == u
  }

  /** The active users are exactly the ids of the shown logs. */
  lemma {:induction false} UsersOfMembers(logs: seq<PageLog>)
    ensures forall u :: u in UsersOf(logs) <==> HasUser(logs, u)
  {
    if logs != [] {
      var init := logs[..|logs| - 1];
      UsersOfMembers(init);
      forall u ensures u in UsersOf(logs) <==> HasUser(logs, u) {
        if HasUser(init, u) {
          var i :| 0 <= i < |init| && init[i].userId == u;
          assert logs[i] == init[i];
        }
        if HasUser(logs, u) {
          var i :| 0 <= i < |logs| && logs[i].userId == u;
          if i < |init| {
            assert init[i] == logs[i];
            assert HasUser(init, u);
          }
        }
      }
    }
  }

  /** There are no more active users than shown logs, and at least one
      when any log is shown. */
  lemma {:induction false} UsersOfSize(logs: seq<PageLog>)
    ensures |UsersOf(logs)| <= |logs|
    ensures |logs| > 0 ==> |UsersOf(logs)| >= 1
  {
    if logs != [] {
      UsersOfSize(logs[..|logs| - 1]);
      assert logs[|logs| - 1].userId in UsersOf(logs);
    }
  }

  datatype Cards = Cards(total: nat, leadOperations: nat, systemEvents: nat, activeUsers: nat)

  function SummaryCards(logs: seq<PageLog>): Cards {
    Cards(|logs|, CountWhere(logs, (l: PageLog) => l.entityType == "LEAD"),
          CountWhere(logs, (l: PageLog) => l.entityType == "SYSTEM"), |UsersOf(logs)|)
  }

  /** Lead operations and system events are counted apart, and neither
      they nor the active users outnumber the shown logs. */
  lemma CardsBounds(logs: seq<PageLog>)
    ensures var c := SummaryCards(logs);
      && c.leadOperations + c.systemEvents <= c.total
      && c.activeUsers <= c.total
      && (c.total > 0 ==> c.activeUsers > 0)
  {
    ExclusiveCounts(logs, (l: PageLog) => l.entityType == "LEAD", (l: PageLog) => l.entityType == "SYSTEM",
                    (l: PageLog) => false);
    UsersOfSize(logs);
  }

  // ---------------------------------------------------------------------
  // The page's state

  class ActivityLogsPage {
    var activityLogs: seq<PageLog>
    var filteredLogs: seq<PageLog>
    var actionFilter: string
    var entityFilter: string
    var currentPage: int
    var totalPages: int
    var loading: bool

    constructor ()
      ensures activityLogs == [] && filteredLogs == [] && actionFilter == "" && entityFilter == ""
      ensures currentPage == 1 && totalPages == 1 && loading
    {
      activityLogs := [];
      filteredLogs := [];
      actionFilter := "";
      entityFilter := "";
      currentPage := 1;
      totalPages := 1;
      loading := true;
    }

    /** `fetchActivityLogs` once its timer fires: the demonstration logs
        narrowed by each active select, then page `currentPage` of 20. */
    method FetchActivityLogs(mock: seq<PageLog>)
      modifies this
      ensures activityLogs == JsSlice(KeptLogs(mock, actionFilter, entityFilter),
                                      (currentPage - 1) * PageSize, (currentPage - 1) * PageSize + PageSize)
      ensures totalPages == CeilDiv(|KeptLogs(mock, actionFilter, entityFilter)|, PageSize)
      ensures !loading
      ensures filteredLogs == old(filteredLogs) && actionFilter == old(actionFilter)
      ensures entityFilter == old(entityFilter) && currentPage == old(currentPage)
    {
      var filteredData := NarrowLogs(mock, actionFilter, entityFilter);
      var startIndex := (currentPage - 1) * PageSize;
      var endIndex := startIndex + PageSize;
      activityLogs := JsSlice(filteredData, startIndex, endIndex);
      totalPages := CeilDiv(|filteredData|, PageSize);
      loading := false;
    }

    /** The effect that copies the fetched logs into the table. */
    method SyncFiltered()
      modifies this
      ensures filteredLogs == activityLogs
      ensures activityLogs == old(activityLogs) && actionFilter == old(actionFilter) && entityFilter == old(entityFilter)
      ensures currentPage == old(currentPage) && totalPages == old(totalPages) && loading == old(loading)
    {
      filteredLogs := activityLogs;
    }
  }
}
