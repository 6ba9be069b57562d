/** What the list endpoints share: MongoDB-style filter documents and their
    meaning, the `skip`/`limit` window of a sorted result, and the
    pagination block of the reply. */
module Query {
  import opened Common
  import opened Collections

  // ---------------------------------------------------------------------
  // Filter documents

  /** One condition of a filter document: equality on a path, a
      `$gte`/`$lte` range on the creation time, or an `$or` of
      case-insensitive `$regex` tests over several paths. */
  datatype Cond =
    | Equals(value: string)
    | Between(gte: Option<int>, lte: Option<int>)
    | AnyMatches(paths: seq<string>, pattern: string)

  /** A filter document: path (or `$or`) to condition. */
  type Filter = map<string, Cond>

  /** The `$regex` test with option `i`, left abstract: does the pattern
      match the text? */
  type Regex = (string, string) -> bool

  /** A document's string-valued paths; absent paths have no value. */
  type Fields = string -> Option<string>

  predicate Holds(c: Cond, value: Option<string>, fields: Fields, time: int, regex: Regex) {
    match c
    case Equals(v) => value == Some(v)
    case Between(lo, hi) => (lo.Some? ==> lo.value <= time) && (hi.Some? ==> time <= hi.value)
    case AnyMatches(paths, pat) =>
      exists i :: 0 <= i < |paths| && fields(paths[i]).Some? && regex(pat, fields(paths[i]).value)
  }

  /** A document matches a filter when it meets every condition; `time` is
      its `createdAt`. */
  predicate Matches(f: Filter, fields: Fields, time: int, regex: Regex) {
    forall k :: k in f ==> Holds(f[k], fields(k), fields, time, regex)
  }

  /** The empty filter matches everything. */
  lemma MatchesEmpty()
    ensures forall fields, time, regex :: Matches(map[], fields, time, regex)
  {
  }

  /** Adding a condition on a fresh path narrows the filter by exactly that
      condition. */
  lemma MatchesAdd(f: Filter, k: string, c: Cond)
    requires k !in f
    ensures forall fields, time, regex :: Matches(f[k := c], fields, time, regex) <==>
      Matches(f, fields, time, regex) && Holds(c, fields(k), fields, time, regex)
  {
    forall fields, time, regex
      ensures Matches(f[k := c], fields, time, regex) <==>
        Matches(f, fields, time, regex) && Holds(c, fields(k), fields, time, regex)
    {
      if Matches(f, fields, time, regex) && Holds(c, fields(k), fields, time, regex) {
        forall j | j in f[k := c] ensures Holds(f[k := c][j], fields(j), fields, time, regex) {
          if j != k {
            assert j in f;
          }
        }
      }
      if Matches(f[k := c], fields, time, regex) {
        forall j | j in f ensures Holds(f[j], fields(j), fields, time, regex) {
          assert j != k && f[k := c][j] == f[j];
        }
        assert k in f[k := c];
      }
    }
  }

  /** `if (value) filter[key] = value`: an equality condition exactly when
      the value was supplied. */
  method AddEquals(f: Filter, key: string, value: string) returns (g: Filter)
    requires key !in f
    ensures g.Keys == f.Keys + (if value != "" then {key} else {})
    ensures forall k :: k in f ==> k in g && g[k] == f[k]
    ensures forall fields, time, regex :: Matches(g, fields, time, regex) <==>
      Matches(f, fields, time, regex) && (value != "" ==> fields(key) == Some(value))
  {
    g := f;
    if value != "" {
      MatchesAdd(f, key, Equals(value));
      g := f[key := Equals(value)];
    }
  }

  /** The creation-time range a query asks for: each bound only when its
      date was given; `parseDate` stands for `new Date(...)`. */
  predicate InDateRange(time: int, dateFrom: string, dateTo: string, parseDate: string -> int) {
    && (dateFrom != "" ==> parseDate(dateFrom) <= time)
    && (dateTo != "" ==> time <= parseDate(dateTo))
  }

  /** The date-range step of every filter builder: a `createdAt` condition
      exactly when either date was given, holding a bound for each given
      date. */
  method AddDateRange(f: Filter, dateFrom: string, dateTo: string, parseDate: string -> int)
    returns (g: Filter)
    requires "createdAt" !in f
    ensures g.Keys == f.Keys + (if dateFrom != "" || dateTo != "" then {"createdAt"} else {})
    ensures forall k :: k in f ==> k in g && g[k] == f[k]
    ensures forall fields, time, regex :: Matches(g, fields, time, regex) <==>
      Matches(f, fields, time, regex) && InDateRange(time, dateFrom, dateTo, parseDate)
  {
    g := f;
    if dateFrom != "" || dateTo != "" {
      var lo: Option<int> := None;
      var hi: Option<int> := None;
      if dateFrom != "" {
        lo := Some(parseDate(dateFrom));
      }
      if dateTo != "" {
        hi := Some(parseDate(dateTo));
      }
      MatchesAdd(f, "createdAt", Between(lo, hi));
      g := f["createdAt" := Between(lo, hi)];
    }
  }

  /** The documents a filter selects, in stored order (`find(filter)` before
      sorting; `countDocuments(filter)` is its length). */
  function Select<T>(docs: seq<T>, f: Filter, fieldsOf: T -> Fields, timeOf: T -> int, regex: Regex): seq<T> {
    Where(docs, (d: T) => Matches(f, fieldsOf(d), timeOf(d), regex))
  }

  /** Selecting keeps exactly the matching documents. */
  lemma SelectSpec<T>(docs: seq<T>, f: Filter, fieldsOf: T -> Fields, timeOf: T -> int, regex: Regex)
    ensures forall d :: d in Select(docs, f, fieldsOf, timeOf, regex) <==>
      d in docs && Matches(f, fieldsOf(d), timeOf(d), regex)
    ensures multiset(Select(docs, f, fieldsOf, timeOf, regex)) <= multiset(docs)
  {
    WhereSpec(docs, (d: T) => Matches(f, fieldsOf(d), timeOf(d), regex));
  }

  // ---------------------------------------------------------------------
  // Windows and pagination

  /** `(page - 1) * limit`, the number of results a page skips. */
  function Skip(page: int, limit: int): int {
    (page - 1) * limit
  }

  /** A cursor's `skip(k).limit(n)`: a limit of 0 means no limit and a
      negative one counts as its magnitude. */
  function Window<T>(s: seq<T>, skip: nat, limit: int): (r: seq<T>)
    ensures |r| <= |s|
  {
    var rest := if skip <= |s| then s[skip..] else [];
    var n := if limit < 0 then -limit else limit;
    if n == 0 || n >= |rest| then rest else rest[..n]
  }

  /** The pagination block of a list reply. `totalPages` is absent where
      `Math.ceil(total / limit)` is not a finite number (a zero limit). */
  datatype Pagination = Pagination(
    totalPages: Option<int>,
    currentPage: int,
    totalCount: nat,
    hasNext: bool,
    hasPrev: bool)

  function Paginate(page: int, limit: int, total: nat): Pagination {
    Pagination(if limit == 0 then None else Some(CeilDiv(total, limit)),
               page, total, page * limit < total, page > 1)
  }

  /** For a real page number and page size, the pagination block is
      consistent: the page count is the fewest pages of `limit` that hold
      every result, there is a next page exactly when this one is not the
      last, and a previous one exactly when this one skips something. */
  lemma PaginationConsistent(page: int, limit: int, total: nat)
    requires page >= 1 && limit >= 1
    ensures var p := Paginate(page, limit, total);
      && p.totalPages.Some?
      && (p.totalPages.value - 1) * limit < total <= p.totalPages.value * limit
      && (p.hasNext <==> page < p.totalPages.value)
      && (p.hasNext <==> Skip(page, limit) + limit < total)
      && (p.hasPrev <==> Skip(page, limit) > 0)
  {
    var n := CeilDiv(total, limit);
    assert (n - 1) * limit < total <= n * limit;
    if page < n {
      MulMonotone(page, n - 1, limit);
    } else {
      MulMonotone(n, page, limit);
    }
    assert Skip(page, limit) + limit == page * limit;
    if page > 1 {
      MulMonotone(1, page - 1, limit);
    }
  }

  lemma MulMonotone(a: int, b: int, c: nat)
    requires a <= b
    ensures a * c <= b * c
  {
  }

  /** The page a window shows: the results from position skip on, at most
      `limit` of them, and a next page is announced exactly when results lie
      beyond it. */
  lemma WindowPage<T>(s: seq<T>, page: int, limit: int)
    requires page >= 1 && limit >= 1
    ensures var r := Window(s, Skip(page, limit), limit);
      && |r| == Max(0, Min(|s|, page * limit) - Skip(page, limit))
      && (forall i :: 0 <= i < |r| ==> r[i] == s[Skip(page, limit) + i])
      && (Paginate(page, limit, |s|).hasNext <==> Skip(page, limit) + |r| < |s|)
  {
    assert Skip(page, limit) >= 0;
    assert Skip(page, limit) + limit == page * limit;
  }

  /** A page of the newest-first ordered selection: the reply of a list
      endpoint before it is rendered. */
  function FindPage<T>(docs: seq<T>, f: Filter, fieldsOf: T -> Fields, timeOf: T -> int,
                       regex: Regex, skip: nat, limit: int): seq<T> {
    Window(SortNewestFirst(Select(docs, f, fieldsOf, timeOf, regex), timeOf), skip, limit)
  }

  /** The window is a contiguous run of its input. */
  lemma WindowRun<T>(s: seq<T>, skip: nat, limit: int)
    ensures var r := Window(s, skip, limit);
      var start := Min(skip, |s|);
      start + |r| <= |s| && r == s[start..start + |r|]
  {
  }

  /** A window of a newest-first sequence keeps the order and holds only
      its elements. */
  lemma WindowOfSorted<T>(sorted: seq<T>, timeOf: T -> int, skip: nat, limit: int)
    requires NewestFirst(sorted, timeOf)
    ensures var r := Window(sorted, skip, limit);
      && (forall i :: 0 <= i < |r| ==> r[i] in sorted)
      && NewestFirst(r, timeOf)
  {
    var r := Window(sorted, skip, limit);
    WindowRun(sorted, skip, limit);
    var start := Min(skip, |sorted|);
    forall i | 0 <= i < |r| ensures r[i] in sorted {
      assert r[i] == sorted[start + i];
    }
    forall i, j | 0 <= i < j < |r| ensures timeOf(r[i]) >= timeOf(r[j]) {
      assert r[i] == sorted[start + i] && r[j] == sorted[start + j];
    }
  }

  /** Everything on a page matches the filter, the page is newest first,
      and it holds no more than the filter selects. */
  lemma FindPageSpec<T>(docs: seq<T>, f: Filter, fieldsOf: T -> Fields, timeOf: T -> int,
                        regex: Regex, skip: nat, limit: int)
    ensures var r := FindPage(docs, f, fieldsOf, timeOf, regex, skip, limit);
      && (forall i :: 0 <= i < |r| ==> r[i] in docs && Matches(f, fieldsOf(r[i]), timeOf(r[i]), regex))
      && NewestFirst(r, timeOf)
      && |r| <= |Select(docs, f, fieldsOf, timeOf, regex)|
  {
    var sel := Select(docs, f, fieldsOf, timeOf, regex);
    var sorted := SortNewestFirst(sel, timeOf);
    SelectSpec(docs, f, fieldsOf, timeOf, regex);
    SortNewestFirstSpec(sel, timeOf);
    WindowOfSorted(sorted, timeOf, skip, limit);
    var r := Window(sorted, skip, limit);
    assert |sorted| == |sel| by {
      assert |multiset(sorted)| == |multiset(sel)|;
    }
    forall i | 0 <= i < |r|
      ensures r[i] in docs && Matches(f, fieldsOf(r[i]), timeOf(r[i]), regex)
    {
      assert r[i] in multiset(sorted);
      assert r[i] in sel;
    }
  }
}
