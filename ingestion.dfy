/** The de-duplication rule shared by every batch source, stated over the
    store's contents as pure folds, and the properties of those folds.

    Two loop shapes occur in the controllers:
    - the import loops (file and URL import, backend/controllers/importController.js)
      look up `(email, source)`, create when absent, and count every other
      outcome, errors included, as skipped;
    - the poll loops (Meta and Google) look up `(email, source)`, create when
      absent and the email is non-empty, count creations, and let a failed
      create escape the loop, which ends the run. */
module Ingestion {
  import opened Common
  import opened LeadSchema

  /** Some stored record has this email and this source. */
  predicate HasPair(rs: seq<Lead>, email: string, source: string) {
    exists i :: 0 <= i < |rs| && rs[i].email == email && rs[i].source == source
  }

  /** `findOne({ email, source })`: the first matching record in insertion order. */
  function FindPair(rs: seq<Lead>, email: string, source: string): (r: Option<Lead>)
    ensures r.Some? <==> HasPair(rs, email, source)
    ensures r.Some? ==> r.value in rs && r.value.email == email && r.value.source == source
  {
    if rs == [] then None
    else if rs[0].email == email && rs[0].source == source then Some(rs[0])
    else
      var r := FindPair(rs[1..], email, source);
      assert HasPair(rs, email, source) ==> HasPair(rs[1..], email, source) by {
        if HasPair(rs, email, source) {
          var i :| 0 <= i < |rs| && rs[i].email == email && rs[i].source == source;
          assert rs[1..][i - 1] == rs[i];
        }
      }
      assert HasPair(rs[1..], email, source) ==> HasPair(rs, email, source) by {
        if HasPair(rs[1..], email, source) {
          var i :| 0 <= i < |rs[1..]| && rs[1..][i].email == email && rs[1..][i].source == source;
          assert rs[i + 1] == rs[1..][i];
        }
      }
      r
  }

  /** No two stored records share an `(email, source)` pair. */
  predicate UniquePairs(rs: seq<Lead>) {
    forall i, j :: 0 <= i < j < |rs| ==> !(rs[i].email == rs[j].email && rs[i].source == rs[j].source)
  }

  lemma HasPairAppend(rs: seq<Lead>, l: Lead, email: string, source: string)
    ensures HasPair(rs + [l], email, source) <==>
      HasPair(rs, email, source) || (l.email == email && l.source == source)
  {
    if HasPair(rs + [l], email, source) {
      var i :| 0 <= i < |rs + [l]| && (rs + [l])[i].email == email && (rs + [l])[i].source == source;
      if i < |rs| { assert rs[i] == (rs + [l])[i]; }
    }
    if HasPair(rs, email, source) {
      var i :| 0 <= i < |rs| && rs[i].email == email && rs[i].source == source;
      assert (rs + [l])[i] == rs[i];
    }
    if l.email == email && l.source == source {
      assert (rs + [l])[|rs|] == l;
    }
  }

  lemma HasPairPrefix(rs: seq<Lead>, more: seq<Lead>, email: string, source: string)
    requires HasPair(rs, email, source)
    ensures HasPair(rs + more, email, source)
  {
    var i :| 0 <= i < |rs| && rs[i].email == email && rs[i].source == source;
    assert (rs + more)[i] == rs[i];
  }

  lemma UniqueAppend(rs: seq<Lead>, l: Lead)
    requires UniquePairs(rs) && !HasPair(rs, l.email, l.source)
    ensures UniquePairs(rs + [l])
  {
    var rs' := rs + [l];
    forall i, j | 0 <= i < j < |rs'|
      ensures !(rs'[i].email == rs'[j].email && rs'[i].source == rs'[j].source)
    {
      if j == |rs| {
        assert rs'[i] == rs[i];
      } else {
        assert rs'[i] == rs[i] && rs'[j] == rs[j];
      }
    }
  }

  // ===================================================================
  // The import loop

  /** Loop state of an import run: store contents, next id, and the two counters. */
  datatype ImportState = ImportState(records: seq<Lead>, nextId: nat, imported: nat, skipped: nat)

  /** One iteration of the import loop for one candidate. `None` stands for
      a record whose field mapping threw (a `null` element of a URL payload). */
  function ImportStep(st: ImportState, c: Option<LeadDraft>, now: int): ImportState {
    match c
    case None => st.(skipped := st.skipped + 1)
    case Some(d) =>
      if HasPair(st.records, d.email, d.source) then st.(skipped := st.skipped + 1)
      else match Validate(d, st.nextId, now)
        case Ok(l) => ImportState(st.records + [l], st.nextId + 1, st.imported + 1, st.skipped)
        case Err(_) => st.(skipped := st.skipped + 1)
  }

  /** The URL import loop's own step, with its extra `name && email` guard
      before the create. */
  function UrlImportStep(st: ImportState, c: Option<LeadDraft>, now: int): ImportState {
    match c
    case None => st.(skipped := st.skipped + 1)
    case Some(d) =>
      if !HasPair(st.records, d.email, d.source) && d.name != "" && d.email != "" then
        match Validate(d, st.nextId, now)
        case Ok(l) => ImportState(st.records + [l], st.nextId + 1, st.imported + 1, st.skipped)
        case Err(_) => st.(skipped := st.skipped + 1)
      else st.(skipped := st.skipped + 1)
  }

  /** The URL import's `name && email` guard changes nothing: the schema
      rejects exactly those drafts anyway, so both loops take the same step. */
  lemma UrlGuardRedundant(st: ImportState, c: Option<LeadDraft>, now: int)
    ensures UrlImportStep(st, c, now) == ImportStep(st, c, now)
  {
  }

  /** The rest of an import run from state `st` over candidates `cs`. */
  function ImportFrom(st: ImportState, cs: seq<Option<LeadDraft>>, now: int): ImportState
    decreases |cs|
  {
    if cs == [] then st else ImportFrom(ImportStep(st, cs[0], now), cs[1..], now)
  }

  /** Every candidate is counted exactly once; the store only grows, by one
      record per import, and ids advance with it. */
  lemma {:induction false} ImportCounts(st: ImportState, cs: seq<Option<LeadDraft>>, now: int)
    ensures var r := ImportFrom(st, cs, now);
      && r.imported + r.skipped == st.imported + st.skipped + |cs|
      && r.imported >= st.imported
      && |r.records| == |st.records| + (r.imported - st.imported)
      && r.records[..|st.records|] == st.records
      && r.nextId == st.nextId + (r.imported - st.imported)
    decreases |cs|
  {
    if cs != [] {
      var st' := ImportStep(st, cs[0], now);
      ImportCounts(st', cs[1..], now);
      var r := ImportFrom(st', cs[1..], now);
      assert r.records[..|st.records|] == r.records[..|st'.records|][..|st.records|];
    }
  }

  /** An import run never creates a second record for an `(email, source)` pair. */
  lemma {:induction false} ImportKeepsUnique(st: ImportState, cs: seq<Option<LeadDraft>>, now: int)
    requires UniquePairs(st.records)
    ensures UniquePairs(ImportFrom(st, cs, now).records)
    decreases |cs|
  {
    if cs != [] {
      var st' := ImportStep(st, cs[0], now);
      if cs[0].Some? && !HasPair(st.records, cs[0].value.email, cs[0].value.source) {
        match Validate(cs[0].value, st.nextId, now)
        case Ok(l) => UniqueAppend(st.records, l);
        case Err(_) =>
      }
      ImportKeepsUnique(st', cs[1..], now);
    }
  }

  /** After a run, every candidate either has its pair stored or is one the
      schema rejects. */
  lemma {:induction false} ImportSettles(st: ImportState, cs: seq<Option<LeadDraft>>, now: int)
    ensures var r := ImportFrom(st, cs, now);
      forall k :: 0 <= k < |cs| && cs[k].Some? ==>
        HasPair(r.records, cs[k].value.email, cs[k].value.source) || Errors(cs[k].value) != []
    decreases |cs|
  {
    if cs != [] {
      var st' := ImportStep(st, cs[0], now);
      ImportSettles(st', cs[1..], now);
      ImportCounts(st', cs[1..], now);
      var r := ImportFrom(st', cs[1..], now);
      assert r.records == st'.records + r.records[|st'.records|..];
      if cs[0].Some? {
        var d := cs[0].value;
        if HasPair(st.records, d.email, d.source) {
          HasPairPrefix(st'.records, r.records[|st'.records|..], d.email, d.source);
        } else if Errors(d) == [] {
          HasPairAppend(st.records, Validate(d, st.nextId, now).value, d.email, d.source);
          HasPairPrefix(st'.records, r.records[|st'.records|..], d.email, d.source);
        }
      }
      forall k | 1 <= k < |cs| && cs[k].Some?
        ensures HasPair(r.records, cs[k].value.email, cs[k].value.source) || Errors(cs[k].value) != []
      {
        assert cs[1..][k - 1] == cs[k];
      }
    }
  }

  /** A candidate is settled in a store when its pair is already there or the
      schema rejects it. */
  predicate Settled(rs: seq<Lead>, c: Option<LeadDraft>) {
    c.Some? ==> HasPair(rs, c.value.email, c.value.source) || Errors(c.value) != []
  }

  /** When every candidate is settled, a run stores nothing and counts every
      candidate as skipped. */
  lemma {:induction false} ImportNoOp(st: ImportState, cs: seq<Option<LeadDraft>>, now: int)
    requires forall k :: 0 <= k < |cs| ==> Settled(st.records, cs[k])
    ensures ImportFrom(st, cs, now) == st.(skipped := st.skipped + |cs|)
    decreases |cs|
  {
    if cs != [] {
      assert Settled(st.records, cs[0]);
      var st' := ImportStep(st, cs[0], now);
      assert st' == st.(skipped := st.skipped + 1);
      forall k | 0 <= k < |cs[1..]| ensures Settled(st'.records, cs[1..][k]) {
        assert cs[1..][k] == cs[k + 1];
      }
      ImportNoOp(st', cs[1..], now);
    }
  }

  /** Importing the same candidates a second time imports nothing and leaves
      the store as the first run left it. */
  lemma ImportIdempotent(st: ImportState, cs: seq<Option<LeadDraft>>, now: int, later: int)
    ensures var r1 := ImportFrom(st, cs, now);
      var r2 := ImportFrom(r1.(imported := 0, skipped := 0), cs, later);
      r2.records == r1.records && r2.nextId == r1.nextId && r2.imported == 0 && r2.skipped == |cs|
  {
    var r1 := ImportFrom(st, cs, now);
    ImportSettles(st, cs, now);
    forall k | 0 <= k < |cs| ensures Settled(r1.records, cs[k]) { }
    ImportNoOp(r1.(imported := 0, skipped := 0), cs, later);
  }

  /** Candidates whose source is one of the import fallbacks are all skipped:
      nothing is stored. */
  lemma ImportFallbackSourcesStoreNothing(st: ImportState, cs: seq<Option<LeadDraft>>, now: int)
    requires forall k :: 0 <= k < |cs| && cs[k].Some? ==>
      cs[k].value.source == "import" || cs[k].value.source == "url_import"
    ensures ImportFrom(st, cs, now) == st.(skipped := st.skipped + |cs|)
  {
    forall k | 0 <= k < |cs| ensures Settled(st.records, cs[k]) {
      if cs[k].Some? { ImportSourcesRejected(cs[k].value, 0, now); }
    }
    ImportNoOp(st, cs, now);
  }

  // ===================================================================
  // The poll loop (Meta and Google)

  /** Loop state of a poll: store contents, next id, new-lead counter, and
      the validation error that escaped the loop, if any. */
  datatype PollState = PollState(records: seq<Lead>, nextId: nat, added: nat, failure: Option<seq<SchemaError>>)

  /** One iteration: create when the email is non-empty and its pair absent;
      a failed create is an exception that ends the loop. */
  function PollStep(st: PollState, d: LeadDraft, now: int): PollState {
    if !HasPair(st.records, d.email, d.source) && d.email != "" then
      match Validate(d, st.nextId, now)
      case Ok(l) => PollState(st.records + [l], st.nextId + 1, st.added + 1, None)
      case Err(e) => st.(failure := Some(e))
    else st
  }

  function PollFrom(st: PollState, ds: seq<LeadDraft>, now: int): PollState
    decreases |ds|
  {
    if ds == [] || st.failure.Some? then st else PollFrom(PollStep(st, ds[0], now), ds[1..], now)
  }

  /** A poll adds at most one record per fetched lead, only appends, and
      counts exactly what it appends. */
  lemma {:induction false} PollCounts(st: PollState, ds: seq<LeadDraft>, now: int)
    ensures var r := PollFrom(st, ds, now);
      && st.added <= r.added <= st.added + |ds|
      && |r.records| == |st.records| + (r.added - st.added)
      && r.records[..|st.records|] == st.records
      && r.nextId == st.nextId + (r.added - st.added)
      && (st.failure.Some? ==> r == st)
    decreases |ds|
  {
    if ds != [] && st.failure.None? {
      var st' := PollStep(st, ds[0], now);
      PollCounts(st', ds[1..], now);
      var r := PollFrom(st', ds[1..], now);
      assert r.records[..|st.records|] == r.records[..|st'.records|][..|st.records|];
    }
  }

  lemma {:induction false} PollKeepsUnique(st: PollState, ds: seq<LeadDraft>, now: int)
    requires UniquePairs(st.records)
    ensures UniquePairs(PollFrom(st, ds, now).records)
    decreases |ds|
  {
    if ds != [] && st.failure.None? {
      var d := ds[0];
      if !HasPair(st.records, d.email, d.source) && d.email != "" {
        match Validate(d, st.nextId, now)
        case Ok(l) => UniqueAppend(st.records, l);
        case Err(_) =>
      }
      PollKeepsUnique(PollStep(st, d, now), ds[1..], now);
    }
  }

  /** After a poll that ran to the end, every fetched lead with an email has
      its pair stored. */
  lemma {:induction false} PollSettles(st: PollState, ds: seq<LeadDraft>, now: int)
    requires PollFrom(st, ds, now).failure.None?
    ensures var r := PollFrom(st, ds, now);
      forall k :: 0 <= k < |ds| && ds[k].email != "" ==> HasPair(r.records, ds[k].email, ds[k].source)
    decreases |ds|
  {
    if ds != [] {
      var d := ds[0];
      var st' := PollStep(st, d, now);
      assert st'.failure.None?;
      PollSettles(st', ds[1..], now);
      PollCounts(st', ds[1..], now);
      var r := PollFrom(st', ds[1..], now);
      assert r.records == st'.records + r.records[|st'.records|..];
      if d.email != "" {
        if HasPair(st.records, d.email, d.source) {
          HasPairPrefix(st'.records, r.records[|st'.records|..], d.email, d.source);
        } else {
          HasPairAppend(st.records, Validate(d, st.nextId, now).value, d.email, d.source);
          HasPairPrefix(st'.records, r.records[|st'.records|..], d.email, d.source);
        }
      }
      forall k | 1 <= k < |ds| && ds[k].email != ""
        ensures HasPair(r.records, ds[k].email, ds[k].source)
      {
        assert ds[1..][k - 1] == ds[k];
      }
    }
  }

  /** When every fetched lead lacks an email or already has its pair stored,
      a poll changes nothing. */
  lemma {:induction false} PollNoOp(st: PollState, ds: seq<LeadDraft>, now: int)
    requires st.failure.None?
    requires forall k :: 0 <= k < |ds| ==> ds[k].email == "" || HasPair(st.records, ds[k].email, ds[k].source)
    ensures PollFrom(st, ds, now) == st
    decreases |ds|
  {
    if ds != [] {
      assert PollStep(st, ds[0], now) == st;
      forall k | 0 <= k < |ds[1..]|
        ensures ds[1..][k].email == "" || HasPair(st.records, ds[1..][k].email, ds[1..][k].source)
      {
        assert ds[1..][k] == ds[k + 1];
      }
      PollNoOp(st, ds[1..], now);
    }
  }

  /** Re-polling an unchanged upstream set after a poll that ran to the end
      adds zero leads and leaves the store as it was. */
  lemma PollIdempotent(st: PollState, ds: seq<LeadDraft>, now: int, later: int)
    requires PollFrom(st, ds, now).failure.None?
    ensures var r1 := PollFrom(st, ds, now);
      PollFrom(r1.(added := 0), ds, later) == r1.(added := 0)
  {
    var r1 := PollFrom(st, ds, now);
    PollSettles(st, ds, now);
    PollNoOp(r1.(added := 0), ds, later);
  }

  /** A poll over drafts that all carry one source appends only records of
      that source, each with a non-empty email. */
  lemma {:induction false} PollAppendsOnly(st: PollState, ds: seq<LeadDraft>, now: int, source: string)
    requires forall k :: 0 <= k < |ds| ==> ds[k].source == source
    ensures var r := PollFrom(st, ds, now);
      forall k :: |st.records| <= k < |r.records| ==> r.records[k].source == source && r.records[k].email != ""
    decreases |ds|
  {
    PollCounts(st, ds, now);
    if ds != [] && st.failure.None? {
      var st' := PollStep(st, ds[0], now);
      assert forall k :: 0 <= k < |ds[1..]| ==> ds[1..][k] == ds[k + 1];
      PollAppendsOnly(st', ds[1..], now, source);
      PollCounts(st', ds[1..], now);
      var r := PollFrom(st', ds[1..], now);
      forall k | |st.records| <= k < |r.records| ensures r.records[k].source == source && r.records[k].email != "" {
        if k < |st'.records| {
          assert r.records[k] == r.records[..|st'.records|][k] == st'.records[k];
        }
      }
    }
  }
}
