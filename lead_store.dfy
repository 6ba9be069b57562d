/** The lead collection as the controllers see it: an ordered sequence of
    documents that only valid documents enter, with the lookups and writes
    the controllers perform. */
module LeadStore {
  import opened Common
  import opened LeadSchema
  import opened Ingestion

  /** The first record with the given id. */
  function FindId(rs: seq<Lead>, id: nat): (r: Option<Lead>)
    ensures r.Some? ==> r.value in rs && r.value.id == id
    ensures r.None? ==> forall i :: 0 <= i < |rs| ==> rs[i].id != id
  {
    if rs == [] then None
    else if rs[0].id == id then Some(rs[0])
    else
      var r := FindId(rs[1..], id);
      assert forall i :: 1 <= i < |rs| ==> rs[i] == rs[1..][i - 1];
      r
  }

  /** Every record with the given id replaced by `l`. */
  function ReplaceId(rs: seq<Lead>, id: nat, l: Lead): (r: seq<Lead>)
    ensures |r| == |rs|
    ensures forall i :: 0 <= i < |rs| ==> r[i] == if rs[i].id == id then l else rs[i]
  {
    seq(|rs|, i requires 0 <= i < |rs| => if rs[i].id == id then l else rs[i])
  }

  /** The records without the given id. */
  function RemoveId(rs: seq<Lead>, id: nat): (r: seq<Lead>)
    ensures forall l :: l in r <==> l in rs && l.id != id
    ensures |r| <= |rs|
  {
    if rs == [] then []
    else if rs[0].id == id then RemoveId(rs[1..], id)
    else [rs[0]] + RemoveId(rs[1..], id)
  }

  /** Removing an id nobody has changes nothing. */
  lemma {:induction false} RemoveAbsent(rs: seq<Lead>, id: nat)
    requires forall i :: 0 <= i < |rs| ==> rs[i].id != id
    ensures RemoveId(rs, id) == rs
  {
    if rs != [] {
      RemoveAbsent(rs[1..], id);
      assert rs == [rs[0]] + rs[1..];
    }
  }

  /** The ids strictly increase along the records and all exceed `lo`. */
  predicate IdsAbove(rs: seq<Lead>, lo: int) {
    rs == [] || (lo < rs[0].id && IdsAbove(rs[1..], rs[0].id))
  }

  /** Increasing ids in the pairwise sense: an earlier record has the
      smaller id. */
  lemma {:induction false} IdsAboveIncreasing(rs: seq<Lead>, lo: int)
    requires IdsAbove(rs, lo)
    ensures forall i :: 0 <= i < |rs| ==> lo < rs[i].id
    ensures forall i, j :: 0 <= i < j < |rs| ==> rs[i].id < rs[j].id
  {
    if rs != [] {
      IdsAboveIncreasing(rs[1..], rs[0].id);
      assert forall i :: 1 <= i < |rs| ==> rs[i] == rs[1..][i - 1];
    }
  }

  /** A lower bound below the first id is a bound too. */
  lemma IdsAboveLower(rs: seq<Lead>, lo: int, lo': int)
    requires IdsAbove(rs, lo) && lo' <= lo
    ensures IdsAbove(rs, lo')
  {
  }

  /** Appending a record whose id exceeds every stored one keeps the ids
      increasing. */
  lemma {:induction false} IdsAboveSnoc(rs: seq<Lead>, lo: int, l: Lead)
    requires IdsAbove(rs, lo) && lo < l.id
    requires forall i :: 0 <= i < |rs| ==> rs[i].id < l.id
    ensures IdsAbove(rs + [l], lo)
  {
    if rs == [] {
      assert [l][1..] == [];
    } else {
      assert (rs + [l])[1..] == rs[1..] + [l];
      assert forall i :: 0 <= i < |rs[1..]| ==> rs[1..][i] == rs[i + 1];
      IdsAboveSnoc(rs[1..], rs[0].id, l);
    }
  }

  /** Rewriting the records of an id with a record of the same id keeps the
      ids increasing. */
  lemma {:induction false} IdsAboveReplace(rs: seq<Lead>, lo: int, id: nat, l: Lead)
    requires IdsAbove(rs, lo) && l.id == id
    ensures IdsAbove(ReplaceId(rs, id, l), lo)
  {
    if rs != [] {
      IdsAboveReplace(rs[1..], rs[0].id, id, l);
      assert ReplaceId(rs, id, l)[1..] == ReplaceId(rs[1..], id, l);
    }
  }

  /** Deleting keeps the remaining ids increasing. */
  lemma {:induction false} RemoveIdOrdered(rs: seq<Lead>, lo: int, id: nat)
    requires IdsAbove(rs, lo)
    ensures IdsAbove(RemoveId(rs, id), lo)
  {
    if rs != [] {
      RemoveIdOrdered(rs[1..], rs[0].id, id);
      if rs[0].id == id {
        IdsAboveLower(RemoveId(rs[1..], id), rs[0].id, lo);
      } else {
        assert ([rs[0]] + RemoveId(rs[1..], id))[1..] == RemoveId(rs[1..], id);
      }
    }
  }

  class Store {
    var records: seq<Lead>
    var nextId: nat

    /** Only valid documents are stored, and ids increase in insertion order
        and stay below `nextId`. */
    ghost predicate Valid()
      reads this
    {
      && (forall i :: 0 <= i < |records| ==> ValidLead(records[i]) && records[i].id < nextId)
      && IdsAbove(records, -1)
    }

    constructor ()
      ensures Valid() && records == [] && nextId == 0
    {
      records := [];
      nextId := 0;
    }

    /** `findOne({ email, source })`. */
    function FindOne(email: string, source: string): Option<Lead>
      reads this
    {
      FindPair(records, email, source)
    }

    /** `findById(id)`. */
    function FindById(id: nat): Option<Lead>
      reads this
    {
      FindId(records, id)
    }

    /** `create(draft)`: validate, default, and append; nothing changes on a
        validation error. */
    method Create(d: LeadDraft, now: int) returns (r: Result<Lead, seq<SchemaError>>)
      requires Valid()
      modifies this
      ensures Valid()
      ensures r == Validate(d, old(nextId), now)
      ensures records == if r.Ok? then old(records) + [r.value] else old(records)
      ensures nextId == if r.Ok? then old(nextId) + 1 else old(nextId)
    {
      r := Validate(d, nextId, now);
      if r.Ok? {
        IdsAboveSnoc(records, -1, r.value);
        records := records + [r.value];
        nextId := nextId + 1;
      }
    }

    /** `findByIdAndUpdate(id, patch, { runValidators: true })`: the validators
        run first; then the document with that id, if any, is rewritten. */
    method FindByIdAndUpdate(id: nat, p: LeadPatch) returns (r: Result<Option<Lead>, seq<SchemaError>>)
      requires Valid()
      modifies this
      ensures Valid() && nextId == old(nextId)
      ensures PatchErrors(p) != [] ==> r == Err(PatchErrors(p)) && records == old(records)
      ensures PatchErrors(p) == [] && FindId(old(records), id).None? ==> r == Ok(None) && records == old(records)
      ensures PatchErrors(p) == [] && FindId(old(records), id).Some? ==>
        var updated := ApplyPatch(FindId(old(records), id).value, p);
        r == Ok(Some(updated)) && records == ReplaceId(old(records), id, updated)
    {
      var errs := PatchErrors(p);
      if errs != [] {
        return Err(errs);
      }
      var found := FindId(records, id);
      if found.None? {
        return Ok(None);
      }
      var updated := ApplyPatch(found.value, p);
      IdsAboveReplace(records, -1, id, updated);
      records := ReplaceId(records, id, updated);
      r := Ok(Some(updated));
    }

    /** `findByIdAndDelete(id)`: removes the document and returns it. */
    method FindByIdAndDelete(id: nat) returns (r: Option<Lead>)
      requires Valid()
      modifies this
      ensures Valid() && nextId == old(nextId)
      ensures r == FindId(old(records), id)
      ensures records == RemoveId(old(records), id)
    {
      r := FindId(records, id);
      var rs := records;
      RemoveIdOrdered(rs, -1, id);
      records := RemoveId(rs, id);
      forall i | 0 <= i < |records|
        ensures ValidLead(records[i]) && records[i].id < nextId
      {
        assert records[i] in rs;
        var k :| 0 <= k < |rs| && rs[k] == records[i];
      }
    }
  }
}
