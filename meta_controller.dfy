/** The Meta lead-ads integration (backend/controllers/metaController.js):
    the scheduled poll over fetched lead-ad records, the webhook
    subscription check, and the webhook event handler. */
module MetaController {
  import opened Common
  import opened LeadSchema
  import opened Ingestion
  import opened LeadStore
  import opened Polling

  /** One `field_data` entry of a lead-ad record. */
  datatype FieldDatum = FieldDatum(name: string, values: seq<string>)

  /** `field_data.find(f => f.name === n)?.values[0] || ''`. */
  function FieldValue(fd: seq<FieldDatum>, n: string): string {
    if fd == [] then ""
    else if fd[0].name == n then (if fd[0].values != [] then fd[0].values[0] else "")
    else FieldValue(fd[1..], n)
  }

  /** The value is the first value of the first entry carrying the name, or
      empty when there is no such entry or it has no values. */
  lemma {:induction false} FieldValueSpec(fd: seq<FieldDatum>, n: string)
    ensures (forall k :: 0 <= k < |fd| ==> fd[k].name != n) ==> FieldValue(fd, n) == ""
    ensures forall k :: 0 <= k < |fd| && fd[k].name == n && (forall j :: 0 <= j < k ==> fd[j].name != n) ==>
      FieldValue(fd, n) == if fd[k].values != [] then fd[k].values[0] else ""
  {
    if fd != [] && fd[0].name != n {
      FieldValueSpec(fd[1..], n);
      assert forall k :: 1 <= k < |fd| ==> fd[k] == fd[1..][k - 1];
    }
  }

  /** The draft of one polled record: contact fields from `field_data`, the
      source always `meta`. */
  function MetaDraft(fd: seq<FieldDatum>): (d: LeadDraft)
    ensures d.source == "meta" && d.status.None? && d.notes == []
  {
    LeadDraft(FieldValue(fd, "full_name"), FieldValue(fd, "email"), FieldValue(fd, "phone_number"),
              "", "", "", "", "", "meta", FieldValue(fd, "campaign_name"), "", None, None, [], None, None)
  }

  /** The drafts of the fetched records, `field_data` per record. */
  function MetaDrafts(records: seq<seq<FieldDatum>>): (ds: seq<LeadDraft>)
    ensures |ds| == |records|
    ensures forall k :: 0 <= k < |records| ==> ds[k] == MetaDraft(records[k]) && ds[k].source == "meta"
  {
    seq(|records|, k requires 0 <= k < |records| => MetaDraft(records[k]))
  }

  const Placeholder := "your_meta_access_token"

  /** The poll runs only with a token that is present, non-empty and not the
      placeholder. */
  predicate Configured(token: Option<string>) {
    token.Some? && token.value != "" && token.value != Placeholder
  }

  /** `fetchMetaLeads`. `fetched` is the Graph API's list of records (each
      its `field_data`) or the error the request failed with; `viaHttp` says
      whether the call came with a response object. */
  method FetchMetaLeads(store: Store, token: Option<string>, fetched: Result<seq<seq<FieldDatum>>, string>,
                        viaHttp: bool, now: int) returns (reply: PollReply)
    requires store.Valid()
    modifies store
    ensures store.Valid()
    ensures !Configured(token) ==>
      reply == NotConfiguredReply(viaHttp, "Meta API not configured")
      && store.records == old(store.records) && store.nextId == old(store.nextId)
    ensures Configured(token) && fetched.Err? ==>
      reply == FailureReply(viaHttp, fetched.error, "Meta API error occurred")
      && store.records == old(store.records) && store.nextId == old(store.nextId)
    ensures Configured(token) && fetched.Ok? ==>
      var ds := MetaDrafts(fetched.value);
      var r := PollFrom(PollState(old(store.records), old(store.nextId), 0, None), ds, now);
      && store.records == r.records && store.nextId == r.nextId
      && reply == (if r.failure.Some? then FailureReply(viaHttp, ErrorMessage(r.failure.value), "Meta API error occurred")
                   else Summary(FetchedMessage("Meta", |ds|, r.added), r.added))
  {
    if !Configured(token) {
      return NotConfiguredReply(viaHttp, "Meta API not configured");
    }
    if fetched.Err? {
      return FailureReply(viaHttp, fetched.error, "Meta API error occurred");
    }
    var leads := MetaDrafts(fetched.value);
    var added, failure := PollInsert(store, leads, now);
    if failure.Some? {
      return FailureReply(viaHttp, ErrorMessage(failure.value), "Meta API error occurred");
    }
    reply := Summary(FetchedMessage("Meta", |leads|, added), added);
  }

  /** A Meta poll creates only `meta` records with an email whose pair was
      absent, at most one per fetched record, and adds exactly what it
      reports. */
  lemma MetaPollBounds(rs: seq<Lead>, nextId: nat, records: seq<seq<FieldDatum>>, now: int)
    ensures var r := PollFrom(PollState(rs, nextId, 0, None), MetaDrafts(records), now);
      && r.added <= |records|
      && |r.records| == |rs| + r.added
      && r.records[..|rs|] == rs
      && forall k :: |rs| <= k < |r.records| ==> r.records[k].source == "meta" && r.records[k].email != ""
  {
    PollCounts(PollState(rs, nextId, 0, None), MetaDrafts(records), now);
    PollAppendsOnly(PollState(rs, nextId, 0, None), MetaDrafts(records), now, "meta");
  }

  /** A record without `full_name` makes the schema refuse the create, and
      the exception ends the poll with the generic failure. */
  lemma NamelessRecordFails(fd: seq<FieldDatum>, id: nat, now: int)
    requires FieldValue(fd, "full_name") == "" && FieldValue(fd, "email") != ""
    ensures Validate(MetaDraft(fd), id, now) == Err([Required("name")])
  {
    var d := MetaDraft(fd);
    assert d.name == "" && d.email != "" && d.status.None?;
    assert Sources[1] == "meta";
    assert d.source in Sources;
    assert Errors(d) == [Required("name")] + [] + [] + [];
    assert Errors(d) == [Required("name")];
  }

  /** Polling an unchanged upstream set again after a poll that ran to the
      end adds nothing and changes nothing. */
  lemma MetaRepollAddsNothing(rs: seq<Lead>, nextId: nat, records: seq<seq<FieldDatum>>, now: int, later: int)
    requires PollFrom(PollState(rs, nextId, 0, None), MetaDrafts(records), now).failure.None?
    ensures var r1 := PollFrom(PollState(rs, nextId, 0, None), MetaDrafts(records), now);
      var r2 := PollFrom(PollState(r1.records, r1.nextId, 0, None), MetaDrafts(records), later);
      r2.added == 0 && r2.records == r1.records && r2.nextId == r1.nextId
  {
    PollIdempotent(PollState(rs, nextId, 0, None), MetaDrafts(records), now, later);
  }

  // ---------------------------------------------------------------------
  // Webhook subscription

  datatype TextReply = TextReply(status: nat, body: Option<string>)

  /** `setupWebhook`: the challenge is echoed when the given token equals the
      configured one (two absent tokens are equal too), else 403. */
  function SetupWebhook(verifyToken: Option<string>, challenge: Option<string>, configured: Option<string>): (r: TextReply)
    ensures r.status == 200 <==> verifyToken == configured
    ensures r.status == 200 ==> r.body == challenge
    ensures r.status != 200 ==> r == TextReply(403, Some("Verification failed"))
  {
    if verifyToken == configured then TextReply(200, challenge) else TextReply(403, Some("Verification failed"))
  }

  // ---------------------------------------------------------------------
  // Webhook events

  datatype ChangeValue = ChangeValue(fieldData: seq<FieldDatum>, campaignName: string)

  datatype Change = Change(field: string, value: ChangeValue)

  datatype PageEntry = PageEntry(changes: seq<Change>)

  datatype WebhookBody = WebhookBody(objectType: string, entries: seq<PageEntry>)

  /** The draft of a `leadgen` change: contact fields from its `field_data`,
      the campaign from `campaign_name`. */
  function WebhookDraft(v: ChangeValue): (d: LeadDraft)
    ensures d.source == "meta" && d.campaign == v.campaignName
  {
    LeadDraft(FieldValue(v.fieldData, "full_name"), FieldValue(v.fieldData, "email"),
              FieldValue(v.fieldData, "phone_number"), "", "", "", "", "", "meta", v.campaignName,
              "", None, None, [], None, None)
  }

  /** The drafts of the `leadgen` changes of one entry, in order. */
  function ChangeDrafts(cs: seq<Change>): (ds: seq<LeadDraft>)
    ensures |ds| <= |cs|
  {
    if cs == [] then []
    else (if cs[0].field == "leadgen" then [WebhookDraft(cs[0].value)] else []) + ChangeDrafts(cs[1..])
  }

  /** The drafts of every `leadgen` change of every entry, in order. */
  function EntryDrafts(es: seq<PageEntry>): seq<LeadDraft> {
    if es == [] then [] else ChangeDrafts(es[0].changes) + EntryDrafts(es[1..])
  }

  /** The number of `leadgen` changes. */
  function LeadgenCount(es: seq<PageEntry>): nat {
    if es == [] then 0 else |ChangeDrafts(es[0].changes)| + LeadgenCount(es[1..])
  }

  /** The handler's lookup. Its filter (`{ where: ... }`) is not the field
      filter the other lookups use, so what it finds is left open: `Found`
      is any decision over the records and the draft. */
  type Lookup = (seq<Lead>, LeadDraft) -> bool

  /** The handler's run over the drafts of the events: create unless the
      lookup finds something; a failed create ends the run. */
  function WebhookFrom(st: PollState, ds: seq<LeadDraft>, found: Lookup, now: int): PollState
    decreases |ds|
  {
    if ds == [] || st.failure.Some? then st
    else
      var d := ds[0];
      var st' :=
        if found(st.records, d) then st
        else match Validate(d, st.nextId, now)
          case Ok(l) => PollState(st.records + [l], st.nextId + 1, st.added + 1, None)
          case Err(e) => st.(failure := Some(e));
      WebhookFrom(st', ds[1..], found, now)
  }

  lemma {:induction false} WebhookFromAppend(st: PollState, a: seq<LeadDraft>, b: seq<LeadDraft>, found: Lookup, now: int)
    ensures WebhookFrom(st, a + b, found, now) == WebhookFrom(WebhookFrom(st, a, found, now), b, found, now)
    decreases |a|
  {
    if a != [] && st.failure.None? {
      assert (a + b)[1..] == a[1..] + b;
      var d := a[0];
      var st' :=
        if found(st.records, d) then st
        else match Validate(d, st.nextId, now)
          case Ok(l) => PollState(st.records + [l], st.nextId + 1, st.added + 1, None)
          case Err(e) => st.(failure := Some(e));
      WebhookFromAppend(st', a[1..], b, found, now);
    } else if a == [] {
      assert a + b == b;
    } else {
      WebhookFromStopped(st, b, found, now);
    }
  }

  lemma {:induction false} WebhookFromStopped(st: PollState, ds: seq<LeadDraft>, found: Lookup, now: int)
    requires st.failure.Some?
    ensures WebhookFrom(st, ds, found, now) == st
  {
  }

  /** The webhook only appends, at most one record per `leadgen` change,
      each a `meta` record; whatever the lookup answers. */
  lemma {:induction false} WebhookAppendsOnly(st: PollState, ds: seq<LeadDraft>, found: Lookup, now: int)
    requires forall k :: 0 <= k < |ds| ==> ds[k].source == "meta"
    ensures var r := WebhookFrom(st, ds, found, now);
      && st.added <= r.added <= st.added + |ds|
      && |r.records| == |st.records| + (r.added - st.added)
      && r.records[..|st.records|] == st.records
      && forall k :: |st.records| <= k < |r.records| ==> r.records[k].source == "meta"
    decreases |ds|
  {
    if ds != [] && st.failure.None? {
      var d := ds[0];
      var st' :=
        if found(st.records, d) then st
        else match Validate(d, st.nextId, now)
          case Ok(l) => PollState(st.records + [l], st.nextId + 1, st.added + 1, None)
          case Err(e) => st.(failure := Some(e));
      assert forall k :: 0 <= k < |ds[1..]| ==> ds[1..][k] == ds[k + 1];
      WebhookAppendsOnly(st', ds[1..], found, now);
      var r := WebhookFrom(st', ds[1..], found, now);
      assert r.records[..|st.records|] == r.records[..|st'.records|][..|st.records|];
      forall k | |st.records| <= k < |r.records| ensures r.records[k].source == "meta" {
        if k < |st'.records| {
          assert r.records[k] == r.records[..|st'.records|][k] == st'.records[k];
        }
      }
    }
  }

  /** One `leadgen` change: map it, look it up, create when not found. */
  method HandleChange(store: Store, v: ChangeValue, found: Lookup, now: int, added: nat)
    returns (added': nat, failure: Option<seq<SchemaError>>)
    requires store.Valid()
    modifies store
    ensures store.Valid()
    ensures PollState(store.records, store.nextId, added', failure)
      == WebhookFrom(PollState(old(store.records), old(store.nextId), added, None), [WebhookDraft(v)], found, now)
  {
    var lead := WebhookDraft(v);
    ghost var st := PollState(store.records, store.nextId, added, None);
    added', failure := added, None;
    if !found(store.records, lead) {
      var r := store.Create(lead, now);
      WebhookCreateStep(st, lead, found, now, r);
      if r.Ok? {
        added' := added + 1;
      } else {
        failure := Some(r.error);
      }
    } else {
      WebhookFoundStep(st, lead, found, now);
    }
  }

  /** A change the lookup does not find: the outcome of `create`. */
  lemma WebhookCreateStep(st: PollState, d: LeadDraft, found: Lookup, now: int, r: Result<Lead, seq<SchemaError>>)
    requires st.failure.None? && !found(st.records, d) && r == Validate(d, st.nextId, now)
    ensures WebhookFrom(st, [d], found, now) ==
      if r.Ok? then PollState(st.records + [r.value], st.nextId + 1, st.added + 1, None)
      else st.(failure := Some(r.error))
  {
    assert [d][1..] == [];
  }

  /** A change the lookup finds: nothing happens. */
  lemma WebhookFoundStep(st: PollState, d: LeadDraft, found: Lookup, now: int)
    requires st.failure.None? && found(st.records, d)
    ensures WebhookFrom(st, [d], found, now) == st
  {
    assert [d][1..] == [];
  }

  /** The changes of one entry, in order; stops at the first failed create. */
  method HandleChanges(store: Store, changes: seq<Change>, found: Lookup, now: int, added: nat)
    returns (added': nat, failure: Option<seq<SchemaError>>)
    requires store.Valid()
    modifies store
    ensures store.Valid()
    ensures PollState(store.records, store.nextId, added', failure)
      == WebhookFrom(PollState(old(store.records), old(store.nextId), added, None), ChangeDrafts(changes), found, now)
  {
    ghost var goal := WebhookFrom(PollState(store.records, store.nextId, added, None), ChangeDrafts(changes), found, now);
    added', failure := added, None;
    var j := 0;
    while j < |changes|
      invariant 0 <= j <= |changes|
      invariant store.Valid()
      invariant failure.None?
      invariant WebhookFrom(PollState(store.records, store.nextId, added', None), ChangeDrafts(changes[j..]), found, now) == goal
    {
      assert changes[j..][1..] == changes[j + 1..];
      assert ChangeDrafts(changes[j..])
        == (if changes[j].field == "leadgen" then [WebhookDraft(changes[j].value)] else []) + ChangeDrafts(changes[j + 1..]);
      if changes[j].field == "leadgen" {
        ghost var before := PollState(store.records, store.nextId, added', None);
        WebhookFromAppend(before, [WebhookDraft(changes[j].value)], ChangeDrafts(changes[j + 1..]), found, now);
        added', failure := HandleChange(store, changes[j].value, found, now, added');
        if failure.Some? {
          WebhookFromStopped(PollState(store.records, store.nextId, added', failure), ChangeDrafts(changes[j + 1..]), found, now);
          return;
        }
        assert WebhookFrom(before, [WebhookDraft(changes[j].value)], found, now) == PollState(store.records, store.nextId, added', None);
        assert [WebhookDraft(changes[j].value)] + ChangeDrafts(changes[j + 1..]) == ChangeDrafts(changes[j..]);
      } else {
        assert ChangeDrafts(changes[j..]) == ChangeDrafts(changes[j + 1..]);
      }
      j := j + 1;
    }
    assert changes[j..] == [];
  }

  /** `handleWebhook`: for a `page` object, every `leadgen` change of every
      entry, in order; replies `EVENT_RECEIVED`, or 500 with the message of
      the create that failed. */
  method HandleWebhook(store: Store, body: WebhookBody, found: Lookup, now: int) returns (reply: TextReply)
    requires store.Valid()
    modifies store
    ensures store.Valid()
    ensures body.objectType != "page" ==>
      reply == TextReply(200, Some("EVENT_RECEIVED")) && store.records == old(store.records) && store.nextId == old(store.nextId)
    ensures body.objectType == "page" ==>
      var r := WebhookFrom(PollState(old(store.records), old(store.nextId), 0, None), EntryDrafts(body.entries), found, now);
      && store.records == r.records && store.nextId == r.nextId
      && reply == (if r.failure.Some? then TextReply(500, Some(ErrorMessage(r.failure.value)))
                   else TextReply(200, Some("EVENT_RECEIVED")))
  {
    if body.objectType != "page" {
      return TextReply(200, Some("EVENT_RECEIVED"));
    }
    ghost var goal := WebhookFrom(PollState(store.records, store.nextId, 0, None), EntryDrafts(body.entries), found, now);
    var added := 0;
    var i := 0;
    while i < |body.entries|
      invariant 0 <= i <= |body.entries|
      invariant store.Valid()
      invariant WebhookFrom(PollState(store.records, store.nextId, added, None), EntryDrafts(body.entries[i..]), found, now) == goal
    {
      assert body.entries[i..][1..] == body.entries[i + 1..];
      ghost var before := PollState(store.records, store.nextId, added, None);
      WebhookFromAppend(before, ChangeDrafts(body.entries[i].changes), EntryDrafts(body.entries[i + 1..]), found, now);
      var failure;
      added, failure := HandleChanges(store, body.entries[i].changes, found, now, added);
      if failure.Some? {
        WebhookFromStopped(PollState(store.records, store.nextId, added, failure), EntryDrafts(body.entries[i + 1..]), found, now);
        return TextReply(500, Some(ErrorMessage(failure.value)));
      }
      i := i + 1;
    }
    reply := TextReply(200, Some("EVENT_RECEIVED"));
  }
}
