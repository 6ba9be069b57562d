/** The Google Ads lead poll (backend/controllers/googleController.js). */
module GoogleController {
  import opened Common
  import opened LeadSchema
  import opened Ingestion
  import opened LeadStore
  import opened Polling

  /** One row of the lead query; a column the API leaves out is absent. */
  datatype GoogleRow = GoogleRow(
    firstName: Option<string>,
    lastName: Option<string>,
    emailAddress: Option<string>,
    phoneNumber: Option<string>,
    campaignName: Option<string>,
    keywordText: Option<string>)

  /** An absent column leaves the field unset, which the model writes as
      the empty string. */
  function OrEmpty(s: Option<string>): string {
    match s case Some(v) => v case None => ""
  }

  /** The draft of one row: the name is the two name columns joined by a
      space, as a template literal renders them; the source is `google`. */
  function GoogleDraft(row: GoogleRow): LeadDraft {
    LeadDraft(Show(row.firstName) + " " + Show(row.lastName), OrEmpty(row.emailAddress),
              OrEmpty(row.phoneNumber), "", "", "", "", "", "google",
              OrEmpty(row.campaignName), OrEmpty(row.keywordText), None, None, [], None, None)
  }

  /** Which row fields end up where: the name is never empty, even when both
      name columns are absent, and campaign and keyword are copied. */
  lemma GoogleDraftFields(row: GoogleRow)
    ensures var d := GoogleDraft(row);
      && d.name == Show(row.firstName) + " " + Show(row.lastName) && d.name != ""
      && d.source == "google" && d.status.None?
      && d.campaign == OrEmpty(row.campaignName) && d.keyword == OrEmpty(row.keywordText)
      && (row.firstName.None? && row.lastName.None? ==> d.name == "undefined undefined")
  {
  }

  function GoogleDrafts(rows: seq<GoogleRow>): (ds: seq<LeadDraft>)
    ensures |ds| == |rows|
    ensures forall k :: 0 <= k < |rows| ==> ds[k] == GoogleDraft(rows[k]) && ds[k].source == "google"
  {
    seq(|rows|, k requires 0 <= k < |rows| => GoogleDraft(rows[k]))
  }

  const Placeholder := "your_google_ads_client_id"

  predicate Configured(clientId: Option<string>) {
    clientId.Some? && clientId.value != "" && clientId.value != Placeholder
  }

  /** A Google draft with an email always passes the schema. */
  lemma GoogleDraftValid(row: GoogleRow, id: nat, now: int)
    requires GoogleDraft(row).email != ""
    ensures Validate(GoogleDraft(row), id, now).Ok?
  {
    var d := GoogleDraft(row);
    assert |d.name| >= 1;
    assert Sources[2] == "google";
    assert Errors(d) == [];
  }

  /** Hence a Google poll never stops early on a failed create. */
  lemma {:induction false} GooglePollNeverFails(st: PollState, rows: seq<GoogleRow>, now: int)
    requires st.failure.None?
    ensures PollFrom(st, GoogleDrafts(rows), now).failure.None?
    decreases |rows|
  {
    var ds := GoogleDrafts(rows);
    if rows != [] {
      var d := ds[0];
      if !HasPair(st.records, d.email, d.source) && d.email != "" {
        GoogleDraftValid(rows[0], st.nextId, now);
      }
      assert ds[1..] == GoogleDrafts(rows[1..]);
      GooglePollNeverFails(PollStep(st, d, now), rows[1..], now);
    }
  }

  /** `fetchGoogleLeads`. `fetched` is the query's rows or the error it
      failed with. */
  method FetchGoogleLeads(store: Store, clientId: Option<string>, fetched: Result<seq<GoogleRow>, string>,
                          viaHttp: bool, now: int) returns (reply: PollReply)
    requires store.Valid()
    modifies store
    ensures store.Valid()
    ensures !Configured(clientId) ==>
      reply == NotConfiguredReply(viaHttp, "Google Ads API not configured")
      && store.records == old(store.records) && store.nextId == old(store.nextId)
    ensures Configured(clientId) && fetched.Err? ==>
      reply == FailureReply(viaHttp, fetched.error, "Google Ads API error occurred")
      && store.records == old(store.records) && store.nextId == old(store.nextId)
    ensures Configured(clientId) && fetched.Ok? ==>
      var ds := GoogleDrafts(fetched.value);
      var r := PollFrom(PollState(old(store.records), old(store.nextId), 0, None), ds, now);
      && store.records == r.records && store.nextId == r.nextId
      && reply == Summary(FetchedMessage("Google", |fetched.value|, r.added), r.added)
  {
    if !Configured(clientId) {
      return NotConfiguredReply(viaHttp, "Google Ads API not configured");
    }
    if fetched.Err? {
      return FailureReply(viaHttp, fetched.error, "Google Ads API error occurred");
    }
    var leads := GoogleDrafts(fetched.value);
    var added, failure := PollInsert(store, leads, now);
    GooglePollNeverFails(PollState(old(store.records), old(store.nextId), 0, None), fetched.value, now);
    assert failure.None?;
    reply := Summary(FetchedMessage("Google", |leads|, added), added);
  }

  /** A Google poll creates a record exactly for each fetched row with an
      email whose `(email, google)` pair is not yet stored, and reports
      exactly that many. */
  lemma GooglePollBounds(rs: seq<Lead>, nextId: nat, rows: seq<GoogleRow>, now: int)
    ensures var r := PollFrom(PollState(rs, nextId, 0, None), GoogleDrafts(rows), now);
      && r.added <= |rows|
      && |r.records| == |rs| + r.added
      && r.records[..|rs|] == rs
      && (forall k :: |rs| <= k < |r.records| ==> r.records[k].source == "google" && r.records[k].email != "")
      && (forall k :: 0 <= k < |rows| && OrEmpty(rows[k].emailAddress) != "" ==>
            HasPair(r.records, OrEmpty(rows[k].emailAddress), "google"))
  {
    var st := PollState(rs, nextId, 0, None);
    var ds := GoogleDrafts(rows);
    PollCounts(st, ds, now);
    PollAppendsOnly(st, ds, now, "google");
    GooglePollNeverFails(st, rows, now);
    PollSettles(st, ds, now);
  }

  /** A second poll over the same rows adds nothing. */
  lemma GoogleRepollAddsNothing(rs: seq<Lead>, nextId: nat, rows: seq<GoogleRow>, now: int, later: int)
    ensures var r1 := PollFrom(PollState(rs, nextId, 0, None), GoogleDrafts(rows), now);
      var r2 := PollFrom(PollState(r1.records, r1.nextId, 0, None), GoogleDrafts(rows), later);
      r2.added == 0 && r2.records == r1.records && r2.nextId == r1.nextId
  {
    GooglePollNeverFails(PollState(rs, nextId, 0, None), rows, now);
    PollIdempotent(PollState(rs, nextId, 0, None), GoogleDrafts(rows), now, later);
  }
}
