/** The insert loop and the reply shape shared by the two pollers
    (backend/controllers/metaController.js and
    backend/controllers/googleController.js). Each poller runs the same loop
    over its fetched drafts; only the source literal differs, and every
    draft a poller builds carries that literal as its source. */
module Polling {
  import opened Common
  import opened LeadSchema
  import opened Ingestion
  import opened LeadStore

  /** What a poll hands back. Called over HTTP (`res` present) the
      not-configured notice and a failure are JSON messages with a status;
      called by the scheduler (no `res`) the notice is `null` and a failure
      is a fixed summary. A completed poll answers with the same summary
      either way. */
  datatype PollReply =
    | NoResult
    | Summary(message: string, newLeads: nat)
    | Message(status: nat, message: string)

  /** The reply of a poll that threw. */
  function FailureReply(viaHttp: bool, error: string, cronMessage: string): PollReply {
    if viaHttp then Message(500, error) else Summary(cronMessage, 0)
  }

  /** The reply of a poll that is not configured. */
  function NotConfiguredReply(viaHttp: bool, notice: string): PollReply {
    if viaHttp then Message(200, notice) else NoResult
  }

  /** `"<Provider> leads fetched: N found, M new leads added"`. */
  function FetchedMessage(provider: string, found: nat, added: nat): string {
    provider + " leads fetched: " + NatToString(found) + " found, " + NatToString(added) + " new leads added"
  }

  /** One pass of a poller's loop body: look `(email, source)` up, create
      when absent and the email is non-empty. A failed create is the
      exception that leaves the loop. */
  method PollOne(store: Store, d: LeadDraft, now: int, added: nat)
    returns (added': nat, failure: Option<seq<SchemaError>>)
    requires store.Valid()
    modifies store
    ensures store.Valid()
    ensures PollState(store.records, store.nextId, added', failure)
      == PollStep(PollState(old(store.records), old(store.nextId), added, None), d, now)
  {
    ghost var st := PollState(store.records, store.nextId, added, None);
    added', failure := added, None;
    var existing := store.FindOne(d.email, d.source);
    if existing.None? && d.email != "" {
      var r := store.Create(d, now);
      PollCreateStep(st, d, now, r);
      if r.Ok? {
        added' := added + 1;
      } else {
        failure := Some(r.error);
      }
    } else {
      PollSkipStep(st, d, now);
    }
  }

  /** The poll step for an absent pair with an email: the outcome of `create`. */
  lemma PollCreateStep(st: PollState, d: LeadDraft, now: int, r: Result<Lead, seq<SchemaError>>)
    requires st.failure.None? && !HasPair(st.records, d.email, d.source) && d.email != ""
    requires r == Validate(d, st.nextId, now)
    ensures PollStep(st, d, now) ==
      if r.Ok? then PollState(st.records + [r.value], st.nextId + 1, st.added + 1, None)
      else st.(failure := Some(r.error))
  {
  }

  /** The poll step otherwise: nothing happens. */
  lemma PollSkipStep(st: PollState, d: LeadDraft, now: int)
    requires HasPair(st.records, d.email, d.source) || d.email == ""
    ensures PollStep(st, d, now) == st
  {
  }

  /** A poller's loop over its fetched drafts. */
  method PollInsert(store: Store, ds: seq<LeadDraft>, now: int)
    returns (added: nat, failure: Option<seq<SchemaError>>)
    requires store.Valid()
    modifies store
    ensures store.Valid()
    ensures var r := PollFrom(PollState(old(store.records), old(store.nextId), 0, None), ds, now);
      store.records == r.records && store.nextId == r.nextId && added == r.added && failure == r.failure
  {
    ghost var goal := PollFrom(PollState(store.records, store.nextId, 0, None), ds, now);
    added, failure := 0, None;
    var i := 0;
    while i < |ds| && failure.None?
      invariant 0 <= i <= |ds|
      invariant store.Valid()
      invariant PollFrom(PollState(store.records, store.nextId, added, failure), ds[i..], now) == goal
    {
      assert ds[i..][1..] == ds[i + 1..];
      added, failure := PollOne(store, ds[i], now, added);
      i := i + 1;
    }
  }
}
