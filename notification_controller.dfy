/** Notifications (backend/controllers/notificationController.js): the
    new-lead email and text message, the daily summary counts, and the
    per-source breakdown. The mail and SMS transports are an outbox that
    records what was handed over successfully. */
module NotificationController {
  import opened Common
  import opened LeadSchema

  datatype Mail = Mail(to: string, subject: string, text: string)

  datatype Sms = Sms(to: string, body: string)

  /** The transports. A text message can be sent only when both Twilio
      credentials were present at start-up and the client library accepted
      them; `clientCreated` is the library's verdict, since `twilio(...)`
      throws on credentials it rejects and the start-up code then only
      warns. */
  class Outbox {
    var mails: seq<Mail>
    var texts: seq<Sms>
    const smsConfigured: bool

    constructor (twilioSid: string, twilioToken: string, clientCreated: bool)
      ensures mails == [] && texts == []
      ensures smsConfigured == (twilioSid != "" && twilioToken != "" && clientCreated)
    {
      mails := [];
      texts := [];
      if twilioSid != "" && twilioToken != "" {
        smsConfigured := clientCreated;
      } else {
        smsConfigured := false;
      }
    }

    /** `sendEmail`: a transport error is logged, never thrown; `delivered`
        is the transport's answer. */
    method SendEmail(to: string, subject: string, text: string, delivered: bool)
      modifies this
      ensures mails == old(mails) + (if delivered then [Mail(to, subject, text)] else [])
      ensures texts == old(texts)
    {
      if delivered {
        mails := mails + [Mail(to, subject, text)];
      }
    }

    /** `sendSMS`: without a client nothing is attempted; a send error is
        logged, never thrown. */
    method SendSms(to: string, body: string, delivered: bool)
      modifies this
      ensures texts == old(texts) + (if smsConfigured && delivered then [Sms(to, body)] else [])
      ensures mails == old(mails)
    {
      if !smsConfigured {
        return;
      }
      if delivered {
        texts := texts + [Sms(to, body)];
      }
    }
  }

  const NewLeadSubject := "New Lead Received - UrbanCruise LMS"
  const DefaultAdminEmail := "admin@urbancruise.in"
  const DefaultAdminPhone := "+91-XXXXXXXXXX"

  /** The lines of the new-lead email; its body is these joined by
      newlines. */
  function NewLeadEmailLines(l: Lead): seq<string> {
    ["\U{1F697} New Lead Alert!", "",
     "Customer: " + l.name,
     "Email: " + l.email,
     "Phone: " + Or(l.phone, "N/A"),
     "Service: " + Or(l.service, "N/A"),
     "Source: " + l.source, "",
     "Please follow up immediately!", "",
     "UrbanCruise Team"]
  }

  function NewLeadEmailText(l: Lead): string {
    Join(NewLeadEmailLines(l), "\n")
  }

  /** A lead without a phone or service shows `N/A` in its place; one with
      them shows them. */
  lemma NewLeadEmailNA(l: Lead)
    ensures Contains(NewLeadEmailText(l), "Phone: " + (if l.phone == "" then "N/A" else l.phone))
    ensures Contains(NewLeadEmailText(l), "Service: " + (if l.service == "" then "N/A" else l.service))
    ensures Contains(NewLeadEmailText(l), "Customer: " + l.name)
  {
    JoinContains(NewLeadEmailLines(l), "\n", 4);
    JoinContains(NewLeadEmailLines(l), "\n", 5);
    JoinContains(NewLeadEmailLines(l), "\n", 2);
  }

  /** The text message of a new lead. */
  function NewLeadSmsText(l: Lead): (t: string)
    ensures IsPrefix("New Lead: ", t)
  {
    "New Lead: " + l.name + " - " + l.email + " - " + l.source
  }

  /** `notifyNewLead`: one email to the administrator, then one text message
      to the administrator's phone. Neither failure escapes. */
  method NotifyNewLead(outbox: Outbox, l: Lead, adminEmail: string, adminPhone: string,
                       emailDelivered: bool, smsDelivered: bool)
    modifies outbox
    ensures outbox.mails == old(outbox.mails)
      + (if emailDelivered then [Mail(Or(adminEmail, DefaultAdminEmail), NewLeadSubject, NewLeadEmailText(l))] else [])
    ensures outbox.texts == old(outbox.texts)
      + (if outbox.smsConfigured && smsDelivered then [Sms(Or(adminPhone, DefaultAdminPhone), NewLeadSmsText(l))] else [])
  {
    outbox.SendEmail(Or(adminEmail, DefaultAdminEmail), NewLeadSubject, NewLeadEmailText(l), emailDelivered);
    outbox.SendSms(Or(adminPhone, DefaultAdminPhone), NewLeadSmsText(l), smsDelivered);
  }

  // ---------------------------------------------------------------------
  // Daily summary

  /** The number of leads with the given status. */
  function CountStatus(ls: seq<Lead>, status: string): (n: nat)
    ensures n <= |ls|
  {
    if ls == [] then 0 else CountStatus(ls[1..], status) + (if ls[0].status == status then 1 else 0)
  }

  /** Two different statuses count disjoint leads, so together they are at
      most the total. */
  lemma {:induction false} CountTwoStatuses(ls: seq<Lead>, a: string, b: string)
    requires a != b
    ensures CountStatus(ls, a) + CountStatus(ls, b) <= |ls|
  {
    if ls != [] {
      CountTwoStatuses(ls[1..], a, b);
    }
  }

  /** The leads created in `[dayStart, dayEnd)`, in store order. */
  function CreatedBetween(ls: seq<Lead>, dayStart: int, dayEnd: int): (r: seq<Lead>)
    ensures |r| <= |ls|
    ensures forall k :: 0 <= k < |r| ==> r[k] in ls && dayStart <= r[k].createdAt < dayEnd
  {
    if ls == [] then []
    else (if dayStart <= ls[0].createdAt < dayEnd then [ls[0]] else []) + CreatedBetween(ls[1..], dayStart, dayEnd)
  }

  datatype DailyCounts = DailyCounts(total: nat, newLeads: nat, converted: nat)

  /** The three counts of the daily summary. */
  function DailySummaryCounts(ls: seq<Lead>, dayStart: int, dayEnd: int): (c: DailyCounts)
    ensures c.newLeads <= c.total && c.converted <= c.total
    ensures c.newLeads + c.converted <= c.total
    ensures c.total <= |ls|
  {
    var today := CreatedBetween(ls, dayStart, dayEnd);
    CountTwoStatuses(today, "new", "converted");
    DailyCounts(|today|, CountStatus(today, "new"), CountStatus(today, "converted"))
  }

  // ---------------------------------------------------------------------
  // Source breakdown

  /** The distinct values of a list, in order of first occurrence. */
  function FirstOccurrences(xs: seq<string>): seq<string> {
    if xs == [] then []
    else
      var r := FirstOccurrences(xs[..|xs| - 1]);
      if xs[|xs| - 1] in r then r else r + [xs[|xs| - 1]]
  }

  /** No value occurs twice. */
  predicate Distinct(r: seq<string>) {
    forall i, j :: 0 <= i < j < |r| ==> r[i] != r[j]
  }

  /** The distinct values are exactly the list's values, each once. */
  lemma {:induction false} FirstOccurrencesSpec(xs: seq<string>)
    ensures forall x :: x in FirstOccurrences(xs) <==> x in xs
    ensures Distinct(FirstOccurrences(xs))
  {
    if xs != [] {
      var init := xs[..|xs| - 1];
      var x := xs[|xs| - 1];
      FirstOccurrencesSpec(init);
      assert xs == init + [x];
      var r0 := FirstOccurrences(init);
      if x !in r0 {
        var r := r0 + [x];
        forall i, j | 0 <= i < j < |r| ensures r[i] != r[j] {
          if j == |r0| {
            assert r[i] == r0[i] && r0[i] in r0 && r[j] == x;
            assert r0[i] != x;
          } else {
            assert r[i] == r0[i] && r[j] == r0[j];
            assert r0[i] != r0[j];
          }
        }
      }
    }
  }

  /** The number of occurrences of x. */
  function Occurrences(xs: seq<string>, x: string): nat {
    if xs == [] then 0 else Occurrences(xs[..|xs| - 1], x) + (if xs[|xs| - 1] == x then 1 else 0)
  }

  function SumOccurrences(keys: seq<string>, xs: seq<string>): nat {
    if keys == [] then 0 else SumOccurrences(keys[..|keys| - 1], xs) + Occurrences(xs, keys[|keys| - 1])
  }

  /** Counting each distinct value once accounts for every element. */
  lemma {:induction false} BreakdownSumsToTotal(xs: seq<string>)
    ensures SumOccurrences(FirstOccurrences(xs), xs) == |xs|
  {
    if xs != [] {
      var init := xs[..|xs| - 1];
      var x := xs[|xs| - 1];
      BreakdownSumsToTotal(init);
      FirstOccurrencesSpec(init);
      SumOccurrencesAddOne(FirstOccurrences(init), init, x);
      var keys := FirstOccurrences(init);
      assert xs == init + [x] && xs[..|xs| - 1] == init;
      if x !in keys {
        assert Occurrences(init, x) == 0 by { OccurrencesAbsent(init, x); }
        assert FirstOccurrences(xs)[..|FirstOccurrences(xs)| - 1] == keys;
      }
    }
  }

  lemma {:induction false} OccurrencesAbsent(xs: seq<string>, x: string)
    requires x !in xs
    ensures Occurrences(xs, x) == 0
  {
    if xs != [] {
      assert forall y :: y in xs[..|xs| - 1] ==> y in xs;
      OccurrencesAbsent(xs[..|xs| - 1], x);
    }
  }

  /** Appending x raises the sum over distinct keys by one when x is one of
      them and leaves it otherwise. */
  lemma {:induction false} SumOccurrencesAddOne(keys: seq<string>, xs: seq<string>, x: string)
    requires Distinct(keys)
    ensures SumOccurrences(keys, xs + [x]) == SumOccurrences(keys, xs) + (if x in keys then 1 else 0)
  {
    if keys != [] {
      var init := keys[..|keys| - 1];
      var k := keys[|keys| - 1];
      SumOccurrencesAddOne(init, xs, x);
      assert (xs + [x])[..|xs + [x]| - 1] == xs;
      assert x in keys <==> x in init || x == k;
      if x == k {
        assert x !in init by {
          forall i | 0 <= i < |init| ensures init[i] != x { assert init[i] == keys[i]; }
        }
      }
    }
  }

  /** Extending a prefix by one element extends its distinct values and
      its counts accordingly. */
  lemma PrefixStep(xs: seq<string>, i: nat)
    requires i < |xs|
    ensures FirstOccurrences(xs[..i + 1]) ==
      if xs[i] in FirstOccurrences(xs[..i]) then FirstOccurrences(xs[..i]) else FirstOccurrences(xs[..i]) + [xs[i]]
    ensures forall k :: Occurrences(xs[..i + 1], k) == Occurrences(xs[..i], k) + (if xs[i] == k then 1 else 0)
  {
    assert xs[..i + 1][..i] == xs[..i];
  }

  /** `getSourceBreakdown`'s loop: the distinct sources in first-occurrence
      order, and the tally of each. */
  method TallySources(ls: seq<Lead>) returns (keys: seq<string>, counts: map<string, nat>)
    ensures keys == FirstOccurrences(SourcesOf(ls))
    ensures forall k :: k in counts <==> k in keys
    ensures forall k :: k in counts ==> counts[k] == Occurrences(SourcesOf(ls), k)
  {
    ghost var srcs := SourcesOf(ls);
    keys, counts := [], map[];
    var i := 0;
    while i < |ls|
      invariant 0 <= i <= |ls|
      invariant keys == FirstOccurrences(srcs[..i])
      invariant forall k :: k in counts <==> k in keys
      invariant forall k :: k in counts ==> counts[k] == Occurrences(srcs[..i], k)
    {
      var s := ls[i].source;
      PrefixStep(srcs, i);
      ghost var before := counts;
      if s in counts {
        counts := counts[s := counts[s] + 1];
      } else {
        FirstOccurrencesSpec(srcs[..i]);
        OccurrencesAbsent(srcs[..i], s);
        keys := keys + [s];
        counts := counts[s := 1];
      }
      forall k | k in counts ensures counts[k] == Occurrences(srcs[..i + 1], k) {
        if k != s {
          assert counts[k] == before[k];
        }
      }
      i := i + 1;
    }
    assert srcs[..i] == srcs;
  }

  function SourcesOf(ls: seq<Lead>): (r: seq<string>)
    ensures |r| == |ls| && forall k :: 0 <= k < |ls| ==> r[k] == ls[k].source
  {
    seq(|ls|, k requires 0 <= k < |ls| => ls[k].source)
  }

  /** The breakdown text: one `- source: count` line per distinct source,
      joined by newlines. */
  method SourceBreakdown(ls: seq<Lead>) returns (text: string)
    ensures text == Join(BreakdownLines(FirstOccurrences(SourcesOf(ls)), SourcesOf(ls)), "\n")
  {
    var keys, counts := TallySources(ls);
    var lines := seq(|keys|, i requires 0 <= i < |keys| => "- " + keys[i] + ": " + NatToString(counts[keys[i]]));
    assert lines == BreakdownLines(keys, SourcesOf(ls));
    text := Join(lines, "\n");
  }

  function BreakdownLines(keys: seq<string>, xs: seq<string>): (lines: seq<string>)
    ensures |lines| == |keys|
  {
    seq(|keys|, i requires 0 <= i < |keys| => "- " + keys[i] + ": " + NatToString(Occurrences(xs, keys[i])))
  }
}
