/** One `browser.grant.pending` notification: claim the grant, execute it, report the outcome
    (`process_pending_notice`). */
module Bridge {
  import opened Wrappers
  import opened GrantParameters
  import opened ProfileKeys
  import GrantPayload
  import RedeemProtocol

  const REPORT_ATTEMPTS := 3

  datatype Notice = Notice(tenantId: string, taskId: string, grantId: string, profileId: string, surfaceId: string)

  /** What the backend answers; no HTTP status when no usable response arrived. */
  datatype Response = Response(success: bool, httpStatus: Option<nat>)

  /** The claim's answer, with what could be decoded from it; the signature is the grant's. */
  datatype Claim = Claim(response: Response, grant: Option<Grant>, signature: string, params: Option<Params>)

  datatype Outcome = Executed(reply: RedeemProtocol.Reply) | InvalidGrant

  datatype Report = Report(taskId: string, grantId: string, outcome: Outcome)

  /** What the bridge does that others can see. */
  datatype Event =
    | Claims(taskId: string, grantId: string)
    | Executes(grant: Grant, params: Option<Params>)
    | Reports(report: Report)
    | Sleeps(time: nat)

  datatype BridgeOutcome = NotOurs | ClaimRefused | Reported | ReportUndelivered

  /** Unreachable, or failed on the backend's side: worth another try. A 4xx is an answer. */
  predicate TransportFailure(r: Response) {
    !r.success && (r.httpStatus.None? || r.httpStatus.value >= 500)
  }

  /** The claimed grant is the one the notice names. */
  predicate Matches(notice: Notice, grant: Option<Grant>) {
    && grant.Some?
    && grant.value.grantId == notice.grantId
    && grant.value.tenantId == notice.tenantId
    && grant.value.surfaceId == notice.surfaceId
    && grant.value.profileId == notice.profileId
  }

  /** `owns_surface`: the surface is there and bound to the profile the notice names. */
  predicate OwnsSurface(live: set<string>, bindings: map<string, ProfileKey>, notice: Notice) {
    && notice.surfaceId in live && notice.surfaceId in bindings
    && bindings[notice.surfaceId].tenantId == notice.tenantId
    && bindings[notice.surfaceId].profileId == notice.profileId
  }

  // ---------------------------------------------------------------- what the contracts ask

  /** Settled: a success, or an answer below 500. */
  predicate Answered(r: Response) {
    r.success || (r.httpStatus.Some? && r.httpStatus.value < 500)
  }

  /** The claim brought the very grant the notice announced. */
  predicate Brings(claim: Claim, notice: Notice) {
    && claim.response.success && claim.grant.Some?
    && var g := claim.grant.value;
       Notice(g.tenantId, notice.taskId, g.grantId, g.profileId, g.surfaceId) == notice
  }

  /** This desktop shows the surface, for the notice's profile. */
  predicate Shows(live: set<string>, bindings: map<string, ProfileKey>, notice: Notice) {
    && notice.surfaceId in live * bindings.Keys
    && bindings[notice.surfaceId] == ProfileKey(notice.tenantId, notice.profileId)
  }

  // ---------------------------------------------------------------- reading a sequence of events

  function ReportsIn(events: seq<Event>): seq<Report> {
    if |events| == 0 then []
    else (if events[0].Reports? then [events[0].report] else []) + ReportsIn(events[1..])
  }

  function SleptIn(events: seq<Event>): nat {
    if |events| == 0 then 0
    else (if events[0].Sleeps? then events[0].time else 0) + SleptIn(events[1..])
  }

  lemma {:induction false} ReportsAppend(events: seq<Event>, last: Event)
    ensures ReportsIn(events + [last]) == ReportsIn(events) + if last.Reports? then [last.report] else []
  {
    if |events| == 0 {
      assert events + [last] == [last] && [last][1..] == [];
    } else {
      assert (events + [last])[1..] == events[1..] + [last];
      ReportsAppend(events[1..], last);
    }
  }

  lemma {:induction false} SleepsAppend(events: seq<Event>, last: Event)
    ensures SleptIn(events + [last]) == SleptIn(events) + if last.Sleeps? then last.time else 0
  {
    if |events| == 0 {
      assert events + [last] == [last] && [last][1..] == [];
    } else {
      assert (events + [last])[1..] == events[1..] + [last];
      SleepsAppend(events[1..], last);
    }
  }

  function Pow2(n: nat): (p: nat)
    ensures p >= 1
  {
    if n == 0 then 1 else 2 * Pow2(n - 1)
  }

  /** `k` copies of one report. */
  ghost predicate AllAre(reports: seq<Report>, report: Report, k: nat) {
    |reports| == k && forall i :: 0 <= i < k ==> reports[i] == report
  }

  /** The report, and after each sending but the last a wait, twice as long each time. */
  ghost predicate Alternates(events: seq<Event>, report: Report, backoff: nat, sent: nat) {
    && |events| == 2 * sent - 1
    && (forall i :: 0 <= i < sent ==> events[2 * i] == Reports(report))
    && (forall i :: 0 <= i < sent - 1 ==> events[2 * i + 1] == Sleeps(backoff * Pow2(i)))
  }

  /** So the reports are all the same, and the waits add up. */
  lemma {:induction false} AlternationAddsUp(events: seq<Event>, report: Report, backoff: nat, sent: nat)
    requires sent > 0 && Alternates(events, report, backoff, sent)
    ensures AllAre(ReportsIn(events), report, sent) && SleptIn(events) == backoff * (Pow2(sent - 1) - 1)
  {
    if sent == 1 {
      assert events[2 * 0] == Reports(report);
      assert events == [] + [Reports(report)];
      ReportsAppend([], Reports(report));
      SleepsAppend([], Reports(report));
    } else {
      var before := events[..2 * sent - 3];
      AlternationBefore(events, report, backoff, sent);
      AlternationAddsUp(before, report, backoff, sent - 1);
      var wait := Sleeps(backoff * Pow2(sent - 2));
      ReportsAppend(before, wait);
      SleepsAppend(before, wait);
      ReportsAppend(before + [wait], Reports(report));
      SleepsAppend(before + [wait], Reports(report));
      Doubling(backoff, sent - 2);
    }
  }

  lemma AlternationBefore(events: seq<Event>, report: Report, backoff: nat, sent: nat)
    requires sent > 1 && Alternates(events, report, backoff, sent)
    ensures Alternates(events[..2 * sent - 3], report, backoff, sent - 1)
    ensures events == events[..2 * sent - 3] + [Sleeps(backoff * Pow2(sent - 2))] + [Reports(report)]
  {
    assert events[2 * (sent - 1)] == Reports(report);
    assert events[2 * (sent - 2) + 1] == Sleeps(backoff * Pow2(sent - 2));
  }

  lemma Doubling(base: nat, n: nat)
    ensures base * (Pow2(n) - 1) + base * Pow2(n) == base * (Pow2(n + 1) - 1)
  {}

  // ---------------------------------------------------------------- the report loop

  /** Sends one report until it is answered, at most three times, waiting longer each time. `responses` are
      the backend's answers, whatever they are. */
  method SendReport(report: Report, responses: seq<Response>, reportBackoff: nat)
    returns (outcome: BridgeOutcome, sent: nat, events: seq<Event>)
    requires |responses| == 3
    ensures 1 <= sent <= 3
    ensures AllAre(ReportsIn(events), report, sent)
    ensures forall i :: 0 <= i < sent - 1 ==> !Answered(responses[i])
    ensures sent < 3 ==> Answered(responses[sent - 1])
    ensures outcome == if responses[sent - 1].success then Reported else ReportUndelivered
    ensures SleptIn(events) == reportBackoff * (Pow2(sent - 1) - 1)
    ensures Alternates(events, report, reportBackoff, sent)
  {
    events := [];
    var backoff := reportBackoff;
    sent := 0;
    while sent < REPORT_ATTEMPTS
      invariant sent <= REPORT_ATTEMPTS
                && backoff == reportBackoff * Pow2(if sent < REPORT_ATTEMPTS then sent else sent - 1)
      invariant forall i :: 0 <= i < sent ==> TransportFailure(responses[i])
      invariant |events| == if sent < REPORT_ATTEMPTS then 2 * sent else 2 * sent - 1
      invariant forall i :: 0 <= i < sent ==> events[2 * i] == Reports(report)
      invariant forall i :: 0 <= 2 * i + 1 < |events| ==> events[2 * i + 1] == Sleeps(reportBackoff * Pow2(i))
    {
      var response := responses[sent];
      events := events + [Reports(report)];
      sent := sent + 1;
      if !TransportFailure(response) {
        AlternationAddsUp(events, report, reportBackoff, sent);
        return if response.success then Reported else ReportUndelivered, sent, events;
      }
      if sent < REPORT_ATTEMPTS {
        events := events + [Sleeps(backoff)];
        backoff := backoff * 2;
      }
    }
    AlternationAddsUp(events, report, reportBackoff, sent);
    outcome := ReportUndelivered;
  }

  // ---------------------------------------------------------------- the whole notice

  /** The claim, and then, if the grant is the one announced, its execution. */
  function Prelude(notice: Notice, claim: Claim): seq<Event> {
    [Claims(notice.taskId, notice.grantId)]
    + if Brings(claim, notice) then [Executes(claim.grant.value, claim.params)] else []
  }

  /** The report that is due after the claim: the result of the execution, or that the grant is not usable. */
  function Due(notice: Notice, claim: Claim, reply: RedeemProtocol.Reply): Report {
    Report(notice.taskId, notice.grantId, if Brings(claim, notice) then Executed(reply) else InvalidGrant)
  }

  /** `live` and `bindings` are what the runtime and the bindings hold when the notice arrives, `reply` what
      `execute_granted_action` returns if called. */
  method ProcessPendingNotice(
    live: set<string>, bindings: map<string, ProfileKey>, verifies: (string, string) -> bool,
    notice: Notice, claim: Claim, reply: RedeemProtocol.Reply, responses: seq<Response>, reportBackoff: nat)
    returns (outcome: BridgeOutcome, signatureRejected: bool, sent: nat, events: seq<Event>)
    requires |responses| == 3
    ensures outcome == NotOurs <==> !Shows(live, bindings, notice)
    ensures outcome == NotOurs ==> events == []
    ensures outcome == ClaimRefused <==> Shows(live, bindings, notice) && !claim.response.success
    ensures outcome == ClaimRefused ==> events == [Claims(notice.taskId, notice.grantId)]
    ensures outcome.NotOurs? || outcome.ClaimRefused? ==> sent == 0 && !signatureRejected
    ensures Shows(live, bindings, notice) && claim.response.success ==>
              && 1 <= sent <= 3
              && (outcome == Reported <==> responses[sent - 1].success)
              && (forall i :: 0 <= i < sent - 1 ==> !Answered(responses[i]))
              && (sent < 3 ==> Answered(responses[sent - 1]))
              && Prelude(notice, claim) <= events
              && Alternates(events[|Prelude(notice, claim)|..], Due(notice, claim, reply), reportBackoff, sent)
              && AllAre(ReportsIn(events[|Prelude(notice, claim)|..]), Due(notice, claim, reply), sent)
              && SleptIn(events[|Prelude(notice, claim)|..]) == reportBackoff * (Pow2(sent - 1) - 1)
              && (signatureRejected
                  <==> Brings(claim, notice)
                       && !verifies(GrantPayload.CanonicalPayload(claim.grant.value), claim.signature))
  {
    signatureRejected := false;
    if !OwnsSurface(live, bindings, notice) {
      return NotOurs, false, 0, [];
    }
    events := [Claims(notice.taskId, notice.grantId)];
    if !claim.response.success {
      return ClaimRefused, false, 0, events;
    }
    var result := InvalidGrant;
    if Matches(notice, claim.grant) {
      signatureRejected := !verifies(GrantPayload.CanonicalPayload(claim.grant.value), claim.signature);
      events := events + [Executes(claim.grant.value, claim.params)];
      result := Executed(reply);
    }
    ghost var before := events;
    var sending;
    outcome, sent, sending := SendReport(Report(notice.taskId, notice.grantId, result), responses, reportBackoff);
    events := events + sending;
    assert before == Prelude(notice, claim);
    assert events[|before|..] == sending && events[..|before|] == before;
  }
}
