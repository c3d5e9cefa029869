/** The lifecycle record the service keeps for each alert fingerprint. */
module Tracking {
  import opened Wrappers
  import opened Dicts

  datatype TrackingStatus = Received | Pending | Remediating | Remediated | Resolved

  function TrackingStatusValue(s: TrackingStatus): string
  {
    match s
    case Received => "received"
    case Pending => "pending"
    case Remediating => "remediating"
    case Remediated => "remediated"
    case Resolved => "resolved"
  }

  /** The enumeration's members in declaration order, as iterating the enum yields them. */
  const AllTrackingStatuses: seq<TrackingStatus> := [Received, Pending, Remediating, Remediated, Resolved]

  /** `AlertTrackingStatus(value)`: the member with that value, if any. */
  function ParseTrackingStatus(v: string): (r: Option<TrackingStatus>)
    ensures r.Some? ==> TrackingStatusValue(r.value) == v
  {
    if v == "received" then Some(Received)
    else if v == "pending" then Some(Pending)
    else if v == "remediating" then Some(Remediating)
    else if v == "remediated" then Some(Remediated)
    else if v == "resolved" then Some(Resolved)
    else None
  }

  /** Values and members correspond one to one. */
  lemma StatusValueRoundTrip(s: TrackingStatus)
    ensures ParseTrackingStatus(TrackingStatusValue(s)) == Some(s)
    ensures s in AllTrackingStatuses
  {
  }

  lemma StatusValueInjective(s: TrackingStatus, t: TrackingStatus)
    ensures TrackingStatusValue(s) == TrackingStatusValue(t) ==> s == t
  {
    StatusValueRoundTrip(s);
    StatusValueRoundTrip(t);
  }

  /** One attempt; `status` is the text "success", "failed" or "running". */
  datatype RemediationAttempt = RemediationAttempt(
    actionName: string,
    stackstormAction: string,
    status: string,
    startedAt: int,
    completedAt: Option<int>,
    executionId: Option<string>,
    error: Option<string>)

  datatype TrackedAlert = TrackedAlert(
    fingerprint: string,
    alertname: string,
    instance: Option<string>,
    severity: Option<string>,
    labels: Dict<string>,
    annotations: Dict<string>,
    status: TrackingStatus,
    receivedAt: int,
    statusChangedAt: int,
    resolvedAt: Option<int>,
    attempts: seq<RemediationAttempt>,
    totalAttempts: int,
    successfulAttempts: int,
    failedAttempts: int,
    processedBy: Option<string>,
    lastError: Option<string>)

  /** Number of attempts whose status is `status`. */
  function CountStatus(s: seq<RemediationAttempt>, status: string): (n: nat)
    ensures n <= |s|
  {
    if s == [] then 0
    else CountStatus(s[..|s| - 1], status) + (if s[|s| - 1].status == status then 1 else 0)
  }

  /** The counters agree with the attempt history. */
  predicate CountersMatch(t: TrackedAlert)
  {
    t.totalAttempts == |t.attempts|
    && t.successfulAttempts == CountStatus(t.attempts, "success")
    && t.failedAttempts == CountStatus(t.attempts, "failed")
  }

  /** Every recorded attempt finished, one way or the other. */
  predicate AttemptsFinished(t: TrackedAlert)
  {
    forall i :: 0 <= i < |t.attempts| ==> t.attempts[i].status in {"success", "failed"}
  }

  /** `resolved_at` is stamped exactly when the alert has been resolved. */
  predicate ResolvedStamped(t: TrackedAlert)
  {
    t.resolvedAt.Some? <==> t.status == Resolved
  }

  predicate WellFormed(t: TrackedAlert)
  {
    CountersMatch(t) && AttemptsFinished(t) && ResolvedStamped(t)
  }

  /** `add_remediation_attempt`: append the attempt and bump the counters. */
  function AddRemediationAttempt(t: TrackedAlert, a: RemediationAttempt): (r: TrackedAlert)
    ensures r.attempts == t.attempts + [a]
    ensures r.totalAttempts == t.totalAttempts + 1
    ensures a.status == "success" ==> r.successfulAttempts == t.successfulAttempts + 1 && r.failedAttempts == t.failedAttempts
    ensures a.status == "failed" ==> r.failedAttempts == t.failedAttempts + 1 && r.successfulAttempts == t.successfulAttempts
    ensures a.status !in {"success", "failed"} ==>
      r.successfulAttempts == t.successfulAttempts && r.failedAttempts == t.failedAttempts
    ensures r.(attempts := t.attempts, totalAttempts := t.totalAttempts,
               successfulAttempts := t.successfulAttempts, failedAttempts := t.failedAttempts) == t
  {
    var t1 := t.(attempts := t.attempts + [a], totalAttempts := t.totalAttempts + 1);
    if a.status == "success" then t1.(successfulAttempts := t.successfulAttempts + 1)
    else if a.status == "failed" then t1.(failedAttempts := t.failedAttempts + 1)
    else t1
  }

  /** Appending an attempt keeps the counters in step with the history. */
  lemma AddAttemptKeepsCounters(t: TrackedAlert, a: RemediationAttempt)
    requires CountersMatch(t)
    ensures CountersMatch(AddRemediationAttempt(t, a))
  {
    var s := t.attempts + [a];
    assert s[..|s| - 1] == t.attempts;
  }

  /** Appending a finished attempt to a well-formed alert keeps it well formed. */
  lemma AddFinishedAttemptKeepsWellFormed(t: TrackedAlert, a: RemediationAttempt)
    requires WellFormed(t) && a.status in {"success", "failed"}
    ensures WellFormed(AddRemediationAttempt(t, a))
  {
    AddAttemptKeepsCounters(t, a);
  }

  /** When every attempt has finished, each one is counted exactly once. */
  lemma {:induction false} FinishedAttemptsBalance(s: seq<RemediationAttempt>)
    requires forall i :: 0 <= i < |s| ==> s[i].status in {"success", "failed"}
    ensures CountStatus(s, "success") + CountStatus(s, "failed") == |s|
  {
    if s != [] { FinishedAttemptsBalance(s[..|s| - 1]); }
  }

  lemma CountersBalance(t: TrackedAlert)
    requires WellFormed(t)
    ensures t.totalAttempts == t.successfulAttempts + t.failedAttempts
  {
    FinishedAttemptsBalance(t.attempts);
  }

  /** `update_status`: set the status and its time; resolving also stamps `resolved_at`. */
  function UpdateStatus(t: TrackedAlert, s: TrackingStatus, at: int): (r: TrackedAlert)
    ensures r.status == s && r.statusChangedAt == at
    ensures s == Resolved ==> r.resolvedAt == Some(at)
    ensures s != Resolved ==> r.resolvedAt == t.resolvedAt
    ensures r.(status := t.status, statusChangedAt := t.statusChangedAt, resolvedAt := t.resolvedAt) == t
  {
    var r := t.(status := s, statusChangedAt := at);
    if s == Resolved then r.(resolvedAt := Some(at)) else r
  }

  /** A status change keeps a well-formed alert well formed unless it moves a
      resolved alert back to another state. */
  lemma UpdateStatusKeepsWellFormed(t: TrackedAlert, s: TrackingStatus, at: int)
    requires WellFormed(t)
    requires t.status == Resolved ==> s == Resolved
    ensures WellFormed(UpdateStatus(t, s, at))
  {
  }

  /** Repeating a status change is the same as making it once, at the later time. */
  lemma UpdateStatusTwice(t: TrackedAlert, s: TrackingStatus, a: int, b: int)
    ensures UpdateStatus(UpdateStatus(t, s, a), s, b) == UpdateStatus(t, s, b)
  {
  }

  /** The API summary of a tracked alert; timestamps stay numbers here. */
  datatype AlertSummary = AlertSummary(
    fingerprint: string,
    alertname: string,
    instance: Option<string>,
    severity: Option<string>,
    status: string,
    receivedAt: int,
    statusChangedAt: int,
    resolvedAt: Option<int>,
    totalAttempts: int,
    successfulAttempts: int,
    failedAttempts: int,
    lastError: Option<string>)

  function ToSummary(t: TrackedAlert): (r: AlertSummary)
    ensures r.fingerprint == t.fingerprint && r.alertname == t.alertname
    ensures r.instance == t.instance && r.severity == t.severity
    ensures r.receivedAt == t.receivedAt && r.statusChangedAt == t.statusChangedAt
    ensures ParseTrackingStatus(r.status) == Some(t.status)
    ensures r.resolvedAt == t.resolvedAt
    ensures r.totalAttempts == t.totalAttempts && r.successfulAttempts == t.successfulAttempts
    ensures r.failedAttempts == t.failedAttempts && r.lastError == t.lastError
  {
    StatusValueRoundTrip(t.status);
    AlertSummary(t.fingerprint, t.alertname, t.instance, t.severity, TrackingStatusValue(t.status),
      t.receivedAt, t.statusChangedAt, t.resolvedAt, t.totalAttempts, t.successfulAttempts,
      t.failedAttempts, t.lastError)
  }

  /** A well-formed alert's summary shows a resolution time exactly when it
      says "resolved", and its attempt counts add up. */
  lemma SummaryOfWellFormed(t: TrackedAlert)
    requires WellFormed(t)
    ensures var r := ToSummary(t);
      (r.resolvedAt.Some? <==> r.status == "resolved")
      && r.totalAttempts == r.successfulAttempts + r.failedAttempts
  {
    CountersBalance(t);
  }

  /** Aggregate counts over the store. */
  datatype AlertStats = AlertStats(total: nat, byStatus: Dict<nat>, bySeverity: Dict<nat>)
}
