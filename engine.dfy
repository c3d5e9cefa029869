/** The remediation engine: takes an alert from the webhook, tracks it in the
    state store, asks the registry for actions, runs each one on the
    automation platform and records every attempt.

    The platform client is not part of the model: what it answers for the
    i-th action of one call, and the clock readings around that action, are
    given as a `JobClient`. */
module Engine {
  import opened Wrappers
  import opened Dicts
  import opened Values
  import opened Alerts
  import opened Remediation
  import opened Tracking
  import opened Listing
  import opened MemoryStore
  import opened Registry
  import opened Handlers
  import Config

  /** The two ways a client call can raise: its own error type, or anything else. */
  datatype ClientFailure = StackStormError(message: string) | OtherError(message: string)

  /** `execute_action`: the execution record's `id`, if it has one, or a raise. */
  datatype Submission = Submitted(id: Option<string>) | SubmitFailed(failure: ClientFailure)

  /** `wait_for_execution`: the final record's `status` (empty when it has
      none) and `result`, or a raise (a timeout among them). */
  datatype Completion = Finished(status: string, result: map<string, Value>) | WaitFailed(failure: ClientFailure)

  /** Everything the outside world decides about one action: the client's
      answers and the clock when the action starts and when it ends. */
  datatype ActionRun = ActionRun(submission: Submission, completion: Completion, startedAt: int, completedAt: int)

  /** The client's behaviour over one `process_alert` call, by action index. */
  type JobClient = nat -> ActionRun

  /** `str(e)` for the platform's own error, `f"Unexpected error: {e}"` otherwise. */
  function FailureText(f: ClientFailure): string
  {
    match f
    case StackStormError(m) => m
    case OtherError(m) => "Unexpected error: " + m
  }

  /** `result.get("stderr", default)` for a text `stderr`. */
  function StderrOr(result: map<string, Value>, default: string): string
  {
    if "stderr" in result && result["stderr"].VStr? then result["stderr"].s else default
  }

  /** How one execution ended, as `_execute_action` settles it. */
  datatype Outcome = Outcome(status: RemediationStatus, executionId: Option<string>, output: map<string, Value>, error: Option<string>)

  function Settle(action: RemediationAction, run: ActionRun): Outcome
  {
    match run.submission
    case SubmitFailed(f) => Outcome(Failed, None, map[], Some(FailureText(f)))
    case Submitted(given) =>
      var id := given.GetOr("");
      if action.timeout > 0 then
        match run.completion
        case WaitFailed(f) => Outcome(Failed, Some(id), map[], Some(FailureText(f)))
        case Finished(status, result) =>
          if status == "succeeded" then Outcome(Success, Some(id), result, None)
          else Outcome(Failed, Some(id), map[], Some(StderrOr(result, "Execution " + status)))
      else Outcome(Success, Some(id), map["execution_id" := VStr(id)], None)
  }

  /** The `RemediationResult` returned for one action. */
  function ResultFor(alert: Alert, action: RemediationAction, run: ActionRun): RemediationResult
  {
    var o := Settle(action, run);
    RemediationResult(alert.fingerprint, AlertName(alert), action.name, o.status,
      run.startedAt, Some(run.completedAt), o.executionId, o.output, o.error)
  }

  /** The `RemediationAttempt` recorded for one action. */
  function AttemptFor(action: RemediationAction, run: ActionRun): RemediationAttempt
  {
    var o := Settle(action, run);
    RemediationAttempt(action.name, action.stackstormAction, RemediationStatusValue(o.status),
      run.startedAt, Some(run.completedAt), o.executionId, o.error)
  }

  /** The `finally` block's update of the tracked alert. */
  function Record(t: TrackedAlert, attempt: RemediationAttempt, error: Option<string>): TrackedAlert
  {
    var t1 := AddRemediationAttempt(t, attempt);
    if error.Some? && error.value != "" then t1.(lastError := error) else t1
  }

  /** Every execution ends in success or failure, never raises, and carries
      an error exactly when it failed; the execution id is missing exactly
      when the submission itself raised. */
  lemma SettleFinishes(action: RemediationAction, run: ActionRun)
    ensures Settle(action, run).status in {Success, Failed}
    ensures Settle(action, run).error.Some? <==> Settle(action, run).status == Failed
    ensures Settle(action, run).executionId.None? <==> run.submission.SubmitFailed?
  {
  }

  /** Which answers lead to success: a fire-and-forget submission, or a
      waited-for execution whose final status is "succeeded"; its result
      becomes the output. */
  lemma SettleSuccess(action: RemediationAction, run: ActionRun)
    ensures Settle(action, run).status == Success <==>
      run.submission.Submitted? && (action.timeout <= 0 || (run.completion.Finished? && run.completion.status == "succeeded"))
    ensures run.submission.Submitted? && action.timeout <= 0 ==>
      Settle(action, run).output == map["execution_id" := VStr(run.submission.id.GetOr(""))]
    ensures run.submission.Submitted? && action.timeout > 0 && run.completion.Finished? && run.completion.status == "succeeded" ==>
      Settle(action, run).output == run.completion.result
  {
  }

  /** A fire-and-forget action never waits: the completion answer is not consulted. */
  lemma FireAndForgetIgnoresCompletion(action: RemediationAction, run: ActionRun, other: Completion)
    requires action.timeout <= 0
    ensures Settle(action, run) == Settle(action, run.(completion := other))
  {
  }

  /** A failed wait reports the platform's `stderr`, or the final status when there is none. */
  lemma FailedExecutionError(action: RemediationAction, run: ActionRun)
    requires run.submission.Submitted? && action.timeout > 0
    requires run.completion.Finished? && run.completion.status != "succeeded"
    ensures Settle(action, run).error == Some(StderrOr(run.completion.result, "Execution " + run.completion.status))
    ensures "stderr" !in run.completion.result ==> Settle(action, run).error == Some("Execution " + run.completion.status)
  {
  }

  /** The recorded attempt mirrors the returned result. */
  lemma AttemptMirrorsResult(alert: Alert, action: RemediationAction, run: ActionRun)
    ensures AttemptFor(action, run).status == RemediationStatusValue(ResultFor(alert, action, run).status)
    ensures AttemptFor(action, run).status in {"success", "failed"}
    ensures AttemptFor(action, run).error == ResultFor(alert, action, run).error
    ensures AttemptFor(action, run).executionId == ResultFor(alert, action, run).executionId
    ensures AttemptFor(action, run).startedAt == ResultFor(alert, action, run).startedAt
    ensures AttemptFor(action, run).completedAt == ResultFor(alert, action, run).completedAt
    ensures DurationSeconds(ResultFor(alert, action, run)) == Some(run.completedAt - run.startedAt)
  {
    SettleFinishes(action, run);
  }

  /** Recording one action appends exactly its attempt, keeps a well-formed
      alert well formed, and overwrites `last_error` only with a non-empty error. */
  lemma RecordKeepsWellFormed(t: TrackedAlert, alert: Alert, action: RemediationAction, run: ActionRun)
    requires WellFormed(t)
    ensures var r := Record(t, AttemptFor(action, run), ResultFor(alert, action, run).error);
      WellFormed(r)
      && r.attempts == t.attempts + [AttemptFor(action, run)]
      && r.fingerprint == t.fingerprint && r.status == t.status
      && (r.lastError != t.lastError ==> r.lastError == ResultFor(alert, action, run).error)
      && (ResultFor(alert, action, run).status == Success ==> r.lastError == t.lastError)
  {
    AttemptMirrorsResult(alert, action, run);
    AddFinishedAttemptKeepsWellFormed(t, AttemptFor(action, run));
  }

  /** The results of running `actions` in order. */
  function ResultsOf(alert: Alert, actions: seq<RemediationAction>, run: JobClient): (r: seq<RemediationResult>)
    ensures |r| == |actions|
    ensures forall i :: 0 <= i < |actions| ==> r[i] == ResultFor(alert, actions[i], run(i))
    decreases |actions|
  {
    if actions == [] then []
    else
      var n := |actions| - 1;
      ResultsOf(alert, actions[..n], run) + [ResultFor(alert, actions[n], run(n))]
  }

  /** The attempts recorded by running `actions` in order. */
  function AttemptsOf(actions: seq<RemediationAction>, run: JobClient): (r: seq<RemediationAttempt>)
    ensures |r| == |actions|
    ensures forall i :: 0 <= i < |actions| ==> r[i] == AttemptFor(actions[i], run(i))
    decreases |actions|
  {
    if actions == [] then []
    else
      var n := |actions| - 1;
      AttemptsOf(actions[..n], run) + [AttemptFor(actions[n], run(n))]
  }

  /** The tracked alert after running `actions` in order. */
  function AfterActions(t: TrackedAlert, alert: Alert, actions: seq<RemediationAction>, run: JobClient): TrackedAlert
    decreases |actions|
  {
    if actions == [] then t
    else
      var n := |actions| - 1;
      Record(AfterActions(t, alert, actions[..n], run), AttemptFor(actions[n], run(n)), ResultFor(alert, actions[n], run(n)).error)
  }

  /** The saves of the action loop: one after each action, of the alert as it then stands. */
  function SaveLog(t: TrackedAlert, alert: Alert, actions: seq<RemediationAction>, run: JobClient): (r: seq<StoreEvent>)
    ensures |r| == |actions|
    decreases |actions|
  {
    if actions == [] then []
    else SaveLog(t, alert, actions[..|actions| - 1], run) + [Write(AfterActions(t, alert, actions, run))]
  }

  /** Running the actions appends their attempts in order, counts each one,
      and changes nothing else but `last_error`. */
  lemma {:induction false} AfterActionsHistory(t: TrackedAlert, alert: Alert, actions: seq<RemediationAction>, run: JobClient)
    requires WellFormed(t)
    ensures var r := AfterActions(t, alert, actions, run);
      WellFormed(r)
      && r.attempts == t.attempts + AttemptsOf(actions, run)
      && r.totalAttempts == t.totalAttempts + |actions|
      && r.(attempts := t.attempts, totalAttempts := t.totalAttempts, successfulAttempts := t.successfulAttempts,
            failedAttempts := t.failedAttempts, lastError := t.lastError) == t
    decreases |actions|
  {
    if actions != [] {
      var n := |actions| - 1;
      var prev := AfterActions(t, alert, actions[..n], run);
      AfterActionsHistory(t, alert, actions[..n], run);
      RecordKeepsWellFormed(prev, alert, actions[n], run(n));
      assert AttemptsOf(actions, run) == AttemptsOf(actions[..n], run) + [AttemptFor(actions[n], run(n))];
    }
  }

  /** Where the action loop stands after `i` actions: the results so far,
      the tracked alert, what the store holds and what was written. */
  ghost predicate RanPrefix(alerts0: Dict<TrackedAlert>, log0: seq<StoreEvent>, tracked: TrackedAlert, alert: Alert,
                            actions: seq<RemediationAction>, run: JobClient, i: nat,
                            results: seq<RemediationResult>, t: TrackedAlert, alerts: Dict<TrackedAlert>, log: seq<StoreEvent>)
  {
    i <= |actions|
    && results == ResultsOf(alert, actions[..i], run)
    && t == AfterActions(tracked, alert, actions[..i], run)
    && t.fingerprint == tracked.fingerprint
    && alerts == Put(alerts0, tracked.fingerprint, t)
    && log == log0 + SaveLog(tracked, alert, actions[..i], run)
  }

  /** Running action `i` and saving the alert moves the loop on by one. */
  lemma RanStep(alerts0: Dict<TrackedAlert>, log0: seq<StoreEvent>, tracked: TrackedAlert, alert: Alert,
                actions: seq<RemediationAction>, run: JobClient, i: nat,
                results: seq<RemediationResult>, t: TrackedAlert, alerts: Dict<TrackedAlert>, log: seq<StoreEvent>,
                result: RemediationResult, t': TrackedAlert, alerts': Dict<TrackedAlert>, log': seq<StoreEvent>)
    requires i < |actions|
    requires RanPrefix(alerts0, log0, tracked, alert, actions, run, i, results, t, alerts, log)
    requires result == ResultFor(alert, actions[i], run(i))
    requires t' == Record(t, AttemptFor(actions[i], run(i)), result.error) && t'.fingerprint == t.fingerprint
    requires alerts' == Put(alerts, t'.fingerprint, t') && log' == log + [Write(t')]
    ensures RanPrefix(alerts0, log0, tracked, alert, actions, run, i + 1, results + [result], t', alerts', log')
  {
    StepTracked(tracked, alert, actions, run, i, t, result, t');
    StepLog(log0, tracked, alert, actions, run, i, log, t', log');
    StepResults(alert, actions, run, i, results, result);
    PutPut(alerts0, tracked.fingerprint, t, t');
  }

  lemma StepTracked(tracked: TrackedAlert, alert: Alert, actions: seq<RemediationAction>, run: JobClient, i: nat,
                    t: TrackedAlert, result: RemediationResult, t': TrackedAlert)
    requires i < |actions| && t == AfterActions(tracked, alert, actions[..i], run)
    requires result == ResultFor(alert, actions[i], run(i))
    requires t' == Record(t, AttemptFor(actions[i], run(i)), result.error)
    ensures t' == AfterActions(tracked, alert, actions[..i + 1], run)
  {
    var s := actions[..i + 1];
    assert s[..i] == actions[..i] && s[i] == actions[i];
  }

  lemma StepLog(log0: seq<StoreEvent>, tracked: TrackedAlert, alert: Alert, actions: seq<RemediationAction>, run: JobClient, i: nat,
                log: seq<StoreEvent>, t': TrackedAlert, log': seq<StoreEvent>)
    requires i < |actions| && log == log0 + SaveLog(tracked, alert, actions[..i], run)
    requires t' == AfterActions(tracked, alert, actions[..i + 1], run) && log' == log + [Write(t')]
    ensures log' == log0 + SaveLog(tracked, alert, actions[..i + 1], run)
  {
    var s := actions[..i + 1];
    assert s[..i] == actions[..i];
    assert SaveLog(tracked, alert, s, run) == SaveLog(tracked, alert, actions[..i], run) + [Write(t')];
  }

  lemma StepResults(alert: Alert, actions: seq<RemediationAction>, run: JobClient, i: nat,
                    results: seq<RemediationResult>, result: RemediationResult)
    requires i < |actions| && results == ResultsOf(alert, actions[..i], run)
    requires result == ResultFor(alert, actions[i], run(i))
    ensures results + [result] == ResultsOf(alert, actions[..i + 1], run)
  {
    var s := actions[..i + 1];
    assert s[..i] == actions[..i] && s[i] == actions[i];
  }

  /** The three saves of a remediation with actions add up to its plan. */
  lemma RemedyDone(alerts0: Dict<TrackedAlert>, log0: seq<StoreEvent>, tracked: TrackedAlert, alert: Alert,
                   actions: seq<RemediationAction>, now: int, finishedAt: int, instanceId: string, run: JobClient,
                   t1: TrackedAlert, alerts1: Dict<TrackedAlert>, log1: seq<StoreEvent>,
                   results: seq<RemediationResult>, tn: TrackedAlert, alerts2: Dict<TrackedAlert>, log2: seq<StoreEvent>,
                   t2: TrackedAlert, alerts3: Dict<TrackedAlert>, log3: seq<StoreEvent>)
    requires actions != []
    requires t1 == UpdateStatus(tracked, Remediating, now).(processedBy := Some(instanceId))
    requires alerts1 == Put(alerts0, t1.fingerprint, t1) && log1 == log0 + [Write(t1)]
    requires results == ResultsOf(alert, actions, run) && tn == AfterActions(t1, alert, actions, run)
    requires tn.fingerprint == t1.fingerprint
    requires alerts2 == Put(alerts1, t1.fingerprint, tn) && log2 == log1 + SaveLog(t1, alert, actions, run)
    requires t2 == UpdateStatus(tn, Remediated, finishedAt)
    requires alerts3 == Put(alerts2, t2.fingerprint, t2) && log3 == log2 + [Write(t2)]
    ensures var p := RemedyPlan(tracked, alert, actions, now, finishedAt, instanceId, run);
      p.reply == Ok(results) && p.stored == Some(t2)
      && alerts3 == Put(alerts0, tracked.fingerprint, t2) && log3 == log0 + p.events
  {
    assert t1.fingerprint == tracked.fingerprint && t2.fingerprint == tracked.fingerprint;
    PutPut(alerts0, tracked.fingerprint, t1, tn);
    PutPut(alerts0, tracked.fingerprint, tn, t2);
    RemedyPlanWithActions(tracked, alert, actions, now, finishedAt, instanceId, run);
    var p := RemedyPlan(tracked, alert, actions, now, finishedAt, instanceId, run);
    var events := [Write(t1)] + SaveLog(t1, alert, actions, run) + [Write(t2)];
    assert p.stored == Some(t2);
    assert p.events == events;
    EventsRegrouped(log0, [Write(t1)], SaveLog(t1, alert, actions, run), [Write(t2)]);
  }

  lemma EventsRegrouped(a: seq<StoreEvent>, b: seq<StoreEvent>, c: seq<StoreEvent>, d: seq<StoreEvent>)
    ensures a + b + c + d == a + (b + c + d)
  {
  }

  /** The plan of a remediation with actions, spelled out. */
  lemma RemedyPlanWithActions(tracked: TrackedAlert, alert: Alert, acts: seq<RemediationAction>,
                              now: int, finishedAt: int, instanceId: string, run: JobClient)
    requires acts != []
    ensures var t1 := UpdateStatus(tracked, Remediating, now).(processedBy := Some(instanceId));
      var t2 := UpdateStatus(AfterActions(t1, alert, acts, run), Remediated, finishedAt);
      RemedyPlan(tracked, alert, acts, now, finishedAt, instanceId, run)
        == Plan(Ok(ResultsOf(alert, acts, run)), Some(t2), [Write(t1)] + SaveLog(t1, alert, acts, run) + [Write(t2)])
  {
  }

  /** An alert found resolved, or whose handler lookup raised, ends after it is opened. */
  lemma SkippedOrFailed(alerts0: Dict<TrackedAlert>, log0: seq<StoreEvent>, existing: Option<TrackedAlert>, alert: Alert,
                        actions: Result<seq<RemediationAction>>, now: int, finishedAt: int, instanceId: string, run: JobClient,
                        alerts1: Dict<TrackedAlert>, log1: seq<StoreEvent>)
    requires var t0 := existing.GetOr(NewTracked(alert, now, instanceId));
      (t0.status == TrackingStatus.Resolved || actions.Err?)
      && alerts1 == (if existing.None? then Put(alerts0, alert.fingerprint, t0) else alerts0)
      && log1 == log0 + ([Read(alert.fingerprint)] + (if existing.None? then [Write(t0)] else []))
    ensures var q := FiringPlan(existing, alert, actions, now, finishedAt, instanceId, run);
      var t0 := existing.GetOr(NewTracked(alert, now, instanceId));
      q.reply == (if t0.status == TrackingStatus.Resolved then Ok([]) else Err(actions.error))
      && alerts1 == (if q.stored.Some? then Put(alerts0, alert.fingerprint, q.stored.value) else alerts0)
      && log1 == log0 + q.events
  {
  }

  /** Opening the alert and then remediating it add up to the firing plan. */
  lemma LockedDone(alerts0: Dict<TrackedAlert>, log0: seq<StoreEvent>, existing: Option<TrackedAlert>, alert: Alert,
                   acts: seq<RemediationAction>, now: int, finishedAt: int, instanceId: string, run: JobClient,
                   alerts1: Dict<TrackedAlert>, log1: seq<StoreEvent>, alerts2: Dict<TrackedAlert>, log2: seq<StoreEvent>)
    requires var t0 := existing.GetOr(NewTracked(alert, now, instanceId));
      t0.status != TrackingStatus.Resolved && t0.fingerprint == alert.fingerprint
      && alerts1 == (if existing.None? then Put(alerts0, alert.fingerprint, t0) else alerts0)
      && log1 == log0 + ([Read(alert.fingerprint)] + (if existing.None? then [Write(t0)] else []))
    requires var p := RemedyPlan(existing.GetOr(NewTracked(alert, now, instanceId)), alert, acts, now, finishedAt, instanceId, run);
      p.stored.Some? && alerts2 == Put(alerts1, alert.fingerprint, p.stored.value) && log2 == log1 + p.events
    ensures var q := FiringPlan(existing, alert, Ok(acts), now, finishedAt, instanceId, run);
      var p := RemedyPlan(existing.GetOr(NewTracked(alert, now, instanceId)), alert, acts, now, finishedAt, instanceId, run);
      q.reply == p.reply && q.stored == p.stored
      && alerts2 == Put(alerts0, alert.fingerprint, p.stored.value) && log2 == log0 + q.events
  {
    var t0 := existing.GetOr(NewTracked(alert, now, instanceId));
    var p := RemedyPlan(t0, alert, acts, now, finishedAt, instanceId, run);
    var first := [Read(alert.fingerprint)] + (if existing.None? then [Write(t0)] else []);
    assert FiringPlan(existing, alert, Ok(acts), now, finishedAt, instanceId, run) == p.(events := first + p.events);
    if existing.None? {
      PutPut(alerts0, alert.fingerprint, t0, p.stored.value);
    }
    EventsRegrouped(log0, first, p.events, []);
    assert log0 + first + p.events + [] == log0 + first + p.events;
    assert first + p.events + [] == first + p.events;
  }

  /** The alert the engine starts tracking when it first sees a fingerprint. */
  function NewTracked(alert: Alert, now: int, instanceId: string): (t: TrackedAlert)
    ensures WellFormed(t) && t.attempts == []
    ensures t.fingerprint == alert.fingerprint && t.alertname == AlertName(alert)
    ensures t.instance == Some(Instance(alert)) && t.severity == Some(Severity(alert))
    ensures t.labels == alert.labels && t.annotations == alert.annotations
    ensures t.status == Received && t.receivedAt == now && t.statusChangedAt == now
    ensures t.processedBy == Some(instanceId) && t.lastError == None
  {
    TrackedAlert(alert.fingerprint, AlertName(alert), Some(Instance(alert)), Some(Severity(alert)),
      alert.labels, alert.annotations, Received, now, now, None, [], 0, 0, 0, Some(instanceId), None)
  }

  /** What a firing alert's processing under the lock answers, what it
      leaves in the store under the fingerprint (none if it wrote nothing)
      and the store calls it makes, in order. */
  datatype Plan = Plan(reply: Result<seq<RemediationResult>>, stored: Option<TrackedAlert>, events: seq<StoreEvent>)

  function FiringPlan(existing: Option<TrackedAlert>, alert: Alert, actions: Result<seq<RemediationAction>>,
                      now: int, finishedAt: int, instanceId: string, run: JobClient): Plan
  {
    var t0 := existing.GetOr(NewTracked(alert, now, instanceId));
    var created := if existing.None? then Some(t0) else None;
    var first := [Read(alert.fingerprint)] + (if existing.None? then [Write(t0)] else []);
    if t0.status == TrackingStatus.Resolved then Plan(Ok([]), created, first)
    else match actions
      case Err(m) => Plan(Err(m), created, first)
      case Ok(acts) =>
        var p := RemedyPlan(t0, alert, acts, now, finishedAt, instanceId, run);
        p.(events := first + p.events)
  }

  /** The part of the plan once the actions are known: mark the alert, run
      the actions, mark it again. */
  function RemedyPlan(t0: TrackedAlert, alert: Alert, acts: seq<RemediationAction>,
                      now: int, finishedAt: int, instanceId: string, run: JobClient): Plan
  {
    if acts == [] then
      var t1 := UpdateStatus(t0, Remediated, now);
      Plan(Ok([]), Some(t1), [Write(t1)])
    else
      var t1 := UpdateStatus(t0, Remediating, now).(processedBy := Some(instanceId));
      var t2 := UpdateStatus(AfterActions(t1, alert, acts, run), Remediated, finishedAt);
      Plan(Ok(ResultsOf(alert, acts, run)), Some(t2), [Write(t1)] + SaveLog(t1, alert, acts, run) + [Write(t2)])
  }

  /** An alert already marked resolved is left alone: nothing is run or written. */
  lemma ResolvedAlertSkipped(t: TrackedAlert, alert: Alert, actions: Result<seq<RemediationAction>>,
                             now: int, finishedAt: int, instanceId: string, run: JobClient)
    requires t.status == TrackingStatus.Resolved
    ensures FiringPlan(Some(t), alert, actions, now, finishedAt, instanceId, run) == Plan(Ok([]), None, [Read(alert.fingerprint)])
  {
  }

  /** A new fingerprint is saved as received before any handler is asked,
      so it stays tracked even when the handler lookup raises. */
  lemma NewAlertSavedFirst(alert: Alert, actions: Result<seq<RemediationAction>>,
                           now: int, finishedAt: int, instanceId: string, run: JobClient)
    ensures var p := FiringPlan(None, alert, actions, now, finishedAt, instanceId, run);
      p.events[..2] == [Read(alert.fingerprint), Write(NewTracked(alert, now, instanceId))]
      && (actions.Err? ==> p.reply == Err(actions.error) && p.stored == Some(NewTracked(alert, now, instanceId)))
  {
  }

  /** With no actions the alert is marked remediated at once, with no attempt. */
  lemma NoActionsRemediated(existing: Option<TrackedAlert>, alert: Alert, now: int, finishedAt: int,
                            instanceId: string, run: JobClient)
    requires existing.Some? ==> existing.value.status != TrackingStatus.Resolved
    ensures var p := FiringPlan(existing, alert, Ok([]), now, finishedAt, instanceId, run);
      var t0 := existing.GetOr(NewTracked(alert, now, instanceId));
      p.reply == Ok([]) && p.stored.Some?
      && p.stored.value.status == Remediated && p.stored.value.statusChangedAt == now
      && p.stored.value.attempts == t0.attempts
  {
  }

  /** With actions, every one is run in order and recorded; the alert ends
      remediated at the final clock reading, claimed by this instance, with
      one result and one attempt per action, and it stays well formed. The
      store is written once after the status change, once per action and
      once at the end. */
  lemma ActionsRemediated(existing: Option<TrackedAlert>, alert: Alert, acts: seq<RemediationAction>,
                          now: int, finishedAt: int, instanceId: string, run: JobClient)
    requires existing.Some? ==> existing.value.status != TrackingStatus.Resolved && WellFormed(existing.value)
    requires acts != []
    ensures var p := FiringPlan(existing, alert, Ok(acts), now, finishedAt, instanceId, run);
      var t0 := existing.GetOr(NewTracked(alert, now, instanceId));
      p.reply == Ok(ResultsOf(alert, acts, run)) && p.stored.Some?
      && WellFormed(p.stored.value)
      && p.stored.value.status == Remediated && p.stored.value.statusChangedAt == finishedAt
      && p.stored.value.processedBy == Some(instanceId)
      && p.stored.value.attempts == t0.attempts + AttemptsOf(acts, run)
      && p.stored.value.totalAttempts == t0.totalAttempts + |acts|
      && |p.events| == |acts| + 3 + (if existing.None? then 1 else 0)
      && p.events[|p.events| - 1] == Write(p.stored.value)
  {
    var t0 := existing.GetOr(NewTracked(alert, now, instanceId));
    var t1 := UpdateStatus(t0, Remediating, now).(processedBy := Some(instanceId));
    UpdateStatusKeepsWellFormed(t0, Remediating, now);
    AfterActionsHistory(t1, alert, acts, run);
    var tn := AfterActions(t1, alert, acts, run);
    UpdateStatusKeepsWellFormed(tn, Remediated, finishedAt);
  }

  /** What handling a resolved alert leaves under its fingerprint: nothing
      for an untracked or already resolved alert, otherwise the alert
      marked resolved. */
  function ResolvedPlan(existing: Option<TrackedAlert>, now: int): Option<TrackedAlert>
  {
    match existing
    case None => None
    case Some(t) => if t.status == TrackingStatus.Resolved then None else Some(UpdateStatus(t, TrackingStatus.Resolved, now))
  }

  /** Resolving stamps the resolution time, keeps the history and a
      well-formed alert well formed; resolving again writes nothing. */
  lemma ResolveStamps(existing: Option<TrackedAlert>, now: int, later: int)
    ensures var r := ResolvedPlan(existing, now);
      r.Some? <==> existing.Some? && existing.value.status != TrackingStatus.Resolved
    ensures var r := ResolvedPlan(existing, now);
      r.Some? ==> (r.value.status == TrackingStatus.Resolved && r.value.resolvedAt == Some(now)
        && r.value.attempts == existing.value.attempts && r.value.fingerprint == existing.value.fingerprint
        && (WellFormed(existing.value) ==> WellFormed(r.value))
        && ResolvedPlan(r, later) == None)
  {
    if existing.Some? && existing.value.status != TrackingStatus.Resolved && WellFormed(existing.value) {
      UpdateStatusKeepsWellFormed(existing.value, TrackingStatus.Resolved, now);
    }
  }

  /** The key of the per-fingerprint lock. */
  function LockKey(fingerprint: string): string
  {
    "alert:" + fingerprint
  }

  /** `health_check`'s overall verdict. */
  function OverallStatus(stackstormHealthy: bool, storeHealthy: bool): (s: string)
    ensures s == "healthy" <==> stackstormHealthy && storeHealthy
    ensures s != "healthy" ==> s == "degraded"
  {
    if stackstormHealthy && storeHealthy then "healthy" else "degraded"
  }

  datatype HealthReport = HealthReport(status: string, stackstorm: bool, stateStore: bool, handlers: nat)

  /** A stored alert is filed under its own fingerprint. */
  lemma StoredUnderFingerprint(d: Dict<TrackedAlert>, fingerprint: string)
    requires FiledByFingerprint(d)
    ensures Get(d, fingerprint).Some? ==> Get(d, fingerprint).value.fingerprint == fingerprint
  {
  }

  class RemediationEngine {
    const registry: HandlerRegistry
    const store: MemoryStateStore
    const instanceId: string
    var initialized: bool

    ghost predicate Valid()
      reads this, registry, store
    {
      registry.Valid() && store.Valid()
    }

    constructor (registry: HandlerRegistry, store: MemoryStateStore, settings: Config.Settings)
      requires registry.Valid() && store.Valid()
      ensures Valid()
      ensures this.registry == registry && this.store == store
      ensures instanceId == settings.instanceId && !initialized
    {
      this.registry := registry;
      this.store := store;
      instanceId := settings.instanceId;
      initialized := false;
    }

    /** `initialize`: once only, register the mapping-driven handler, then
        the example handlers, then load the mappings. */
    method Initialize(dir: Config.MappingDir)
      requires Valid()
      modifies this, registry
      ensures Valid() && initialized
      ensures old(initialized) ==> registry.handlers == old(registry.handlers) && registry.mappings == old(registry.mappings)
      ensures !old(initialized) ==>
        registry.handlers == RegisterAll(Put(old(registry.handlers), Name(YamlConfigHandler), YamlConfigHandler), ExampleHandlerList)
        && registry.mappings == Config.AllMappings(dir)
    {
      if initialized {
        return;
      }
      registry.Register(YamlConfigHandler);
      RegisterExampleHandlers(registry);
      registry.LoadMappings(dir);
      initialized := true;
    }

    /** `process_alert`: `now` is the clock when the call starts and
        `finishedAt` the reading taken after the last action. */
    method ProcessAlert(alert: Alert, now: int, finishedAt: int, run: JobClient) returns (r: Result<seq<RemediationResult>>)
      requires Valid()
      modifies store
      ensures Valid()
      ensures store.activeLocks == old(store.activeLocks)
      ensures alert.status == Alerts.Resolved ==>
        var stored := ResolvedPlan(Get(old(store.alerts), alert.fingerprint), now);
        r == Ok([])
        && store.lockKeys == old(store.lockKeys)
        && store.alerts == (if stored.Some? then Put(old(store.alerts), alert.fingerprint, stored.value) else old(store.alerts))
        && store.log == old(store.log) + [Read(alert.fingerprint)] + (if stored.Some? then [Write(stored.value)] else [])
      ensures alert.status == Firing ==> store.lockKeys == old(store.lockKeys) + {LockKey(alert.fingerprint)}
      ensures alert.status == Firing && LockKey(alert.fingerprint) in old(store.activeLocks) ==>
        r == Ok([]) && store.alerts == old(store.alerts) && store.log == old(store.log)
      ensures alert.status == Firing && LockKey(alert.fingerprint) !in old(store.activeLocks) ==>
        var p := FiringPlan(Get(old(store.alerts), alert.fingerprint), alert,
                            ActionsFor(FindAll(registry.handlers, registry.mappings, alert), alert),
                            now, finishedAt, instanceId, run);
        r == p.reply
        && store.alerts == (if p.stored.Some? then Put(old(store.alerts), alert.fingerprint, p.stored.value) else old(store.alerts))
        && store.log == old(store.log) + p.events
    {
      if alert.status == Alerts.Resolved {
        HandleResolvedAlert(alert, now);
        return Ok([]);
      }
      var key := LockKey(alert.fingerprint);
      var acquired := store.Lock(key);
      if !acquired {
        store.Unlock(key, acquired);
        return Ok([]);
      }
      r := ProcessLocked(alert, now, finishedAt, run);
      store.Unlock(key, acquired);
    }

    /** `_handle_resolved_alert` */
    method HandleResolvedAlert(alert: Alert, now: int)
      requires Valid()
      modifies store`alerts, store`log
      ensures Valid()
      ensures var stored := ResolvedPlan(Get(old(store.alerts), alert.fingerprint), now);
        store.alerts == (if stored.Some? then Put(old(store.alerts), alert.fingerprint, stored.value) else old(store.alerts))
        && store.log == old(store.log) + [Read(alert.fingerprint)] + (if stored.Some? then [Write(stored.value)] else [])
    {
      StoredUnderFingerprint(store.alerts, alert.fingerprint);
      var tracked := store.GetAlert(alert.fingerprint);
      if tracked.None? {
        return;
      }
      if tracked.value.status == TrackingStatus.Resolved {
        return;
      }
      var t := UpdateStatus(tracked.value, TrackingStatus.Resolved, now);
      store.SaveAlert(t);
    }

    /** The body of `process_alert` once the lock is held. */
    method ProcessLocked(alert: Alert, now: int, finishedAt: int, run: JobClient) returns (r: Result<seq<RemediationResult>>)
      requires store.Valid()
      modifies store`alerts, store`log
      ensures store.Valid()
      ensures var p := FiringPlan(Get(old(store.alerts), alert.fingerprint), alert,
                                  ActionsFor(FindAll(registry.handlers, registry.mappings, alert), alert),
                                  now, finishedAt, instanceId, run);
        r == p.reply
        && store.alerts == (if p.stored.Some? then Put(old(store.alerts), alert.fingerprint, p.stored.value) else old(store.alerts))
        && store.log == old(store.log) + p.events
    {
      var existing, tracked := OpenAlert(alert, now);
      if tracked.status == TrackingStatus.Resolved {
        SkippedOrFailed(old(store.alerts), old(store.log), existing, alert, Ok([]), now, finishedAt, instanceId, run, store.alerts, store.log);
        return Ok([]);
      }
      var actions := registry.GetActionsForAlert(alert);
      if actions.Err? {
        SkippedOrFailed(old(store.alerts), old(store.log), existing, alert, actions, now, finishedAt, instanceId, run, store.alerts, store.log);
        return Err(actions.error);
      }
      ghost var alerts1, log1 := store.alerts, store.log;
      r := Remedy(alert, tracked, actions.value, now, finishedAt, run);
      LockedDone(old(store.alerts), old(store.log), existing, alert, actions.value, now, finishedAt, instanceId, run,
        alerts1, log1, store.alerts, store.log);
    }

    /** Get or create the tracked alert: a fingerprint seen for the first
        time is saved as received at once. */
    method OpenAlert(alert: Alert, now: int) returns (existing: Option<TrackedAlert>, tracked: TrackedAlert)
      requires store.Valid()
      modifies store`alerts, store`log
      ensures store.Valid()
      ensures existing == Get(old(store.alerts), alert.fingerprint)
      ensures tracked == existing.GetOr(NewTracked(alert, now, instanceId)) && tracked.fingerprint == alert.fingerprint
      ensures store.alerts == if existing.None? then Put(old(store.alerts), alert.fingerprint, tracked) else old(store.alerts)
      ensures store.log == old(store.log) + ([Read(alert.fingerprint)] + (if existing.None? then [Write(tracked)] else []))
    {
      StoredUnderFingerprint(store.alerts, alert.fingerprint);
      existing := store.GetAlert(alert.fingerprint);
      if existing.None? {
        tracked := NewTracked(alert, now, instanceId);
        store.SaveAlert(tracked);
        EventsRegrouped(old(store.log), [Read(alert.fingerprint)], [Write(tracked)], []);
      } else {
        tracked := existing.value;
      }
    }

    /** From the handler lookup to the end: with no actions the alert is
        marked remediated at once; otherwise it is marked remediating, the
        actions run, and it is marked remediated. */
    method Remedy(alert: Alert, tracked: TrackedAlert, actions: seq<RemediationAction>, now: int, finishedAt: int, run: JobClient)
      returns (r: Result<seq<RemediationResult>>)
      requires store.Valid()
      modifies store`alerts, store`log
      ensures store.Valid()
      ensures var p := RemedyPlan(tracked, alert, actions, now, finishedAt, instanceId, run);
        r == p.reply && p.stored.Some?
        && store.alerts == Put(old(store.alerts), tracked.fingerprint, p.stored.value)
        && store.log == old(store.log) + p.events
    {
      var t := tracked;
      if actions == [] {
        t := UpdateStatus(t, Remediated, now);
        store.SaveAlert(t);
        return Ok([]);
      }
      t := UpdateStatus(t, Remediating, now).(processedBy := Some(instanceId));
      store.SaveAlert(t);
      ghost var t1, alerts1, log1 := t, store.alerts, store.log;
      var results;
      results, t := RunActions(alert, actions, t, run);
      ghost var tn, alerts2, log2 := t, store.alerts, store.log;
      t := UpdateStatus(t, Remediated, finishedAt);
      store.SaveAlert(t);
      RemedyDone(old(store.alerts), old(store.log), tracked, alert, actions, now, finishedAt, instanceId, run,
        t1, alerts1, log1, results, tn, alerts2, log2, t, store.alerts, store.log);
      r := Ok(results);
    }

    /** The `for action in actions` loop over `_execute_action`. */
    method RunActions(alert: Alert, actions: seq<RemediationAction>, tracked: TrackedAlert, run: JobClient)
      returns (results: seq<RemediationResult>, t: TrackedAlert)
      requires store.Valid()
      requires Get(store.alerts, tracked.fingerprint) == Some(tracked)
      modifies store`alerts, store`log
      ensures store.Valid()
      ensures results == ResultsOf(alert, actions, run)
      ensures t == AfterActions(tracked, alert, actions, run)
      ensures t.fingerprint == tracked.fingerprint
      ensures store.alerts == Put(old(store.alerts), tracked.fingerprint, t)
      ensures store.log == old(store.log) + SaveLog(tracked, alert, actions, run)
    {
      results := [];
      t := tracked;
      PutSame(store.alerts, tracked.fingerprint, tracked);
      var i := 0;
      while i < |actions|
        invariant 0 <= i <= |actions|
        invariant store.Valid()
        invariant RanPrefix(old(store.alerts), old(store.log), tracked, alert, actions, run, i, results, t, store.alerts, store.log)
      {
        ghost var alerts0, log0 := store.alerts, store.log;
        var result, t' := ExecuteAction(alert, actions[i], t, run(i));
        RanStep(old(store.alerts), old(store.log), tracked, alert, actions, run, i, results, t, alerts0, log0, result, t', store.alerts, store.log);
        results, t := results + [result], t';
        i := i + 1;
      }
      assert actions[..i] == actions;
    }

    /** `_execute_action`: submit, wait when the action has a timeout, and
        in every case record the attempt and save the alert. */
    method ExecuteAction(alert: Alert, action: RemediationAction, tracked: TrackedAlert, run: ActionRun)
      returns (result: RemediationResult, t: TrackedAlert)
      requires store.Valid()
      modifies store`alerts, store`log
      ensures store.Valid()
      ensures result == ResultFor(alert, action, run)
      ensures t == Record(tracked, AttemptFor(action, run), result.error)
      ensures t.fingerprint == tracked.fingerprint
      ensures store.alerts == Put(old(store.alerts), t.fingerprint, t)
      ensures store.log == old(store.log) + [Write(t)]
    {
      result := RemediationResult(alert.fingerprint, AlertName(alert), action.name, Running, run.startedAt, None, None, map[], None);
      var attempt := RemediationAttempt(action.name, action.stackstormAction, "running", run.startedAt, None, None, None);
      match run.submission {
        case SubmitFailed(f) =>
          result := result.(status := Failed, error := Some(FailureText(f)));
          attempt := attempt.(status := "failed", error := Some(FailureText(f)));
        case Submitted(given) =>
          var executionId := given.GetOr("");
          result := result.(executionId := Some(executionId));
          attempt := attempt.(executionId := Some(executionId));
          if action.timeout > 0 {
            match run.completion {
              case WaitFailed(f) =>
                result := result.(status := Failed, error := Some(FailureText(f)));
                attempt := attempt.(status := "failed", error := Some(FailureText(f)));
              case Finished(status, output) =>
                if status == "succeeded" {
                  result := result.(status := Success, output := output);
                  attempt := attempt.(status := "success");
                } else {
                  result := result.(status := Failed, error := Some(StderrOr(output, "Execution " + status)));
                  attempt := attempt.(status := "failed", error := result.error);
                }
            }
          } else {
            result := result.(status := Success, output := map["execution_id" := VStr(executionId)]);
            attempt := attempt.(status := "success");
          }
      }
      result := result.(completedAt := Some(run.completedAt));
      attempt := attempt.(completedAt := result.completedAt);
      t := AddRemediationAttempt(tracked, attempt);
      if result.error.Some? && result.error.value != "" {
        t := t.(lastError := result.error);
      }
      store.SaveAlert(t);
    }

    /** `get_tracked_alerts`: the first page of `limit` alerts, newest first. */
    method GetTrackedAlerts(status: Option<string>, limit: int) returns (r: seq<TrackedAlert>)
      ensures r == Page(SortByReceivedDesc(FilterStatus(Dicts.Values(store.alerts), status)), 0, limit)
    {
      r := store.ListAlerts(status, limit, 0);
    }

    /** `get_tracked_alert` */
    method GetTrackedAlert(fingerprint: string) returns (r: Option<TrackedAlert>)
      modifies store`log
      ensures r == Get(store.alerts, fingerprint)
      ensures store.log == old(store.log) + [Read(fingerprint)]
    {
      r := store.GetAlert(fingerprint);
    }

    /** `get_alert_stats` */
    method GetAlertStats() returns (st: AlertStats)
      ensures st == StatsOf(Dicts.Values(store.alerts))
    {
      st := store.GetStats();
    }

    /** `health_check`, given the platform client's answer. */
    method HealthCheck(stackstormHealthy: bool) returns (report: HealthReport)
      ensures report.stackstorm == stackstormHealthy && report.stateStore
      ensures report.status == "healthy" <==> stackstormHealthy
      ensures report.handlers == |registry.handlers|
    {
      var storeHealthy := store.HealthCheck();
      report := HealthReport(OverallStatus(stackstormHealthy, storeHealthy), stackstormHealthy, storeHealthy,
        |registry.ListHandlers()|);
    }
  }
}
