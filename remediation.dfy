/** Remediation actions and their per-execution results. */
module Remediation {
  import opened Wrappers
  import opened Values

  datatype RemediationStatus = Pending | Running | Success | Failed | Skipped

  function RemediationStatusValue(s: RemediationStatus): (r: string)
    ensures s == Success <==> r == "success"
    ensures s == Failed <==> r == "failed"
  {
    match s
    case Pending => "pending"
    case Running => "running"
    case Success => "success"
    case Failed => "failed"
    case Skipped => "skipped"
  }

  /** One job to submit to the automation platform; timeouts and delays are seconds. */
  datatype RemediationAction = RemediationAction(
    name: string,
    description: string,
    stackstormAction: string,
    parameters: map<string, Value>,
    timeout: int,
    retryCount: int,
    retryDelay: int)

  const DefaultTimeout := 300
  const DefaultRetryCount := 0
  const DefaultRetryDelay := 30

  /** An action built from a name and a job reference only. */
  function NewAction(name: string, stackstormAction: string): (a: RemediationAction)
    ensures a.name == name && a.stackstormAction == stackstormAction
    ensures a.description == "" && a.parameters == map[]
    ensures a.timeout == 300 && a.retryCount == 0 && a.retryDelay == 30
  {
    RemediationAction(name, "", stackstormAction, map[], DefaultTimeout, DefaultRetryCount, DefaultRetryDelay)
  }

  datatype RemediationResult = RemediationResult(
    alertFingerprint: string,
    alertName: string,
    actionName: string,
    status: RemediationStatus,
    startedAt: int,
    completedAt: Option<int>,
    executionId: Option<string>,
    output: map<string, Value>,
    error: Option<string>)

  /** Elapsed seconds once the execution has completed, none before. */
  function DurationSeconds(r: RemediationResult): (d: Option<int>)
    ensures d.Some? <==> r.completedAt.Some?
    ensures d.Some? ==> r.startedAt + d.value == r.completedAt.value
  {
    match r.completedAt
    case Some(c) => Some(c - r.startedAt)
    case None => None
  }
}
