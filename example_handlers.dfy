/** The four keyword handlers shipped as examples: each recognises alerts by
    words in the lower-cased alert name and proposes fixed jobs whose
    parameters are the host, a few job-specific values and the alert's own
    parameters. */
module ExampleHandlers {
  import opened Wrappers
  import opened Dicts
  import opened Strings
  import opened Values
  import opened Alerts
  import opened Remediation
  import opened HandlerBase

  /** `any(keyword in text for keyword in keywords)` */
  function AnyKeyword(text: string, keywords: seq<string>): (r: bool)
    ensures r <==> exists i :: 0 <= i < |keywords| && Contains(text, keywords[i])
  {
    if keywords == [] then false
    else if Contains(text, keywords[0]) then true
    else
      var r := AnyKeyword(text, keywords[1..]);
      assert forall i :: 1 <= i < |keywords| ==> keywords[i] == keywords[1..][i - 1];
      r
  }

  /** `context.alert.alertname.lower()` */
  function LoweredName(ctx: HandlerContext): string
  {
    Lower(AlertName(ctx.alert))
  }

  /** A job a handler proposes, before the alert's parameters are added. */
  datatype Proposal = Proposal(name: string, description: string, job: string, base: map<string, Value>)

  /** The keys the handlers put in front of the alert's parameters. */
  const JobKeys := {"host", "hosts", "service", "action", "target", "force", "cmd"}

  /** A proposal as an action with the default timing, its parameters being
      the literal `{..., **build_parameters(context)}`. */
  function Realise(p: Proposal, ctx: HandlerContext): RemediationAction
  {
    RemediationAction(p.name, p.description, p.job, WithAlertParameters(p.base, ctx), DefaultTimeout, DefaultRetryCount, DefaultRetryDelay)
  }

  function RealiseAll(ps: seq<Proposal>, ctx: HandlerContext): (r: seq<RemediationAction>)
    ensures |r| == |ps|
    ensures forall i :: 0 <= i < |ps| ==> r[i] == Realise(ps[i], ctx)
  {
    seq(|ps|, i requires 0 <= i < |ps| => Realise(ps[i], ctx))
  }

  /** The alert's own parameters never collide with the job-specific keys. */
  lemma JobKeysKept()
    ensures JobKeys !! BuiltKeys
  {
    assert forall k :: k in BuiltKeys ==> |k| >= 8;
    assert forall k :: k in JobKeys ==> |k| < 8;
  }

  /** A realised proposal keeps the proposal's name, job and parameters and
      carries all of the alert's parameters unchanged, with the default timing. */
  lemma RealiseKeeps(p: Proposal, ctx: HandlerContext)
    requires p.base.Keys <= JobKeys
    ensures var r := Realise(p, ctx);
      r.name == p.name && r.description == p.description && r.stackstormAction == p.job
      && r.timeout == 300 && r.retryCount == 0 && r.retryDelay == 30
      && r.parameters.Keys == p.base.Keys + BuildParameters(ctx).Keys
      && (forall k :: k in p.base ==> r.parameters[k] == p.base[k])
      && (forall k :: k in BuildParameters(ctx) ==> r.parameters[k] == BuildParameters(ctx)[k])
  {
    JobKeysKept();
  }

  function HostParameter(ctx: HandlerContext): Value
  {
    VStr(Instance(ctx.alert))
  }

  // ---- high CPU ----

  const HighCpuName := "high_cpu"
  const HighCpuDescription := "Handles high CPU usage alerts by restarting services or scaling"
  const HighCpuKeywords := ["cpu", "processor", "load"]

  predicate HighCpuCanHandle(ctx: HandlerContext)
  {
    AnyKeyword(LoweredName(ctx), HighCpuKeywords)
  }

  function IdentifyHighCpu(ctx: HandlerContext): Proposal
  {
    Proposal("identify_high_cpu_process", "Identify the process consuming high CPU", "linux.top",
      map["host" := HostParameter(ctx)])
  }

  function RestartService(service: string, ctx: HandlerContext): Proposal
  {
    Proposal("restart_" + service, "Restart the " + service + " service", "linux.service",
      map["host" := HostParameter(ctx), "service" := VStr(service), "action" := VStr("restart")])
  }

  /** Process identification for warning and critical alerts; a restart of
      the `service` label's service as well for critical ones that name it,
      after the identification. */
  function HighCpuProposals(ctx: HandlerContext): (r: seq<Proposal>)
    ensures var severity := Severity(ctx.alert);
      var identify := severity == "warning" || severity == "critical";
      var restart := severity == "critical" && LabelOr(ctx.alert.labels, "service", "") != [];
      |r| == (if identify then 1 else 0) + (if restart then 1 else 0)
      && (identify ==> r[0] == IdentifyHighCpu(ctx))
      && (restart ==> r[|r| - 1] == RestartService(LabelOr(ctx.alert.labels, "service", ""), ctx))
  {
    var severity := Severity(ctx.alert);
    var service := LabelOr(ctx.alert.labels, "service", "");
    (if severity in ["warning", "critical"] then [IdentifyHighCpu(ctx)] else [])
    + (if severity == "critical" && service != [] then [RestartService(service, ctx)] else [])
  }

  /** Both proposals address the alert's host. */
  lemma HighCpuBases(ctx: HandlerContext)
    ensures forall p :: p in HighCpuProposals(ctx) ==> p.base.Keys <= JobKeys && p.base["host"] == HostParameter(ctx)
  {
    var service := LabelOr(ctx.alert.labels, "service", "");
    assert IdentifyHighCpu(ctx).base.Keys <= JobKeys;
    assert RestartService(service, ctx).base.Keys <= JobKeys;
  }

  function HighCpuActions(ctx: HandlerContext): seq<RemediationAction>
  {
    RealiseAll(HighCpuProposals(ctx), ctx)
  }

  // ---- disk space ----

  const DiskSpaceName := "disk_space"
  const DiskSpaceDescription := "Handles disk space alerts by cleaning up and expanding storage"
  const DiskSpaceKeywords := ["disk", "storage", "filesystem", "space"]

  predicate DiskSpaceCanHandle(ctx: HandlerContext)
  {
    AnyKeyword(LoweredName(ctx), DiskSpaceKeywords)
  }

  /** `labels.get("mountpoint", "/")` */
  function MountPoint(ctx: HandlerContext): (m: string)
    ensures !HasKey(ctx.alert.labels, "mountpoint") ==> m == "/"
    ensures HasKey(ctx.alert.labels, "mountpoint") ==> Get(ctx.alert.labels, "mountpoint") == Some(m)
  {
    LabelOr(ctx.alert.labels, "mountpoint", "/")
  }

  /** Always the log cleanup under the mount point, then the package cache. */
  function DiskSpaceProposals(ctx: HandlerContext): (r: seq<Proposal>)
    ensures |r| == 2
    ensures r[0].name == "cleanup_old_logs" && r[0].job == "linux.rm"
    ensures r[0].base == map["host" := HostParameter(ctx), "target" := VStr(MountPoint(ctx) + "/var/log/*.gz"), "force" := VBool(true)]
    ensures r[1].name == "cleanup_package_cache" && r[1].job == "linux.apt_clean"
    ensures r[1].base == map["host" := HostParameter(ctx)]
    ensures forall i :: 0 <= i < |r| ==> r[i].base.Keys <= JobKeys
  {
    [Proposal("cleanup_old_logs", "Remove old log files to free up space", "linux.rm",
       map["host" := HostParameter(ctx), "target" := VStr(MountPoint(ctx) + "/var/log/*.gz"), "force" := VBool(true)]),
     Proposal("cleanup_package_cache", "Clean up package manager cache", "linux.apt_clean",
       map["host" := HostParameter(ctx)])]
  }

  function DiskSpaceActions(ctx: HandlerContext): seq<RemediationAction>
  {
    RealiseAll(DiskSpaceProposals(ctx), ctx)
  }

  // ---- service down ----

  const ServiceDownName := "service_down"
  const ServiceDownDescription := "Handles service down alerts by restarting the service"
  const ServiceDownKeywords := ["down", "unavailable", "unhealthy", "dead"]

  predicate ServiceDownCanHandle(ctx: HandlerContext)
  {
    AnyKeyword(LoweredName(ctx), ServiceDownKeywords)
  }

  /** `service or job`, each read with the default "". */
  function TargetService(ctx: HandlerContext): (t: string)
    ensures t == [] <==> LabelOr(ctx.alert.labels, "service", "") == [] && LabelOr(ctx.alert.labels, "job", "") == []
    ensures LabelOr(ctx.alert.labels, "service", "") != [] ==> t == LabelOr(ctx.alert.labels, "service", "")
    ensures LabelOr(ctx.alert.labels, "service", "") == [] ==> t == LabelOr(ctx.alert.labels, "job", "")
  {
    var service := LabelOr(ctx.alert.labels, "service", "");
    if service != [] then service else LabelOr(ctx.alert.labels, "job", "")
  }

  function ServiceJob(name: string, description: string, t: string, verb: string, ctx: HandlerContext): Proposal
  {
    Proposal(name, description, "linux.service",
      map["host" := HostParameter(ctx), "service" := VStr(t), "action" := VStr(verb)])
  }

  /** Nothing when neither label names a service; otherwise a status check
      and then a restart of that service. */
  function ServiceDownProposals(ctx: HandlerContext): (r: seq<Proposal>)
    ensures r == [] <==> TargetService(ctx) == []
    ensures r != [] ==> (|r| == 2
      && r[0].name == "check_" + TargetService(ctx) + "_status" && r[1].name == "restart_" + TargetService(ctx))
    ensures forall i :: 0 <= i < |r| ==> (r[i].job == "linux.service"
      && r[i].base == map["host" := HostParameter(ctx), "service" := VStr(TargetService(ctx)),
                          "action" := VStr(if i == 0 then "status" else "restart")])
  {
    var t := TargetService(ctx);
    if t != [] then
      [ServiceJob("check_" + t + "_status", "Check status of " + t, t, "status", ctx),
       ServiceJob("restart_" + t, "Restart " + t + " service", t, "restart", ctx)]
    else []
  }

  function ServiceDownActions(ctx: HandlerContext): seq<RemediationAction>
  {
    RealiseAll(ServiceDownProposals(ctx), ctx)
  }

  // ---- memory ----

  const MemoryName := "memory"
  const MemoryDescription := "Handles memory usage alerts by clearing caches and restarting services"
  const MemoryKeywords := ["memory", "ram", "oom", "swap"]

  predicate MemoryCanHandle(ctx: HandlerContext)
  {
    AnyKeyword(LoweredName(ctx), MemoryKeywords)
  }

  const DropCachesCommand := "sync; echo 3 > /proc/sys/vm/drop_caches"
  const MemoryHogsCommand := "ps aux --sort=-%mem | head -20"

  function RemoteCommand(name: string, description: string, cmd: string, ctx: HandlerContext): Proposal
  {
    Proposal(name, description, "core.remote", map["hosts" := HostParameter(ctx), "cmd" := VStr(cmd)])
  }

  /** Always the cache drop; for critical alerts the memory-hog listing after it. */
  function MemoryProposals(ctx: HandlerContext): (r: seq<Proposal>)
    ensures |r| == if Severity(ctx.alert) == "critical" then 2 else 1
    ensures forall i :: 0 <= i < |r| ==> (r[i].job == "core.remote" && r[i].base.Keys == {"hosts", "cmd"}
      && r[i].base["hosts"] == HostParameter(ctx))
    ensures r[0].name == "clear_system_caches" && r[0].base["cmd"] == VStr(DropCachesCommand)
    ensures |r| == 2 ==> r[1].name == "identify_memory_hogs" && r[1].base["cmd"] == VStr(MemoryHogsCommand)
  {
    [RemoteCommand("clear_system_caches", "Clear system memory caches", DropCachesCommand, ctx)]
    + (if Severity(ctx.alert) == "critical"
       then [RemoteCommand("identify_memory_hogs", "Identify processes consuming high memory", MemoryHogsCommand, ctx)]
       else [])
  }

  function MemoryActions(ctx: HandlerContext): seq<RemediationAction>
  {
    RealiseAll(MemoryProposals(ctx), ctx)
  }

  /** Every action of every example handler carries the alert's parameters
      unchanged and the default timing, and keeps its job-specific values. */
  lemma ExampleActionsCarryAlert(ctx: HandlerContext, ps: seq<Proposal>, i: nat)
    requires ps in {HighCpuProposals(ctx), DiskSpaceProposals(ctx), ServiceDownProposals(ctx), MemoryProposals(ctx)}
    requires i < |ps|
    ensures var r := RealiseAll(ps, ctx)[i];
      r.name == ps[i].name && r.stackstormAction == ps[i].job
      && r.timeout == 300 && r.retryCount == 0 && r.retryDelay == 30
      && (forall k :: k in ps[i].base ==> r.parameters[k] == ps[i].base[k])
      && (forall k :: k in BuildParameters(ctx) ==> k in r.parameters && r.parameters[k] == BuildParameters(ctx)[k])
  {
    HighCpuBases(ctx);
    assert ps[i] in ps;
    assert ps[i].base.Keys <= JobKeys;
    RealiseKeeps(ps[i], ctx);
  }

  /** A CPU alert that is merely informational proposes nothing. */
  lemma HighCpuIgnoresInfo(ctx: HandlerContext)
    requires Severity(ctx.alert) == "info"
    ensures HighCpuActions(ctx) == []
  {
  }
}
