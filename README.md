# poundCake, modelled in Dafny

poundCake receives Prometheus Alertmanager webhooks and runs remediation
jobs for them. Each alert is tracked through its life: received, pending,
remediating, remediated, resolved. Handlers pick the actions for an alert
from built-in logic or from YAML mappings, and the engine runs each action
as a StackStorm job, recording every attempt. The same service also edits
Prometheus alerting rules. It writes them into PrometheusRule custom
resources in Kubernetes and into rule files in a Git repository. A small
command-line client prints the service's answers as tables.

This project models the core of that service:

- the alert, remediation and tracking records;
- the in-memory and Redis-backed alert stores;
- the handler base behaviour, the example handlers, the registry and the
  YAML-configured handlers;
- the remediation engine;
- the settings and the loading of mapping files;
- the management of mapping files;
- the Prometheus rule listing;
- the PrometheusRule manager and the rule manager over Kubernetes and Git;
- web sessions;
- the command-line table formatter.

Every source function becomes a Dafny function, method or class member, and
each is proved against a contract. Purely computing code is modelled as
functions with lemmas about them. Code that updates objects in place is
modelled as classes whose methods state their new state against a
specification function. The Kubernetes API, the Git repository, the job
runner, Redis, the clock and the HTTP layer are not executed. Each is an
input: a value that says what every call would answer.

Modules and files:

| file | module | models |
|---|---|---|
| wrappers.dfy | Wrappers | `Option` and `Result` |
| strings.dfy | Strings | string helpers (`startswith`, `replace`, `ljust`, `join`, `str(int)`) |
| values.dfy | Values | JSON-like values and Python truthiness |
| dicts.dfy | Dicts | insertion-ordered dictionaries |
| alerts.dfy | Alerts | `models/alerts.py` |
| remediation.dfy | Remediation | `models/remediation.py` |
| tracking.dfy | Tracking | `models/tracking.py` |
| memory_store.dfy | MemoryStore | `state/memory.py` |
| listing.dfy | Listing | the listing and statistics shared by both stores |
| redis_store.dfy | RedisStore | `state/redis_store.py` |
| handler_base.dfy | HandlerBase | `handlers/base.py` |
| example_handlers.dfy | ExampleHandlers | `handlers/examples.py` |
| yaml_config.dfy | YamlConfig | `handlers/yaml_config.py` |
| handlers.dfy | Handlers | dispatch over the closed set of handlers |
| registry.dfy | Registry | `handlers/registry.py` |
| config.dfy | Config | `config.py` |
| engine.dfy | Engine | `engine.py` |
| management.dfy | Management | `management.py` |
| prometheus.dfy | Prometheus | `prometheus.py` |
| rule_groups.dfy | RuleGroups | the group and rule edits shared by the two rule managers |
| crd_manager.dfy | PrometheusCrd | `prometheus_crd_manager.py` |
| rule_manager.dfy | RuleManager | `prometheus_rule_manager.py` |
| auth.dfy | Auth | `auth.py` |
| cli_output.dfy | CliOutput | `poundcake_cli/utils.py` |

## Model

| member | source | states |
|---|---|---|
| Alerts.AlertStatusValue | src/poundcake/models/alerts.py:9-13 | the two alert statuses have the values "firing" and "resolved", one to one |
| Alerts.NewAlert | src/poundcake/models/alerts.py:16-25 | an alert given only its required fields has empty labels and annotations, an empty generator URL and an empty fingerprint |
| Alerts.LabelOr | src/poundcake/models/alerts.py:30-42 | `labels.get(key, default)`: the label's value when the key is present, the default otherwise |
| Alerts.AccessorsReadLabels | src/poundcake/models/alerts.py:29-42 | `alertname`, `severity` and `instance` read their own label and fall back to "unknown" |
| Alerts.UnlabelledAlertIsUnknown | src/poundcake/models/alerts.py:20-42 | an alert built without labels is named, ranked and located as "unknown" |
| Remediation.RemediationStatusValue | src/poundcake/models/remediation.py:10-17 | the success and failed statuses have the values "success" and "failed", one to one |
| Remediation.NewAction | src/poundcake/models/remediation.py:20-29 | an action's defaults: empty description and parameters, timeout 300, no retries, retry delay 30 |
| Remediation.DurationSeconds | src/poundcake/models/remediation.py:47-52 | a duration exists exactly when the result has completed, and the start plus the duration is the completion time |
| Tracking.ParseTrackingStatus | src/poundcake/models/tracking.py:10-17 | a value parsed as a tracking status gives back that value |
| Tracking.StatusValueRoundTrip | src/poundcake/models/tracking.py:10-17 | parsing a status's value gives the status back |
| Tracking.StatusValueInjective | src/poundcake/models/tracking.py:10-17 | distinct statuses have distinct values |
| Tracking.CountStatus | src/poundcake/models/tracking.py:52-55 | the number of attempts with a given status is at most the number of attempts |
| Tracking.AddRemediationAttempt | src/poundcake/models/tracking.py:61-68 | the attempt is appended and the total goes up by one; the success count goes up only for "success", the failure count only for "failed", neither for another status |
| Tracking.AddAttemptKeepsCounters | src/poundcake/models/tracking.py:61-68 | adding an attempt keeps the three counters equal to the counts over the history |
| Tracking.AddFinishedAttemptKeepsWellFormed | src/poundcake/models/tracking.py:61-68 | adding a finished attempt to a well-formed alert keeps it well formed |
| Tracking.FinishedAttemptsBalance | src/poundcake/models/tracking.py:61-68 | when every attempt succeeded or failed, successes plus failures is the number of attempts |
| Tracking.CountersBalance | src/poundcake/models/tracking.py:53-55 | in a well-formed alert the total is the successes plus the failures |
| Tracking.UpdateStatus | src/poundcake/models/tracking.py:70-75 | the status and its change time are set; `resolved_at` is set only when resolving; nothing else changes |
| Tracking.UpdateStatusKeepsWellFormed | src/poundcake/models/tracking.py:70-75 | a status change keeps an alert well formed unless it moves a resolved alert to another status |
| Tracking.UpdateStatusTwice | src/poundcake/models/tracking.py:70-75 | repeating a status change equals making it once at the later time |
| Tracking.ToSummary | src/poundcake/models/tracking.py:77-92 | the summary carries the fingerprint, alert name, instance and severity, the status value (which parses back), the received, status-change and resolution times, the counters and the last error |
| Tracking.SummaryOfWellFormed | src/poundcake/models/tracking.py:77-92 | a well-formed alert's summary has a resolution time exactly when its status is "resolved", and its counts add up |
| MemoryStore.MemoryStateStore.constructor | src/poundcake/state/memory.py:18-22 | a new store holds no alerts, no locks and no active locks |
| MemoryStore.MemoryStateStore.Disconnect | src/poundcake/state/memory.py:28-32 | disconnecting clears the alerts, the locks and the active locks |
| MemoryStore.MemoryStateStore.HealthCheck | src/poundcake/state/memory.py:34-36 | the in-memory store is always healthy |
| MemoryStore.MemoryStateStore.GetAlert | src/poundcake/state/memory.py:38-40 | the alert filed under the fingerprint, or none; the store is unchanged |
| MemoryStore.MemoryStateStore.SaveAlert | src/poundcake/state/memory.py:42-44 | the alert is filed under its own fingerprint, replacing one there or added at the end |
| MemoryStore.MemoryStateStore.DeleteAlert | src/poundcake/state/memory.py:46-51 | the answer says whether the fingerprint was there, and it is no longer there |
| MemoryStore.MemoryStateStore.ListAlerts | src/poundcake/state/memory.py:53-70 | the alerts with the status (all of them when none is given), newest first, then the `offset:offset+limit` slice |
| MemoryStore.MemoryStateStore.GetStats | src/poundcake/state/memory.py:72-92 | the loop computes the statistics of the stored alerts |
| MemoryStore.MemoryStateStore.Lock | src/poundcake/state/memory.py:95-110 | the lock is acquired exactly when no one holds the key, and the key is then held |
| MemoryStore.MemoryStateStore.Unlock | src/poundcake/state/memory.py:112-117 | leaving the locked block releases the key only when it was acquired there |
| MemoryStore.MemoryStateStore.IsLocked | src/poundcake/state/memory.py:119-121 | a key is locked exactly when it is held |
| MemoryStore.PutKeepsFiling | src/poundcake/state/memory.py:42-44 | saving keeps every alert filed under its own fingerprint |
| MemoryStore.RemoveKeepsFiling | src/poundcake/state/memory.py:46-51 | deleting keeps every alert filed under its own fingerprint |
| MemoryStore.FilterStatusSnoc | src/poundcake/state/memory.py:63-64 | filtering one more alert adds it at the end exactly when it has the status |
| Listing.FilterStatus | src/poundcake/state/memory.py:63-64 | what is kept has the status, is taken from the input, and every alert with the status is kept |
| Listing.InsertByReceived | src/poundcake/state/memory.py:67 | inserting into a newest-first list keeps it newest first and adds exactly that alert |
| Listing.SortByReceivedDesc | src/poundcake/state/memory.py:67 | the sorted list is newest first and a permutation of the input |
| Listing.SliceBound | src/poundcake/state/memory.py:70 | a Python slice bound, negative ones counted from the end, clamped to the length |
| Listing.PySlice | src/poundcake/state/memory.py:70 | a Python slice is never longer than the list |
| Listing.PageWindow | src/poundcake/state/memory.py:70 | a page has at most `limit` alerts: none past the end, else the alerts from `offset` on, cut at `offset+limit` |
| Listing.NegativeLimitDropsTail | src/poundcake/state/memory.py:70 | a negative limit with offset 0 drops that many alerts from the end |
| Listing.SeverityKey | src/poundcake/state/memory.py:86 | `severity or "unknown"`: the severity when it is set and not empty, otherwise "unknown" |
| Listing.StatsPrefix | src/poundcake/state/memory.py:78-87 | one more alert adds one to the total, to its status's count and to its severity's count |
| Listing.CountWithStatus | src/poundcake/state/memory.py:82-83 | the number of alerts with a status value is at most the number of alerts |
| Listing.CountWithSeverity | src/poundcake/state/memory.py:86-87 | the number of alerts under a severity key is at most the number of alerts |
| Listing.StatsAddUp | src/poundcake/state/memory.py:72-92 | the total is the number of alerts, and the status counts and the severity counts each add up to it |
| Listing.StatsCountStatuses | src/poundcake/state/memory.py:82-83 | each status count is the number of alerts with that status, and only statuses that occur have an entry |
| Listing.StatsCountSeverities | src/poundcake/state/memory.py:86-87 | each severity count is the number of alerts with that severity key, and only keys that occur have an entry |
| RedisStore.KeySpaces | src/poundcake/state/redis_store.py:21-23 | alert keys, lock keys and status index keys never collide, and an alert key determines its fingerprint |
| RedisStore.IndexKeyInjective | src/poundcake/state/redis_store.py:125-135 | distinct statuses have distinct index set names |
| RedisStore.UnindexLoop | src/poundcake/state/redis_store.py:124-129 | the removal loop takes the fingerprint out of the index set of every status it visits and leaves every other set as it was |
| RedisStore.ReindexStatuses | src/poundcake/state/redis_store.py:119-135 | the fingerprint is removed from every status set and then added to its current one, if any |
| RedisStore.SaveKeepsConsistency | src/poundcake/state/redis_store.py:101-117 | a save keeps every record filed under its own fingerprint and every fingerprint in exactly its status's index set |
| RedisStore.DeleteKeepsConsistency | src/poundcake/state/redis_store.py:137-152 | a delete keeps the records and the index consistent in the same way |
| RedisStore.Saved | src/poundcake/state/redis_store.py:106-114 | the stored record holds the alert, with an expiry exactly when it is resolved, of `alert_ttl_hours * 3600` seconds |
| RedisStore.Enumerate | src/poundcake/state/redis_store.py:168-173 | the members or keys the server returns are listed once each, in some order |
| RedisStore.StatusLabels | src/poundcake/state/redis_store.py:202-205 | the status values, in the enumeration's order |
| RedisStore.AllLabelsDistinct | src/poundcake/state/redis_store.py:202-205 | the five status values are distinct |
| RedisStore.StatusTally | src/poundcake/state/redis_store.py:202-206 | only statuses with a non-empty index set get an entry, and every entry is under a status value |
| RedisStore.TallyStep | src/poundcake/state/redis_store.py:202-206 | one more status adds its count at the end exactly when its set is not empty |
| RedisStore.TallyStatuses | src/poundcake/state/redis_store.py:201-206 | the status loop computes the tally, and the total is the sum of its counts |
| RedisStore.SeverityStep | src/poundcake/state/redis_store.py:210-215 | scanning one more record adds one to its severity's count and changes no other |
| RedisStore.TallySeverities | src/poundcake/state/redis_store.py:208-215 | each severity count is the number of stored alerts with that severity key, and only severities that occur have an entry |
| RedisStore.RedisStateStore.constructor | src/poundcake/state/redis_store.py:25-45 | a new store keeps its TTL and lock timeout and is not connected |
| RedisStore.RedisStateStore.Connect | src/poundcake/state/redis_store.py:47-54 | after connecting there is a client |
| RedisStore.RedisStateStore.Disconnect | src/poundcake/state/redis_store.py:56-61 | after disconnecting there is no client |
| RedisStore.RedisStateStore.HealthCheck | src/poundcake/state/redis_store.py:63-72 | healthy exactly when connected and the ping is answered |
| RedisStore.RedisStateStore.Lookup | src/poundcake/state/redis_store.py:91-99 | an alert is found exactly when its key is set, and it is found under its own fingerprint and status |
| RedisStore.RedisStateStore.GetAlert | src/poundcake/state/redis_store.py:91-99 | without a client the call fails, otherwise it is the lookup |
| RedisStore.RedisStateStore.SaveAlert | src/poundcake/state/redis_store.py:101-117 | without a client the call fails and nothing changes; a resolved alert whose expiry `alert_ttl_hours * 3600` is not positive is refused by `SETEX` and nothing changes; otherwise the record is replaced and the fingerprint re-indexed under its status |
| RedisStore.RedisStateStore.DeleteAlert | src/poundcake/state/redis_store.py:137-152 | without a client the call fails; otherwise it answers whether the key existed, removes it and removes the fingerprint from every index set |
| RedisStore.RedisStateStore.Present | src/poundcake/state/redis_store.py:182-185 | the fetched alerts are stored alerts for the given fingerprints, at most one each |
| RedisStore.RedisStateStore.FetchPresent | src/poundcake/state/redis_store.py:182-185 | the fetch loop keeps the alerts that are found, in page order |
| RedisStore.RedisStateStore.ListAlerts | src/poundcake/state/redis_store.py:154-190 | the candidates come from the status index, or from the alert keys with the prefix removed; they are sorted, paged, fetched and put newest first |
| RedisStore.RedisStateStore.GetStats | src/poundcake/state/redis_store.py:192-220 | without a client the call fails; otherwise the status counts come from the index sets, the total is their sum, and the severity counts come from a scan of the records, with an entry exactly for each severity that occurs |
| RedisStore.RedisStateStore.LockTtl | src/poundcake/state/redis_store.py:233 | `timeout or lock_timeout`: the given timeout unless it is missing or 0 |
| RedisStore.RedisStateStore.Lock | src/poundcake/state/redis_store.py:223-244 | without a client the call fails; a non-positive expiry is refused; otherwise the lock is acquired exactly when the key is free, and only then is it set |
| RedisStore.RedisStateStore.Unlock | src/poundcake/state/redis_store.py:245-248 | leaving the locked block without the lock sends nothing and succeeds even without a client; with the lock it deletes the lock key, and fails without a client |
| RedisStore.RedisStateStore.IsLocked | src/poundcake/state/redis_store.py:250-257 | without a client the call fails; otherwise the answer is whether the lock key exists |
| HandlerBase.PreExecute | src/poundcake/handlers/base.py:65-76 | a handler that does not override the hook always lets the action run |
| HandlerBase.BuildParameters | src/poundcake/handlers/base.py:94-112 | exactly the five keys: the alert's name, labels, annotations, instance and severity |
| HandlerBase.WithAlertParameters | src/poundcake/handlers/base.py:94-112 | `{**base, **build_parameters(context)}`: the keys of both, the built value winning on a shared key |
| ExampleHandlers.AnyKeyword | src/poundcake/handlers/examples.py:27-30 | `any(keyword in name for keyword in keywords)`: some keyword occurs in the text |
| ExampleHandlers.RealiseAll | src/poundcake/handlers/examples.py:32-69 | every proposed action becomes a `RemediationAction`, in order |
| ExampleHandlers.JobKeysKept | src/poundcake/handlers/examples.py:43-47 | the job's own parameter names never clash with the built alert parameters |
| ExampleHandlers.RealiseKeeps | src/poundcake/handlers/examples.py:40-48 | an action keeps its name, description and job, has the default timeout and retries, and its parameters are the job's own plus the alert's |
| ExampleHandlers.HighCpuProposals | src/poundcake/handlers/examples.py:32-69 | "identify" for a warning or critical alert; "restart" as well for a critical alert with a service label; nothing else |
| ExampleHandlers.HighCpuBases | src/poundcake/handlers/examples.py:44-46 | every CPU action sends the alert's instance as `host` |
| ExampleHandlers.MountPoint | src/poundcake/handlers/examples.py:91 | the `mountpoint` label, "/" when absent |
| ExampleHandlers.DiskSpaceProposals | src/poundcake/handlers/examples.py:88-121 | always the two cleanups: the `*.gz` logs under the mount point, forced, then the package cache |
| ExampleHandlers.TargetService | src/poundcake/handlers/examples.py:143-146 | `service or job`: the service label when it is not empty, otherwise the job label |
| ExampleHandlers.ServiceDownProposals | src/poundcake/handlers/examples.py:140-179 | no action without a target service, otherwise a status check and then a restart of that service |
| ExampleHandlers.MemoryProposals | src/poundcake/handlers/examples.py:198-231 | always the cache clearing, and for a critical alert also the memory hog listing, both as remote commands on the instance |
| ExampleHandlers.ExampleActionsCarryAlert | src/poundcake/handlers/examples.py:32-231 | every example action carries its own parameters and all the alert parameters |
| ExampleHandlers.HighCpuIgnoresInfo | src/poundcake/handlers/examples.py:37-51 | an alert that is neither warning nor critical gets no CPU action |
| Handlers.Name | src/poundcake/handlers/yaml_config.py:17-18 | only the mapping-driven handler is named "yaml_config" |
| Handlers.NameInjective | src/poundcake/handlers/examples.py:20-187 | the five handlers have five distinct names |
| Handlers.Actions | src/poundcake/handlers/examples.py:32-231 | only the mapping-driven handler's `get_actions` can fail |
| Handlers.KeywordHandlersIgnoreConfig | src/poundcake/handlers/examples.py:27-196 | the example handlers' `can_handle` looks at the alert's name only, never at the configuration |
| Handlers.YamlRejectsEmptyConfig | src/poundcake/handlers/yaml_config.py:24-26 | the mapping-driven handler refuses an alert without a configuration |
| Handlers.GetActions | src/poundcake/handlers/base.py:52-63 | `get_actions` is dispatched to the handler's own code |
| YamlConfig.CanHandle | src/poundcake/handlers/yaml_config.py:24-26 | true exactly when there is a non-empty configuration whose `actions` is a non-empty list |
| YamlConfig.SeverityAllowed | src/poundcake/handlers/yaml_config.py:76-81 | a single severity must be equal; a list must contain the alert's severity |
| YamlConfig.LabelsMatch | src/poundcake/handlers/yaml_config.py:84-87 | every wanted label equals the alert's label, a missing label counting as null |
| YamlConfig.HasAllLabels | src/poundcake/handlers/yaml_config.py:90-93 | every named label is present on the alert |
| YamlConfig.CheckConditions | src/poundcake/handlers/yaml_config.py:64-95 | no or empty conditions always pass; a severity, label or label-presence condition that fails rejects the action |
| YamlConfig.Templated | src/poundcake/handlers/yaml_config.py:105-120 | a non-string parameter is kept and a string stays a string; what rendering replaces is stated by the YamlConfig.Render lemmas below |
| YamlConfig.FillLoop | src/poundcake/handlers/yaml_config.py:113-118 | the label or annotation loop computes the entry-by-entry replacement that YamlConfig.FillSubstitutes and YamlConfig.FillAbsent characterise |
| YamlConfig.ApplyTemplates | src/poundcake/handlers/yaml_config.py:97-122 | the loop keeps every key and templates each value, with the substitutions the YamlConfig.Render lemmas state |
| YamlConfig.TemplatedParameters | src/poundcake/handlers/yaml_config.py:97-122 | templating keeps exactly the parameter names |
| YamlConfig.RenderAlertName | src/poundcake/handlers/yaml_config.py:108 | `{{alertname}}` between brace-free text becomes the alert's name |
| YamlConfig.RenderInstance | src/poundcake/handlers/yaml_config.py:109 | `{{instance}}` between brace-free text becomes the alert's instance |
| YamlConfig.RenderSeverity | src/poundcake/handlers/yaml_config.py:110 | `{{severity}}` between brace-free text becomes the alert's severity |
| YamlConfig.RenderLabel | src/poundcake/handlers/yaml_config.py:113-114 | `{{labels.k}}` between brace-free text becomes the value of label `k` |
| YamlConfig.RenderAnnotation | src/poundcake/handlers/yaml_config.py:117-118 | `{{annotations.k}}` between brace-free text becomes the value of annotation `k`, untouched by the label loop |
| YamlConfig.RenderKeepsUnknown | src/poundcake/handlers/yaml_config.py:106-118 | a string holding none of the alert's placeholders is not changed, so an unknown placeholder stays literal |
| YamlConfig.FillSubstitutes | src/poundcake/handlers/yaml_config.py:113-118 | the loop over a dictionary replaces the placeholder of a key it holds by that key's value, not disturbed by the placeholders of other keys |
| YamlConfig.FillAbsent | src/poundcake/handlers/yaml_config.py:113-118 | the loop leaves alone a string holding none of the dictionary's placeholders |
| YamlConfig.TemplatedHost | tests/test_handlers.py:113-128 | a `host` parameter of `{{instance}}` becomes "server1:9090" for an alert on that instance |
| YamlConfig.RenderKeepsPlainText | src/poundcake/handlers/yaml_config.py:106-118 | a string without a brace is not changed by the templates |
| YamlConfig.FillPlainText | src/poundcake/handlers/yaml_config.py:113-118 | a string without a brace is not changed by the label and annotation loops |
| YamlConfig.MakeActionFields | src/poundcake/handlers/yaml_config.py:44-59 | the action's name defaults to the job, the description to "", the timeout to 300, the retries to 0 and 30; its parameters are the configured ones overridden by the alert's, templated |
| YamlConfig.Passing | src/poundcake/handlers/yaml_config.py:34-42 | the configs kept are at most the configs given |
| YamlConfig.PassingMembers | src/poundcake/handlers/yaml_config.py:34-42 | exactly the configs whose conditions the alert meets are kept |
| YamlConfig.ActionsOf | src/poundcake/handlers/yaml_config.py:44-60 | one action per kept config, in order |
| YamlConfig.ActionsOfSnoc | src/poundcake/handlers/yaml_config.py:60 | one more config with a job adds its action at the end |
| YamlConfig.GetActions | src/poundcake/handlers/yaml_config.py:28-62 | the loop computes `get_actions`, failing like the lookup of `action` fails |
| YamlConfig.BuildOne | src/poundcake/handlers/yaml_config.py:44-59 | one loop step builds the config's action |
| YamlConfig.PassingSnoc | src/poundcake/handlers/yaml_config.py:34-42 | one more config is kept at the end exactly when the alert meets its conditions |
| YamlConfig.PassingAppend | src/poundcake/handlers/yaml_config.py:34-42 | the filter of two lists is the two filters concatenated |
| YamlConfig.MissingStaysMissing | src/poundcake/handlers/yaml_config.py:52-54 | once a kept config lacks `action`, later configs cannot undo the failure |
| YamlConfig.UnconditionalActions | src/poundcake/handlers/yaml_config.py:28-62 | configs without conditions, all with a job, give one action each, in order |
| YamlConfig.YamlActionsFail | src/poundcake/handlers/yaml_config.py:52-54 | `get_actions` fails exactly when some config the alert meets has no `action` |
| YamlConfig.YamlActionsMembers | src/poundcake/handlers/yaml_config.py:28-62 | on success every action comes from a config the alert meets, and every such config contributes its action |
| YamlConfig.AllPass | src/poundcake/handlers/yaml_config.py:70-73 | configs without conditions are all kept |
| Registry.MappedHandlerName | src/poundcake/handlers/registry.py:112 | a mapping without `handler` names "yaml_config" |
| Registry.MappedEntry | src/poundcake/handlers/registry.py:109-121 | at most one entry: exactly when the alert's mapping is non-empty, names a registered handler and that handler accepts the alert with the mapping; the entry is that handler and the mapping |
| Registry.ProbedMembers | src/poundcake/handlers/registry.py:124-134 | the probe collects, with an empty configuration, exactly the registered handlers other than "yaml_config" that accept the alert |
| Registry.ProbedPrefix | src/poundcake/handlers/registry.py:124-134 | one more handler is added at the end exactly when it accepts the alert |
| Registry.ThenAssociative | src/poundcake/handlers/registry.py:151-158 | extending the action list is associative, a failure stopping the rest |
| Registry.ActionsFor | src/poundcake/handlers/registry.py:138-160 | `get_actions_for_alert`'s actions or first error; no contract of its own: Registry.ActionsForSnoc, Registry.ActionsForAppend, Registry.ActionsForFailed and Registry.KeywordOnlyActions state it |
| Registry.ActionsForSnoc | src/poundcake/handlers/registry.py:151-158 | one more handler extends the actions with its own |
| Registry.ActionsForAppend | src/poundcake/handlers/registry.py:151-158 | the actions of two handler lists are the two in order |
| Registry.ActionsForPrefix | src/poundcake/handlers/registry.py:151-158 | the loop's step: the handler's actions follow those before it |
| Registry.ActionsForFailed | src/poundcake/handlers/registry.py:157 | a failing handler ends the whole call with its failure |
| Registry.KeywordOnlyActions | src/poundcake/handlers/registry.py:151-158 | keyword handlers never fail, and their actions add up |
| Registry.ProbedAt | src/poundcake/handlers/registry.py:124-134 | every probed entry is a registered keyword handler that accepts the alert, with an empty configuration |
| Registry.FindAll | src/poundcake/handlers/registry.py:97-136 | `find_handlers`' list; no contract of its own: Registry.FindAllOrder, Registry.MappedEntry and Registry.MappedKeywordHandlerTwice state it |
| Registry.FindAllOrder | src/poundcake/handlers/registry.py:97-136 | the mapped handler comes first, then the probed keyword handlers |
| Registry.MappedKeywordHandlerTwice | src/poundcake/handlers/registry.py:109-134 | a keyword handler named by the alert's mapping and accepting it is found twice, first with the mapping and then with an empty configuration |
| Registry.ProbedTakes | src/poundcake/handlers/registry.py:124-134 | a registered keyword handler that accepts the alert is probed |
| Registry.AlertActionsSplit | src/poundcake/handlers/registry.py:138-160 | the actions are the mapped handler's, failing if it fails, followed by the keyword handlers' |
| Registry.HandlerRegistry.constructor | src/poundcake/handlers/registry.py:20-24 | a new registry has no handlers and no mappings |
| Registry.HandlerRegistry.Register | src/poundcake/handlers/registry.py:26-39 | the handler is stored under its name, overwriting one there; the mappings are kept |
| Registry.HandlerRegistry.Unregister | src/poundcake/handlers/registry.py:41-50 | the name is removed, if present; the mappings are kept |
| Registry.HandlerRegistry.GetHandler | src/poundcake/handlers/registry.py:52-62 | a handler is found exactly when the name is registered, and it has that name |
| Registry.HandlerRegistry.ListHandlers | src/poundcake/handlers/registry.py:64-66 | exactly the registered names, one each |
| Registry.HandlerRegistry.LoadMappings | src/poundcake/handlers/registry.py:68-83 | the mappings become those loaded from the directory; the handlers are kept |
| Registry.HandlerRegistry.GetMapping | src/poundcake/handlers/registry.py:85-95 | the alert's mapping, when there is one |
| Registry.HandlerRegistry.FindHandlers | src/poundcake/handlers/registry.py:97-136 | the mapped handler, then the probe loop |
| Registry.HandlerRegistry.FindMapped | src/poundcake/handlers/registry.py:109-121 | the mapping lookup computes the mapped entry |
| Registry.HandlerRegistry.ProbeHandlers | src/poundcake/handlers/registry.py:124-134 | the probe loop appends the accepting keyword handlers |
| Registry.HandlerRegistry.GetActionsForAlert | src/poundcake/handlers/registry.py:138-160 | the actions of the found handlers, in order |
| Registry.RunHandlers | src/poundcake/handlers/registry.py:151-158 | the collecting loop computes the actions of a handler list |
| Registry.RegisterExampleHandlers | src/poundcake/handlers/examples.py:234-244 | the four example handlers are registered in order, the mappings kept |
| Config.DefaultSettings | src/poundcake/config.py:13-81 | the defaults the model uses: TTL 24 hours, lock timeout and action timeout 300, the instance id from `HOSTNAME` or "poundcake-0", one rule file per alert named "{alert_name}.yaml", CRDs on in namespace "monitoring" with no extra labels, Git off, rules under "prometheus/rules" |
| Config.MergeFile | src/poundcake/config.py:105-107 | a file with `alerts` adds its entries, overriding names already there |
| Config.AssignAll | src/poundcake/config.py:106-107 | assigning the entries one key at a time is the map override |
| Config.MergeFiles | src/poundcake/config.py:103-107 | the glob loop merges the files in order |
| Config.LoadAllMappings | src/poundcake/config.py:96-115 | nothing for a missing directory, otherwise the `*.yaml` files and then the `*.yml` files |
| Config.Merged | src/poundcake/config.py:103-113 | `load_all_mappings`' merge; no contract of its own: Config.MergedKeys, Config.LastFileWins and Config.UndefinedKept state it |
| Config.MergedKeys | src/poundcake/config.py:103-113 | the merged names are the starting ones and those of every file with `alerts` |
| Config.LastFileWins | src/poundcake/config.py:103-113 | a name takes its configuration from the last file that defines it |
| Config.UndefinedKept | src/poundcake/config.py:103-113 | a name no file defines keeps its starting value, or stays absent |
| Config.YmlOverridesYaml | src/poundcake/config.py:109-113 | a name defined in a `*.yml` file takes that file's configuration whatever the `*.yaml` files say |
| Config.YamlOnly | src/poundcake/config.py:103-107 | a name only `*.yaml` files define takes the last such file's configuration |
| Config.AllMappingsKeys | src/poundcake/config.py:96-115 | the loaded names are exactly those some file defines; none for a missing directory |
| Engine.Settle | src/poundcake/engine.py:203-257 | how `_execute_action` settles one execution; no contract of its own: Engine.SettleFinishes, Engine.SettleSuccess, Engine.FireAndForgetIgnoresCompletion and Engine.FailedExecutionError state it |
| Engine.SettleFinishes | src/poundcake/engine.py:203-257 | every action ends succeeded or failed, with an error exactly when it failed, and with a job id exactly when submission succeeded |
| Engine.SettleSuccess | src/poundcake/engine.py:214-237 | success exactly when submitted and either fire-and-forget (timeout not positive) or the job finished "succeeded"; the output is then `{"execution_id": id}` or the job's `result` |
| Engine.FireAndForgetIgnoresCompletion | src/poundcake/engine.py:233-237 | with a timeout that is not positive, what the job later does has no effect |
| Engine.FailedExecutionError | src/poundcake/engine.py:226-232 | a finished job that did not succeed gives its `stderr`, or "Execution <status>" when there is none |
| Engine.AttemptMirrorsResult | src/poundcake/engine.py:195-261 | the attempt's status is the result's as "success" or "failed", with the same error, job id and times |
| Engine.Record | src/poundcake/engine.py:263-267 | the `finally` block's update of the tracked alert; no contract of its own: Engine.RecordKeepsWellFormed states it |
| Engine.RecordKeepsWellFormed | src/poundcake/engine.py:263-267 | recording an attempt appends it, keeps the alert well formed, and changes the last error only to a failure's error |
| Engine.ResultsOf | src/poundcake/engine.py:127-130 | one result per action, in order, each from that action's run |
| Engine.AttemptsOf | src/poundcake/engine.py:128-130 | one attempt per action, in order |
| Engine.SaveLog | src/poundcake/engine.py:267 | each action saves the alert once |
| Engine.AfterActionsHistory | src/poundcake/engine.py:126-130 | running the actions appends their attempts in order, adds their number to the total, keeps the alert well formed and touches nothing but the attempt fields and the last error |
| Engine.RemedyPlan | src/poundcake/engine.py:119-136 | the remediation part of `process_alert`; no contract of its own: Engine.RemedyPlanWithActions and Engine.ActionsRemediated state it |
| Engine.RemedyPlanWithActions | src/poundcake/engine.py:119-136 | with actions: saved as remediating and processed by this instance, then once after each action, then saved as remediated at the finishing time |
| Engine.NewTracked | src/poundcake/engine.py:86-98 | a new tracked alert copies the alert's identity, labels and annotations, is received now by this instance and has no attempts |
| Engine.FiringPlan | src/poundcake/engine.py:53-136 | `process_alert`'s reply, stored alert and store calls; no contract of its own: Engine.ResolvedAlertSkipped, Engine.NewAlertSavedFirst, Engine.NoActionsRemediated and Engine.ActionsRemediated state it |
| Engine.ResolvedAlertSkipped | src/poundcake/engine.py:104-107 | an alert already resolved is read and left alone, with no actions |
| Engine.NewAlertSavedFirst | src/poundcake/engine.py:85-100 | an untracked alert is saved before anything else; when finding actions fails it stays saved |
| Engine.NoActionsRemediated | src/poundcake/engine.py:112-117 | without actions the alert is marked remediated now, with its attempts unchanged |
| Engine.ActionsRemediated | src/poundcake/engine.py:119-136 | with actions the results are the actions' results, and the stored alert is well formed, remediated at the finishing time and processed by this instance |
| Engine.ResolveStamps | src/poundcake/engine.py:138-160 | a resolved notice writes exactly when the alert is tracked and not yet resolved; it is then resolved now with its attempts kept |
| Engine.OverallStatus | src/poundcake/engine.py:307-310 | "healthy" exactly when both the job service and the store are, "degraded" otherwise |
| Engine.StoredUnderFingerprint | src/poundcake/engine.py:85 | an alert read from the store has the fingerprint it was read under |
| Engine.RemediationEngine.constructor | src/poundcake/engine.py:28-33 | a new engine uses the registry, the store and the instance id it is given, and is not initialized |
| Engine.RemediationEngine.Initialize | src/poundcake/engine.py:35-51 | the first call registers the mapping handler and the examples and loads the mappings; any later call changes nothing |
| Engine.RemediationEngine.ProcessAlert | src/poundcake/engine.py:53-136 | a resolved alert goes to the resolved path; a firing alert whose lock is taken gives nothing; otherwise the locked processing runs and the lock is released |
| Engine.RemediationEngine.HandleResolvedAlert | src/poundcake/engine.py:138-160 | the alert is read, and written back resolved only when it was tracked and not yet resolved |
| Engine.RemediationEngine.ProcessLocked | src/poundcake/engine.py:84-136 | the reply, the stored alert and the store events are those of the plan for a firing alert |
| Engine.RemediationEngine.OpenAlert | src/poundcake/engine.py:85-102 | the tracked alert is the stored one, or a new one that is saved first |
| Engine.RemediationEngine.Remedy | src/poundcake/engine.py:109-136 | the remaining steps follow the plan: no actions, or remediating, each action, remediated |
| Engine.RemediationEngine.RunActions | src/poundcake/engine.py:126-130 | the loop's results and the alert afterwards are those of the actions in order, saved after each |
| Engine.RemediationEngine.ExecuteAction | src/poundcake/engine.py:162-269 | one action's result, its attempt recorded on the alert, and one save |
| Engine.RemediationEngine.GetTrackedAlerts | src/poundcake/engine.py:271-277 | the store's listing with offset 0 |
| Engine.RemediationEngine.GetTrackedAlert | src/poundcake/engine.py:279-281 | the store's alert under the fingerprint |
| Engine.RemediationEngine.GetAlertStats | src/poundcake/engine.py:283-290 | the store's statistics |
| Engine.RemediationEngine.HealthCheck | src/poundcake/engine.py:302-314 | the report gives both healths, the overall status and the number of registered handlers |
| Management.Globbed | src/poundcake/config.py:103-113 | the documents of the files with the suffix, never more than the files |
| Management.GlobbedKeys | src/poundcake/config.py:103-107 | a name is in the merge exactly when it was there before or some file with the suffix defines it |
| Management.GlobbedLastWins | src/poundcake/config.py:103-107 | the last file with the suffix that defines a name gives its mapping |
| Management.LoadedKeys | src/poundcake/config.py:96-115 | a name is loaded exactly when some `.yaml` or `.yml` file defines it |
| Management.LoadedAbsent | src/poundcake/config.py:96-115 | a name no file defines is not loaded |
| Management.LoadedSole | src/poundcake/config.py:96-115 | a name defined by one file only is loaded with that file's mapping |
| Management.FindFile | src/poundcake/management.py:63-70 | the first file with the given name, or none when no file has it |
| Management.FirstYamlDefiner | src/poundcake/management.py:103-107 | the first `.yaml` file that defines the name, or none when no `.yaml` file does |
| Management.Create | src/poundcake/management.py:46-85 | the directory after `create_mapping`; no contract of its own: Management.CreateEffect, Management.CreateThenLoaded and Management.CreateKeepsOthers state it |
| Management.CreateEffect | src/poundcake/management.py:63-85 | created exactly when the named file does not define the name yet; the files are then unchanged when it fails, and otherwise that file (new or old) gains the name and no other file changes |
| Management.CreateThenLoaded | src/poundcake/management.py:63-85 | after a creation where no file defined the name, it loads with the given mapping |
| Management.CreateKeepsOthers | src/poundcake/management.py:63-85 | creating one name leaves what every other name loads as |
| Management.Update | src/poundcake/management.py:87-117 | the directory after `update_mapping`; no contract of its own: Management.UpdateFinds, Management.UpdateThenLoaded, Management.UpdateKeepsOthers and Management.UpdateKeepsNames state it |
| Management.UpdateFinds | src/poundcake/management.py:102-117 | an update changes the files only when some `.yaml` file defines the name |
| Management.UpdateThenLoaded | src/poundcake/management.py:102-114 | when one `.yaml` file alone defines the name, it then loads with the new mapping |
| Management.UpdateKeepsOthers | src/poundcake/management.py:102-114 | updating one name leaves what every other name loads as |
| Management.UpdateKeepsNames | src/poundcake/management.py:102-114 | an update neither adds nor removes a loaded name |
| Management.Delete | src/poundcake/management.py:119-143 | the directory after `delete_mapping`; no contract of its own: Management.DeleteThenGone and Management.DeleteKeepsOthers state it |
| Management.DeleteThenGone | src/poundcake/management.py:129-140 | when one file alone defines the name and it is a `.yaml` file, the name is then not loaded |
| Management.DeleteKeepsOthers | src/poundcake/management.py:129-140 | deleting one name leaves what every other name loads as |
| Management.Imported | src/poundcake/management.py:155-199 | the directory after `import_mappings`; no contract of its own: Management.ImportedAgree, Management.ImportNewName and Management.ImportCount state it |
| Management.ImportCount | src/poundcake/management.py:184-193 | the count of imported mappings is at most the number of entries |
| Management.OverwriteImportsAll | src/poundcake/management.py:184-193 | with overwrite every entry is imported |
| Management.SkipsExisting | src/poundcake/management.py:185-187 | without overwrite, entries that all exist import nothing and entries that are all new import all |
| Management.ImportedAgree | src/poundcake/management.py:184-193 | importing leaves what a name outside the document loads as |
| Management.ImportNewName | src/poundcake/management.py:189-193 | an entry whose name was new and appears once in the document loads with its mapping afterwards |
| Management.MappingManager.constructor | src/poundcake/management.py:19-22 | the manager works on the directory it is given |
| Management.MappingManager.ListMappings | src/poundcake/management.py:24-31 | the loaded mappings of the directory |
| Management.MappingManager.GetMapping | src/poundcake/management.py:33-44 | a mapping exactly when the name is loaded, and then that mapping |
| Management.MappingManager.ExportMappings | src/poundcake/management.py:145-153 | a document whose `alerts` are the loaded mappings |
| Management.MappingManager.CreateMapping | src/poundcake/management.py:46-85 | the answer and the directory afterwards are those of the creation |
| Management.MappingManager.UpdateMapping | src/poundcake/management.py:87-117 | true exactly when a `.yaml` file defines the name; the directory is that of the update |
| Management.MappingManager.DeleteMapping | src/poundcake/management.py:119-143 | true exactly when a `.yaml` file defines the name; the directory is that of the deletion |
| Management.MappingManager.ImportMappings | src/poundcake/management.py:155-199 | invalid YAML and a document without alerts give their errors and change nothing; otherwise the counts of imported and skipped entries add up to the total, and the directory is that of the imports in document order |
| Prometheus.GetOr | src/poundcake/prometheus.py:73-92 | `dict.get` with a default: the stored value when the key is there, the default otherwise |
| Prometheus.Flat | src/poundcake/prometheus.py:73-93 | each of the group's name, file and interval and of the rule's name, query, duration, labels, annotations, state, health, last evaluation and evaluation time is copied when present and takes its own default when absent |
| Prometheus.FlattenRules | src/poundcake/prometheus.py:61-95 | the loop builds exactly the flattened list |
| Prometheus.GroupEntriesMembers | src/poundcake/prometheus.py:77-93 | a group contributes exactly one entry per alerting rule, and nothing for other rules |
| Prometheus.Flattened | src/poundcake/prometheus.py:61-95 | `_flatten_rules`' list; no contract of its own: Prometheus.FlattenedAppend and Prometheus.FlattenedMembers state it |
| Prometheus.FlattenedAppend | src/poundcake/prometheus.py:72-93 | flattening two lists of groups is flattening each in turn |
| Prometheus.GroupEntriesAppend | src/poundcake/prometheus.py:77-93 | the entries of two runs of rules are those of each in turn |
| Prometheus.FlattenedMembers | src/poundcake/prometheus.py:61-95 | an entry is in the result exactly when it is the flat form of an alerting rule of one of the groups |
| Prometheus.NoAlertingNoEntries | src/poundcake/prometheus.py:78 | a group without alerting rules contributes nothing |
| RuleGroups.NewGroup | src/poundcake/prometheus_crd_manager.py:228-235 | a new group has the given name and the one rule |
| RuleGroups.WithRules | src/poundcake/prometheus_crd_manager.py:225 | setting a group's rules keeps its name and gives exactly those rules |
| RuleGroups.FirstGroup | src/poundcake/prometheus_crd_manager.py:210-211 | the first group with the name, or none when no group has it |
| RuleGroups.FirstRule | src/poundcake/prometheus_crd_manager.py:215-216 | the first rule for the alert, or none when no rule is for it |
| RuleGroups.FindGroup | src/poundcake/prometheus_crd_manager.py:210-226 | the loop finds the first group with the name |
| RuleGroups.FindRule | src/poundcake/prometheus_crd_manager.py:215-219 | the loop finds the first rule for the alert |
| RuleGroups.TotalRulesAppend | src/poundcake/prometheus_crd_manager.py:204-236 | the rule count of two lists of groups adds up |
| RuleGroups.TotalRulesUpdate | src/poundcake/prometheus_crd_manager.py:225 | replacing one group changes the count by the difference of its rules |
| RuleGroups.TotalRulesRemove | src/poundcake/prometheus_crd_manager.py:376-377 | removing one group removes its rules from the count |
| RuleGroups.WithoutRule | src/poundcake/prometheus_crd_manager.py:372 | deleting one rule leaves one rule fewer |
| RuleGroups.UpsertRule | src/poundcake/prometheus_crd_manager.py:204-236 | the loops build exactly the upserted groups |
| RuleGroups.Upserted | src/poundcake/prometheus_crd_manager.py:210-235 | the groups after the rule upsert; no contract of its own: RuleGroups.UpsertedFrame, RuleGroups.UpsertedLookup, RuleGroups.UpsertedCount and RuleGroups.UpsertedIdempotent state it |
| RuleGroups.UpsertedFrame | src/poundcake/prometheus_crd_manager.py:210-235 | with no group of that name one new group is appended at the end; otherwise only the first such group changes, keeping its name |
| RuleGroups.UpsertedLookup | src/poundcake/prometheus_crd_manager.py:210-235 | afterwards the rule for the alert in the group is the new rule |
| RuleGroups.UpsertedCount | src/poundcake/prometheus_crd_manager.py:210-235 | the count grows by one exactly when the rule was not there, and stays otherwise |
| RuleGroups.UpsertedIdempotent | src/poundcake/prometheus_crd_manager.py:210-235 | upserting the same rule twice is upserting it once |
| RuleGroups.Appended | src/poundcake/prometheus_rule_manager.py:355-370 | the groups after a creation in a shared file; no contract of its own: RuleGroups.AppendedCount and RuleGroups.AppendedLookup state it |
| RuleGroups.AppendedCount | src/poundcake/prometheus_rule_manager.py:355-370 | creating a rule in a shared file adds exactly one rule |
| RuleGroups.AppendRule | src/poundcake/prometheus_rule_manager.py:355-370 | the loop builds exactly the appended groups |
| RuleGroups.AppendedLookup | src/poundcake/prometheus_rule_manager.py:355-370 | a new alert is then found with the new rule; an alert already there is still found with its first rule |
| RuleGroups.ReplaceRule | src/poundcake/prometheus_rule_manager.py:169-183 | the loops build exactly the replaced groups, or the error when the rule is not there |
| RuleGroups.Replaced | src/poundcake/prometheus_rule_manager.py:169-183 | the groups after a Git update of a shared file; no contract of its own: RuleGroups.ReplacedFound states it |
| RuleGroups.ReplacedFound | src/poundcake/prometheus_rule_manager.py:169-183 | the replacement succeeds exactly when the first group of that name has the rule; it then agrees with the upsert and keeps the count |
| RuleGroups.RemovedKeepGroup | src/poundcake/prometheus_rule_manager.py:545-560 | the groups after a Git deletion from a shared file; no contract of its own: RuleGroups.RemoveRuleKeepGroup, RuleGroups.RemovedCount and RuleGroups.RemovedDropVersusKeep state it |
| RuleGroups.RemovedDropGroup | src/poundcake/prometheus_crd_manager.py:366-385 | the groups after a deletion from a PrometheusRule; no contract of its own: RuleGroups.RemoveRuleDropGroup, RuleGroups.RemovedCount and RuleGroups.RemovedDropVersusKeep state it |
| RuleGroups.RemoveRuleKeepGroup | src/poundcake/prometheus_rule_manager.py:545-560 | the loops build exactly the groups with the rule removed, or the error when it is not there |
| RuleGroups.RemoveRuleDropGroup | src/poundcake/prometheus_crd_manager.py:366-385 | the same, with a group left empty removed |
| RuleGroups.RemovedCount | src/poundcake/prometheus_crd_manager.py:366-385 | both deletions succeed exactly when the rule is there; keeping the group keeps the number of groups, and both remove exactly one rule |
| RuleGroups.RemovedDropVersusKeep | src/poundcake/prometheus_crd_manager.py:376-377 | the two deletions differ only when the rule was the group's last, and then the group itself is gone |
| RuleGroups.UpsertNewGroupThenRemove | src/poundcake/prometheus_crd_manager.py:228-235 | upserting into a missing group and deleting the rule again gives back the groups |
| RuleGroups.AppendThenRemove | src/poundcake/prometheus_rule_manager.py:355-370 | appending a new alert's rule to a shared file and deleting it again gives back the groups |
| PrometheusCrd.FirstHolding | src/poundcake/prometheus_crd_manager.py:112-134 | the first rule resource that has a group of the name holding a rule for the alert, or none when no resource does |
| PrometheusCrd.IndexByName | src/poundcake/prometheus_crd_manager.py:67-91 | the position of the resource with the name, or none when there is none |
| PrometheusCrd.MergeLabelsGet | src/poundcake/prometheus_crd_manager.py:280-283 | in a merge of labels the later labels win over the earlier ones |
| PrometheusCrd.CrdLabelsGet | src/poundcake/prometheus_crd_manager.py:280-283 | a new resource's labels are the configured ones, with `managed-by: poundcake` unless configured otherwise |
| PrometheusCrd.NewCrd | src/poundcake/prometheus_crd_manager.py:285-301 | a new resource has the monitoring API version and kind, the name and namespace, and one group holding the one rule |
| PrometheusCrd.RenameFree | src/poundcake/prometheus_crd_manager.py:237-267 | editing a resource's groups does not change how resources are found by name, and keeps names distinct |
| PrometheusCrd.CreateOrUpdate | src/poundcake/prometheus_crd_manager.py:143-190 | `create_or_update_rule`'s result and resources; no contract of its own: PrometheusCrd.CreateOrUpdateLookup, PrometheusCrd.CreateOrUpdateTarget, PrometheusCrd.CreateOrUpdateDistinct and PrometheusCrd.CreateThenDelete state it |
| PrometheusCrd.CreateOrUpdateLookup | src/poundcake/prometheus_crd_manager.py:143-190 | success exactly when the client is there and the cluster call does not fail; on an error nothing changes, and on success the named resource holds the new rule for the alert |
| PrometheusCrd.UpdateIn | src/poundcake/prometheus_crd_manager.py:192-267 | `_update_rule_in_crd`'s result and resources; no contract of its own: PrometheusCrd.UpdatedLookup and PrometheusCrd.CreateOrUpdateTarget state it |
| PrometheusCrd.CreateIn | src/poundcake/prometheus_crd_manager.py:269-330 | `_create_rule_crd`'s result and resources; no contract of its own: PrometheusCrd.CreateOrUpdateTarget (its creation case) and PrometheusCrd.CreateThenDelete state it |
| PrometheusCrd.UpdatedLookup | src/poundcake/prometheus_crd_manager.py:192-267 | after an update the resource holds the new rule for the alert in the group |
| PrometheusCrd.CreateOrUpdateTarget | src/poundcake/prometheus_crd_manager.py:169-184 | the resource holding the rule is updated; failing that, the resource of the given name; failing that, a new resource is appended; no other resource changes |
| PrometheusCrd.CreateOrUpdateDistinct | src/poundcake/prometheus_crd_manager.py:143-190 | resource names stay distinct |
| PrometheusCrd.Delete | src/poundcake/prometheus_crd_manager.py:332-433 | `delete_rule`'s result and resources; no contract of its own: PrometheusCrd.DeleteSucceeds, PrometheusCrd.DeleteEffect and PrometheusCrd.DeleteDropsName state it |
| PrometheusCrd.DeleteSucceeds | src/poundcake/prometheus_crd_manager.py:332-433 | a deletion succeeds exactly when the client is there, the cluster call does not fail, the named resource exists and its first group of the name has the rule; on an error nothing changes |
| PrometheusCrd.DeleteEffect | src/poundcake/prometheus_crd_manager.py:376-420 | patching removes exactly one rule; removing the resource happens only when that was its one rule, and then only that resource goes |
| PrometheusCrd.DeleteDropsName | src/poundcake/prometheus_crd_manager.py:387-402 | a removed resource is no longer found by name |
| PrometheusCrd.CreateThenDelete | src/poundcake/prometheus_crd_manager.py:269-402 | creating a new resource for a rule and deleting the rule again removes the resource and gives back the resources |
| PrometheusCrd.CrdManager.constructor | src/poundcake/prometheus_crd_manager.py:20-39 | the manager starts from the cluster's state, the namespace and the labels it is given |
| PrometheusCrd.CrdManager.GetPrometheusRules | src/poundcake/prometheus_crd_manager.py:41-65 | all resources, or none without a client |
| PrometheusCrd.CrdManager.GetPrometheusRule | src/poundcake/prometheus_crd_manager.py:67-91 | a resource exactly when the client is there and one has the name, and then one with that name |
| PrometheusCrd.CrdManager.FindCrdContainingRule | src/poundcake/prometheus_crd_manager.py:93-141 | none without a client, otherwise the first resource holding the rule |
| PrometheusCrd.CrdManager.UpdateRuleInCrd | src/poundcake/prometheus_crd_manager.py:192-267 | the result and the resources afterwards are those of the update |
| PrometheusCrd.CrdManager.CreateRuleCrd | src/poundcake/prometheus_crd_manager.py:269-330 | the result and the resources afterwards are those of the creation |
| PrometheusCrd.CrdManager.CreateOrUpdateRule | src/poundcake/prometheus_crd_manager.py:143-190 | the result and the resources afterwards are those of create-or-update |
| PrometheusCrd.CrdManager.DeleteRule | src/poundcake/prometheus_crd_manager.py:332-433 | the result and the resources afterwards are those of the deletion |
| RuleManager.CrdNameOf | src/poundcake/prometheus_rule_manager.py:138 | the object name taken from a file name; no contract of its own: RuleManager.CrdNameOfPlain and RuleManager.CrdNameOfInterior state it |
| RuleManager.CrdNameOfPlain | src/poundcake/prometheus_rule_manager.py:83 | the resource name of `n`, `n.yaml` or `n.yml` is `n` when `n` has no such suffix inside it |
| RuleManager.CrdNameOfInterior | src/poundcake/prometheus_rule_manager.py:83 | the replacement removes a `.yaml` anywhere in the name, not only at its end |
| RuleManager.CloseAt | src/poundcake/prometheus_rule_manager.py:44-48 | the first closing brace from a position, or none when there is none |
| RuleManager.FormatPattern | src/poundcake/prometheus_rule_manager.py:44-48 | `git_file_pattern.format(...)`; no contract of its own: RuleManager.FormatLiteral, RuleManager.FormatField, RuleManager.FormatEscapes and RuleManager.FormatDefaultPattern state it |
| RuleManager.FormatLiteral | src/poundcake/prometheus_rule_manager.py:44-48 | literal text of the file pattern is copied as it is |
| RuleManager.FormatField | src/poundcake/prometheus_rule_manager.py:44-48 | `{alert_name}`, `{group_name}` and `{crd_name}` are replaced by their values |
| RuleManager.FormatEscapes | src/poundcake/prometheus_rule_manager.py:44-48 | `{{` and `}}` give one brace each |
| RuleManager.FormatDefaultPattern | src/poundcake/prometheus_rule_manager.py:44-48 | the default pattern gives `<alert>.yaml` |
| RuleManager.FilePath | src/poundcake/prometheus_rule_manager.py:26-51 | `_get_file_path`; no contract of its own: RuleManager.FilePathExtension states it |
| RuleManager.FilePathExtension | src/poundcake/prometheus_rule_manager.py:26-51 | a shared file path always ends in `.yaml` or `.yml`; with one file per alert and the default pattern it is `<alert>.yaml` |
| RuleManager.PrSummary | src/poundcake/prometheus_rule_manager.py:225-229 | a pull request summary exactly when one was opened; its number is `number` or else `iid`, its address `html_url` or else `web_url` |
| RuleManager.StartingDoc | src/poundcake/prometheus_rule_manager.py:346-353 | creation starts from the file's rules, or from no groups when the file is missing |
| RuleManager.Located | src/poundcake/prometheus_rule_manager.py:138-140 | the path in the repository; no contract of its own: RuleManager.UpdateInGitWrites and RuleManager.CreateInGitWrites state where the document is written |
| RuleManager.UpdateInGit | src/poundcake/prometheus_rule_manager.py:121-244 | `_update_rule_in_git`'s result and writes; no contract of its own: RuleManager.UpdateInGitWrites states it |
| RuleManager.UpdateInGitWrites | src/poundcake/prometheus_rule_manager.py:121-244 | one file per alert writes a document with the one rule; a shared file succeeds exactly when the pushed first group of the name holds the rule and then writes the replaced groups; a missing file and a push that fails are errors |
| RuleManager.CreateInGit | src/poundcake/prometheus_rule_manager.py:314-431 | `_create_rule_in_git`'s result and writes; no contract of its own: RuleManager.CreateInGitWrites states it |
| RuleManager.CreateInGitWrites | src/poundcake/prometheus_rule_manager.py:314-431 | creation always writes a rule document to the located path; in a shared file it holds one rule more than before |
| RuleManager.DeleteInGit | src/poundcake/prometheus_rule_manager.py:497-612 | `_delete_rule_in_git`'s result and writes; no contract of its own: RuleManager.CreateThenDeleteInGit and RuleManager.CreateThenDeletePerAlert state it |
| RuleManager.CreateThenDeleteInGit | src/poundcake/prometheus_rule_manager.py:345-566 | in a shared file, creating a new alert's rule and deleting it again writes back the original document |
| RuleManager.CreateThenDeletePerAlert | src/poundcake/prometheus_rule_manager.py:331-534 | with one file per alert, deleting a created rule deletes the created file |
| RuleManager.Combine | src/poundcake/prometheus_rule_manager.py:76-119 | success exactly when some side is enabled and the side that decides did not fail; a resource error wins, a Git error fails only without resources, and with neither side the error says so |
| RuleManager.PrometheusRuleManager.constructor | src/poundcake/prometheus_rule_manager.py:19-24 | the manager keeps its settings and its resource manager |
| RuleManager.PrometheusRuleManager.UpdateRuleInGit | src/poundcake/prometheus_rule_manager.py:121-244 | the result is that of the Git update |
| RuleManager.PrometheusRuleManager.CreateRuleInGit | src/poundcake/prometheus_rule_manager.py:314-431 | the result is that of the Git creation |
| RuleManager.PrometheusRuleManager.DeleteRuleInGit | src/poundcake/prometheus_rule_manager.py:497-612 | the result is that of the Git deletion |
| RuleManager.PrometheusRuleManager.UpdateRule | src/poundcake/prometheus_rule_manager.py:53-119 | the resources change only when resources are on, and the answer combines their result with the Git update's |
| RuleManager.PrometheusRuleManager.CreateRule | src/poundcake/prometheus_rule_manager.py:246-312 | the same for creation |
| RuleManager.PrometheusRuleManager.DeleteRule | src/poundcake/prometheus_rule_manager.py:433-495 | the same for deletion, through the resource deletion |
| Auth.Created | src/poundcake/auth.py:88-99 | the new token maps to the user and expires `timeout` seconds after now; every other entry is kept |
| Auth.Destroyed | src/poundcake/auth.py:128-137 | the token is gone afterwards, and every other entry is kept as it was |
| Auth.Validated | src/poundcake/auth.py:102-125 | `validate_session`'s user and session table; no contract of its own: Auth.ValidatedCases, Auth.ValidateIdempotent, Auth.CreateThenValidate and Auth.DestroyThenValidate state it |
| Auth.ValidatedCases | src/poundcake/auth.py:102-125 | a user exactly for a present, known token not past its expiry, and then its user with the table unchanged; a known expired token is removed; a missing or unknown token leaves the table unchanged |
| Auth.CreateThenValidate | src/poundcake/auth.py:88-125 | a new session is valid up to and including its expiry time, and is gone after it |
| Auth.ValidateIdempotent | src/poundcake/auth.py:102-125 | checking the same token twice at the same time gives the same answer |
| Auth.DestroyThenValidate | src/poundcake/auth.py:102-137 | a destroyed token no longer validates, and other tokens validate as before |
| Auth.VerifyCredentials | src/poundcake/auth.py:140-156 | without credentials nobody is let in; with them, exactly the matching user name and password are |
| Auth.Decide | src/poundcake/auth.py:200-223 | disabled authentication or a public path is open; otherwise a validated user is let in, and anyone else is redirected when the client accepts HTML and refused otherwise |
| Auth.PublicPathsOpen | src/poundcake/auth.py:204-205 | the five public paths are open whatever the session |
| Auth.SessionTable.constructor | src/poundcake/auth.py:16 | the table starts empty |
| Auth.SessionTable.CreateSession | src/poundcake/auth.py:78-99 | the token is returned and the table is the created one |
| Auth.SessionTable.ValidateSession | src/poundcake/auth.py:102-125 | the answer and the table afterwards are those of the validation |
| Auth.SessionTable.DestroySession | src/poundcake/auth.py:128-137 | the table afterwards is the destroyed one |
| Auth.SessionTable.RequireAuthIfEnabled | src/poundcake/auth.py:182-223 | a request that needs no session is open and leaves the table; otherwise the decision and the table follow the validation |
| CliOutput.MaxKeyLen | src/poundcake_cli/utils.py:45 | the longest key length: no key is longer, and some key has it |
| CliOutput.EntryLines | src/poundcake_cli/utils.py:46-50 | one line per entry, in order |
| CliOutput.EntryLinesAligned | src/poundcake_cli/utils.py:45-51 | each line is the key padded to the longest key length, two spaces, then the value, so every value starts in the same column |
| CliOutput.Shown | src/poundcake_cli/utils.py:76-78 | a value of at most 50 characters is shown as it is; a longer one as 50 characters, its first 47 then `...` |
| CliOutput.ShownLength | src/poundcake_cli/utils.py:76-78 | the shown value is as long as the value capped at 50 |
| CliOutput.WidthAsWritten | src/poundcake_cli/utils.py:61-67 | the width rule as written: a longer value sets the width to its length capped at 50, even below the key's length |
| CliOutput.WidthAsWrittenShrinks | src/poundcake_cli/utils.py:61-70 | a 51-character key with a 52-character value gets width 50, narrower than its own header |
| CliOutput.Width | src/poundcake_cli/utils.py:61-67 | the corrected width: at least the key's length and at least every shown cell's length |
| CliOutput.WidthTight | src/poundcake_cli/utils.py:61-67 | the width is the key's length or some shown cell's length |
| CliOutput.WidthAgrees | src/poundcake_cli/utils.py:61-67 | for keys of at most 50 characters the rule as written and the corrected one agree, and the width is at most 50 |
| CliOutput.Widths | src/poundcake_cli/utils.py:61 | one width per column (corrected width, see Findings) |
| CliOutput.HeaderCells | src/poundcake_cli/utils.py:69 | each header cell is its key padded to its column's width |
| CliOutput.Dashes | src/poundcake_cli/utils.py:70 | each separator cell is as many dashes as its column's width (corrected width, see Findings) |
| CliOutput.RowCells | src/poundcake_cli/utils.py:75-79 | each row cell is the shown value padded to its column's width, with a missing key as empty |
| CliOutput.Rows | src/poundcake_cli/utils.py:72-80 | one row per record, in order |
| CliOutput.RecordLines | src/poundcake_cli/utils.py:60-82 | a header, a separator and one line per record (corrected width, see Findings) |
| CliOutput.HeaderFits | src/poundcake_cli/utils.py:69-70 | the header is as long as the separator |
| CliOutput.RowFits | src/poundcake_cli/utils.py:70-80 | every row is as long as the separator |
| CliOutput.RecordLinesAligned | src/poundcake_cli/utils.py:60-82 | all lines of a record table have the same length |
| CliOutput.ColumnWidths | src/poundcake_cli/utils.py:61-67 | the nested loops compute the corrected widths |
| CliOutput.MappingLines | src/poundcake_cli/utils.py:45-50 | the loop builds the entry lines |
| CliOutput.ShowCell | src/poundcake_cli/utils.py:76-78 | the cut of one value |
| CliOutput.RowOf | src/poundcake_cli/utils.py:74-80 | the inner loop builds one row |
| CliOutput.RowsOf | src/poundcake_cli/utils.py:72-80 | the outer loop builds the rows |
| CliOutput.RecordTableLines | src/poundcake_cli/utils.py:60-82 | the lines of a record table (corrected width, see Findings) |
| CliOutput.Table | src/poundcake_cli/utils.py:31-85 | `format_table`'s text (corrected width, see Findings); no contract of its own: CliOutput.FormatTable, CliOutput.EmptyTables and the record-table lemmas state it |
| CliOutput.FormatTable | src/poundcake_cli/utils.py:31-85 | the table text of the data (corrected width, see Findings) |
| CliOutput.FormatOutput | src/poundcake_cli/utils.py:10-28 | `table` gives the table, `json` and `yaml` their renderings, and any other format the plain text |
| CliOutput.EmptyTables | src/poundcake_cli/utils.py:41-55 | an empty mapping gives "No data", and an empty list "No items" |

## Left out

- Network and process I/O: the HTTP routes and the web interface, the StackStorm client, the Prometheus HTTP methods, the Kubernetes client set-up and calls, Git cloning, committing, pushing and pull requests. Each call's answer is an input to the model.
- YAML and JSON parsing and dumping: files and documents are already-parsed values. A value of the wrong type inside a document (a group that is not a mapping, `alerts` that is not a mapping) is not modelled.
- Logging and metrics: they have no effect on results.
- Asynchronous interleaving, Redis key expiry and lock expiry over wall-clock time, and mutual exclusion across processes: locks are set membership in one sequential run, and times are integers passed in.
- Randomness: session tokens, branch names and the instance name from the environment are inputs.
- Floating-point `duration_seconds`: durations are whole-second differences.
- Case folding: only ASCII letters are lower-cased.
- TrackedAlert is a value. The in-place mutation of the tracked alert, and the memory store holding the very object the engine keeps changing, are not modelled. Because the engine saves after every change, the store agrees with the engine at every save.
- The store interface of `state/base.py`: the engine runs over the in-memory store only, because the model has no interface types. The Redis store is modelled on its own with its own contracts.
- `get_active_remediations` and `get_history` of the engine always return an empty list and are not modelled.
- `post_execute` of the handlers returns nothing, and nothing in the core calls it.
- The initial handler table after registering the examples is not computed for concrete names. The registration loop is modelled and proved.
- Stderr that is not text: the job's `stderr` is taken as text.
- `health_check` inputs: the job service's and the store's health are booleans given to the engine.
- `StackStormActionManager`: HTTP calls only.
- Management writes into a mappings directory that does not exist: the directory is a listing of files and always exists. Other keys of a mapping document besides `alerts` are kept but not inspected.
- The file-name pattern supports literal text, `{{`, `}}` and the three named fields. Format specs (`{x:spec}`), conversions (`!r`), attribute or index access and the exact Python error texts are not modelled; any other field is an error.
- Commit messages and pull-request titles and descriptions are not built.
- Keys of a rule resource's `spec` other than `groups` are not modelled.
- Exceptions from the cluster calls: an exception while listing the resources is an empty listing, and the other cluster calls fail through the `failure` input.
- Auth: `auth_enabled` and `auth_session_timeout` are not declared by the settings in `config.py`, so both are parameters here. `get_admin_credentials` reads the environment and Kubernetes secrets; its answer is an input. `get_current_user` is not part of this model.
- CliOutput: table values are text. A value that is a dictionary or a list, which the source dumps as JSON, and non-text values in general are not modelled. The `json`, `yaml` and `str` renderings are inputs. A list whose first item is a dictionary is taken to hold only dictionaries.
- The ordering of `glob` results is the listing order given.
- Action parameters are an unordered map, so the insertion order of the `parameters` dictionary and of the dictionary `_apply_templates` builds is not kept. No result of the core depends on that order.
- Management import: the entries of an import document are a list, which may repeat a name where the source's dictionary cannot; the lemmas hold for either, and Management.ImportNewName asks for a name that appears once.

## Findings

| source | as written | input that shows it | evidently intended | confidence | as-written member | corrected member |
|---|---|---|---|---|---|---|
| src/poundcake_cli/utils.py:61-70 | a value longer than the column sets the width to its length capped at 50, which can make the width smaller than the key | a single record `{k: v}` where `k` has 51 characters and `v` has 52: the width becomes 50, so the 51-character header is wider than the 50 dashes of the separator and the 50-character row | the width only grows: the larger of the current width and the value's length capped at 50 | not executed | CliOutput.WidthAsWrittenShrinks | CliOutput.Width |
