/** What every remediation handler shares: the context it is called with,
    the mapping documents that configure it, and the parameters built from
    the alert. */
module HandlerBase {
  import opened Wrappers
  import opened Dicts
  import opened Values
  import opened Alerts
  import opened Remediation

  /** The `severity` condition: one allowed value or a list of them. */
  datatype SeverityCondition = OneSeverity(value: string) | SeverityList(values: seq<string>)

  /** The `conditions` of an action; an absent key is `None`. */
  datatype Conditions = Conditions(
    severity: Option<SeverityCondition>,
    labels: Option<Dict<Value>>,
    hasLabels: Option<seq<string>>)

  const NoConditions := Conditions(None, None, None)

  /** One entry of a mapping's `actions` list; an absent key is `None`, except
      `parameters`, where an absent key and an empty mapping behave alike. */
  datatype ActionConfig = ActionConfig(
    name: Option<string>,
    description: Option<string>,
    action: Option<string>,
    parameters: map<string, Value>,
    timeout: Option<int>,
    retryCount: Option<int>,
    retryDelay: Option<int>,
    conditions: Option<Conditions>)

  /** The document mapped to one alert name: the handler to use, its
      actions, and any other keys it carries. */
  datatype MappingConfig = MappingConfig(
    handler: Option<string>,
    actions: Option<seq<ActionConfig>>,
    other: map<string, Value>)

  /** The empty mapping `{}` that non-mapped handlers are probed with. */
  const EmptyConfig := MappingConfig(None, None, map[])

  /** Python's `bool(config)`: a mapping is truthy when it has any key. */
  predicate NonEmpty(c: MappingConfig)
  {
    c.handler.Some? || c.actions.Some? || c.other != map[]
  }

  /** The job client is not part of the context: its calls are inputs of the engine. */
  datatype HandlerContext = HandlerContext(alert: Alert, config: MappingConfig)

  /** `BaseHandler.description` when a handler does not override it. */
  const DefaultDescription := ""

  /** `pre_execute` of a handler that does not override it. */
  function PreExecute(ctx: HandlerContext, action: RemediationAction): (proceed: bool)
    ensures proceed
  {
    true
  }

  /** The keys `build_parameters` fills in. */
  const BuiltKeys := {"alert_name", "alert_labels", "alert_annotations", "instance", "severity"}

  /** `build_parameters`: the alert's name, labels, annotations, instance and severity. */
  function BuildParameters(ctx: HandlerContext): (p: map<string, Value>)
    ensures p.Keys == BuiltKeys
    ensures p["alert_name"] == VStr(AlertName(ctx.alert))
    ensures p["alert_labels"] == StrDictValue(ctx.alert.labels)
    ensures p["alert_annotations"] == StrDictValue(ctx.alert.annotations)
    ensures p["instance"] == VStr(Instance(ctx.alert))
    ensures p["severity"] == VStr(Severity(ctx.alert))
  {
    assert "instance" != "severity" && "instance"[0] != "severity"[0];
    map[
      "alert_name" := VStr(AlertName(ctx.alert)),
      "alert_labels" := StrDictValue(ctx.alert.labels),
      "alert_annotations" := StrDictValue(ctx.alert.annotations),
      "instance" := VStr(Instance(ctx.alert)),
      "severity" := VStr(Severity(ctx.alert))]
  }

  /** `{**base, **build_parameters(context)}`: the built keys win. */
  function WithAlertParameters(base: map<string, Value>, ctx: HandlerContext): (p: map<string, Value>)
    ensures p.Keys == base.Keys + BuildParameters(ctx).Keys
    ensures forall k :: k in BuildParameters(ctx) ==> p[k] == BuildParameters(ctx)[k]
    ensures forall k :: k in base && k !in BuildParameters(ctx) ==> p[k] == base[k]
  {
    base + BuildParameters(ctx)
  }
}
