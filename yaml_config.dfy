/** The handler driven by mapping documents: each configured action whose
    conditions the alert meets becomes a remediation action, with `{{...}}`
    placeholders in its string parameters filled from the alert. */
module YamlConfig {
  import opened Wrappers
  import opened Dicts
  import opened Strings
  import opened Values
  import opened Alerts
  import opened Remediation
  import opened HandlerBase

  const Name := "yaml_config"
  const Description := "Executes remediation actions defined in YAML configuration files"

  /** The error an action without its `action` key raises (`KeyError`). */
  const MissingAction := "KeyError: 'action'"

  /** `bool(config and config.get("actions"))` */
  function CanHandle(ctx: HandlerContext): (r: bool)
    ensures r <==> NonEmpty(ctx.config) && ctx.config.actions.Some? && ctx.config.actions.value != []
  {
    NonEmpty(ctx.config) && ctx.config.actions.Some? && |ctx.config.actions.value| > 0
  }

  /** The allow-list; a single string is a list of one, not a substring test. */
  function SeverityAllowed(severity: string, c: SeverityCondition): (r: bool)
    ensures c.OneSeverity? ==> (r <==> severity == c.value)
    ensures c.SeverityList? ==> (r <==> severity in c.values)
  {
    match c
    case OneSeverity(v) => severity in [v]
    case SeverityList(vs) => severity in vs
  }

  /** `labels.get(key) == value`: a missing label equals only a null value. */
  predicate LabelEquals(labels: Dict<string>, key: string, value: Value)
  {
    match Get(labels, key)
    case None => value == VNull
    case Some(v) => value == VStr(v)
  }

  /** The `labels` loop, returning at the first mismatch. */
  function LabelsMatch(labels: Dict<string>, wanted: Dict<Value>): (r: bool)
    ensures r <==> forall i :: 0 <= i < |wanted| ==> LabelEquals(labels, wanted[i].0, wanted[i].1)
  {
    if wanted == [] then true
    else if !LabelEquals(labels, wanted[0].0, wanted[0].1) then false
    else
      var r := LabelsMatch(labels, wanted[1..]);
      assert forall i :: 1 <= i < |wanted| ==> wanted[i] == wanted[1..][i - 1];
      r
  }

  /** The `has_labels` loop, returning at the first missing label. */
  function HasAllLabels(labels: Dict<string>, names: seq<string>): (r: bool)
    ensures r <==> forall i :: 0 <= i < |names| ==> HasKey(labels, names[i])
  {
    if names == [] then true
    else if !HasKey(labels, names[0]) then false
    else
      var r := HasAllLabels(labels, names[1..]);
      assert forall i :: 1 <= i < |names| ==> names[i] == names[1..][i - 1];
      r
  }

  /** `_check_conditions`: absent or empty conditions pass; otherwise every
      present condition must hold. */
  function CheckConditions(a: Alert, conditions: Option<Conditions>): (r: bool)
    ensures conditions.None? || conditions.value == NoConditions ==> r
    ensures conditions.Some? && conditions.value.severity.Some? && !SeverityAllowed(Severity(a), conditions.value.severity.value) ==> !r
    ensures conditions.Some? && conditions.value.labels.Some? ==>
      (r ==> forall i :: 0 <= i < |conditions.value.labels.value| ==>
        LabelEquals(a.labels, conditions.value.labels.value[i].0, conditions.value.labels.value[i].1))
    ensures conditions.Some? && conditions.value.hasLabels.Some? ==>
      (r ==> forall i :: 0 <= i < |conditions.value.hasLabels.value| ==> HasKey(a.labels, conditions.value.hasLabels.value[i]))
    ensures r <==> (conditions.None? ||
      ((conditions.value.severity.None? || SeverityAllowed(Severity(a), conditions.value.severity.value))
      && (conditions.value.labels.None? || LabelsMatch(a.labels, conditions.value.labels.value))
      && (conditions.value.hasLabels.None? || HasAllLabels(a.labels, conditions.value.hasLabels.value))))
  {
    if conditions.None? || conditions.value == NoConditions then true
    else
      var c := conditions.value;
      if c.severity.Some? && !SeverityAllowed(Severity(a), c.severity.value) then false
      else if c.labels.Some? && !LabelsMatch(a.labels, c.labels.value) then false
      else if c.hasLabels.Some? && !HasAllLabels(a.labels, c.hasLabels.value) then false
      else true
  }

  /** The placeholder `{{<prefix><key>}}`. */
  function Placeholder(prefix: string, key: string): string
  {
    "{{" + prefix + key + "}}"
  }

  /** Replacing each entry's placeholder by its value, entry by entry in order. */
  function FillEntries(v: string, entries: Dict<string>, prefix: string): string
    decreases |entries|
  {
    if entries == [] then v
    else
      var last := entries[|entries| - 1];
      ReplaceAll(FillEntries(v, entries[..|entries| - 1], prefix), Placeholder(prefix, last.0), last.1)
  }

  /** The substitutions `_apply_templates` makes in one string, in its order. */
  function Render(v: string, a: Alert): string
  {
    var named := ReplaceAll(ReplaceAll(ReplaceAll(v, "{{alertname}}", AlertName(a)), "{{instance}}", Instance(a)), "{{severity}}", Severity(a));
    FillEntries(FillEntries(named, a.labels, "labels."), a.annotations, "annotations.")
  }

  /** A parameter after templating: strings are rendered, other values kept. */
  function Templated(x: Value, a: Alert): (r: Value)
    ensures !x.VStr? ==> r == x
    ensures x.VStr? ==> r == VStr(Render(x.s, a))
  {
    if x.VStr? then VStr(Render(x.s, a)) else x
  }

  /** The label or annotation loop of `_apply_templates`. */
  method FillLoop(v: string, entries: Dict<string>, prefix: string) returns (value: string)
    ensures value == FillEntries(v, entries, prefix)
  {
    value := v;
    var j := 0;
    while j < |entries|
      invariant 0 <= j <= |entries|
      invariant value == FillEntries(v, entries[..j], prefix)
    {
      assert entries[..j + 1][..j] == entries[..j];
      value := ReplaceAll(value, Placeholder(prefix, entries[j].0), entries[j].1);
      j := j + 1;
    }
    assert entries[..j] == entries;
  }

  /** `_apply_templates`: the same keys, each value templated. */
  method ApplyTemplates(parameters: map<string, Value>, a: Alert) returns (result: map<string, Value>)
    ensures result.Keys == parameters.Keys
    ensures forall k :: k in result ==> result[k] == Templated(parameters[k], a)
  {
    result := map[];
    var remaining := parameters.Keys;
    while remaining != {}
      invariant remaining <= parameters.Keys
      invariant result.Keys == parameters.Keys - remaining
      invariant forall k :: k in result ==> result[k] == Templated(parameters[k], a)
      decreases |remaining|
    {
      var key :| key in remaining;
      var value := parameters[key];
      if value.VStr? {
        var s := value.s;
        s := ReplaceAll(s, "{{alertname}}", AlertName(a));
        s := ReplaceAll(s, "{{instance}}", Instance(a));
        s := ReplaceAll(s, "{{severity}}", Severity(a));
        s := FillLoop(s, a.labels, "labels.");
        s := FillLoop(s, a.annotations, "annotations.");
        value := VStr(s);
      }
      result := result[key := value];
      remaining := remaining - {key};
    }
  }

  /** The templated parameters of an action, as a function. */
  function TemplatedParameters(parameters: map<string, Value>, a: Alert): (r: map<string, Value>)
    ensures r.Keys == parameters.Keys
  {
    map k | k in parameters :: Templated(parameters[k], a)
  }

  /** A string without any `{` has no placeholder, so templating keeps it. */
  lemma {:induction false} RenderKeepsPlainText(v: string, a: Alert)
    requires '{' !in v
    ensures Render(v, a) == v
  {
    NoBraceReplace(v, "{{alertname}}", AlertName(a));
    NoBraceReplace(v, "{{instance}}", Instance(a));
    NoBraceReplace(v, "{{severity}}", Severity(a));
    FillPlainText(v, a.labels, "labels.");
    FillPlainText(v, a.annotations, "annotations.");
  }

  lemma NoBraceReplace(v: string, pat: string, rep: string)
    requires '{' !in v && pat != [] && pat[0] == '{'
    ensures ReplaceAll(v, pat, rep) == v
  {
    ReplaceSkipsPrefix(v, [], pat, rep);
    assert v + [] == v;
  }

  lemma {:induction false} FillPlainText(v: string, entries: Dict<string>, prefix: string)
    requires '{' !in v
    ensures FillEntries(v, entries, prefix) == v
    decreases |entries|
  {
    if entries != [] {
      var last := entries[|entries| - 1];
      FillPlainText(v, entries[..|entries| - 1], prefix);
      NoBraceReplace(v, Placeholder(prefix, last.0), last.1);
    }
  }

  /** `{{<name>}}` as a whole: a placeholder of `_apply_templates`. */
  function Braced(n: string): string
  {
    "{{" + n + "}}"
  }

  /** The placeholder at the front of `p + y` is replaced, and the scan goes on after it. */
  lemma ReplaceFront(p: string, y: string, rep: string)
    requires p != []
    ensures ReplaceAll(p + y, p, rep) == rep + ReplaceAll(y, p, rep)
  {
    var s := p + y;
    assert s[..|p|] == p && s[|p|..] == y;
  }

  /** A string that opens with `{{` and has no other brace is kept by a
      placeholder it does not start with. */
  lemma ReplaceBraces(t: string, pat: string, rep: string)
    requires '{' !in t && |pat| >= 2 && pat[0] == '{' && pat[1] == '{'
    requires !StartsWith("{{" + t, pat)
    ensures ReplaceAll("{{" + t, pat, rep) == "{{" + t
  {
    var s := "{{" + t;
    if |s| >= |pat| {
      assert s[1..] == "{" + t;
      var s1 := "{" + t;
      if |s1| >= |pat| {
        assert s1[..|pat|][1] == t[0];
        assert s1[1..] == t;
        NoBraceReplace(t, pat, rep);
      }
    }
  }

  /** Another placeholder leaves `x + {{n}} + y` as it is. */
  lemma ReplaceAround(x: string, n: string, y: string, pat: string, rep: string)
    requires '{' !in x && '{' !in n && '{' !in y
    requires |pat| >= 2 && pat[0] == '{' && pat[1] == '{'
    requires !StartsWith(Braced(n) + y, pat)
    ensures ReplaceAll(x + Braced(n) + y, pat, rep) == x + Braced(n) + y
  {
    var t := n + "}}" + y;
    assert Braced(n) + y == "{{" + t;
    assert x + Braced(n) + y == x + ("{{" + t);
    ReplaceSkipsPrefix(x, "{{" + t, pat, rep);
    ReplaceBraces(t, pat, rep);
  }

  /** The placeholder itself is replaced by `rep` when nothing around it has a brace. */
  lemma ReplaceTarget(x: string, p: string, y: string, rep: string)
    requires '{' !in x && '{' !in y && p != [] && p[0] == '{'
    ensures ReplaceAll(x + p + y, p, rep) == x + rep + y
  {
    assert x + p + y == x + (p + y);
    ReplaceSkipsPrefix(x, p + y, p, rep);
    ReplaceFront(p, y, rep);
    NoBraceReplace(y, p, rep);
    assert x + (rep + y) == x + rep + y;
  }

  /** A string differing from a pattern at some position does not start with it. */
  lemma NotStartsAt(s: string, pat: string, i: nat)
    requires i < |s| && i < |pat| && s[i] != pat[i]
    ensures !StartsWith(s, pat)
  {
    if |pat| <= |s| {
      assert s[..|pat|][i] != pat[i];
    }
  }

  /** Two label placeholders with different keys never start the same way,
      when no key holds a `}`. */
  lemma DistinctPlaceholders(prefix: string, k: string, k2: string, y: string)
    requires k != k2 && '}' !in k && '}' !in k2
    ensures !StartsWith(Placeholder(prefix, k) + y, Placeholder(prefix, k2))
  {
    var s := Placeholder(prefix, k) + y;
    var q := Placeholder(prefix, k2);
    var l := 2 + |prefix|;
    assert s == "{{" + prefix + k + ("}}" + y);
    assert q == "{{" + prefix + k2 + "}}";
    if |k2| < |k| {
      assert s[l + |k2|] == k[|k2|];
      assert q[l + |k2|] == '}';
      NotStartsAt(s, q, l + |k2|);
    } else if |k2| > |k| {
      assert s[l + |k|] == '}';
      assert q[l + |k|] == k2[|k|];
      NotStartsAt(s, q, l + |k|);
    } else {
      assert exists m :: 0 <= m < |k| && k[m] != k2[m];
      var m :| 0 <= m < |k| && k[m] != k2[m];
      assert s[l + m] == k[m];
      assert q[l + m] == k2[m];
      NotStartsAt(s, q, l + m);
    }
  }

  /** Filling entries in order is filling the first run, then the second. */
  lemma {:induction false} FillAppend(v: string, d1: Dict<string>, d2: Dict<string>, prefix: string)
    ensures FillEntries(v, d1 + d2, prefix) == FillEntries(FillEntries(v, d1, prefix), d2, prefix)
    decreases |d2|
  {
    if d2 == [] {
      assert d1 + d2 == d1;
    } else {
      var d := d1 + d2;
      assert d[..|d| - 1] == d1 + d2[..|d2| - 1];
      assert d[|d| - 1] == d2[|d2| - 1];
      FillAppend(v, d1, d2[..|d2| - 1], prefix);
    }
  }

  /** Entries whose placeholder does not open `{{n}} + y` leave `x + {{n}} + y` alone. */
  lemma {:induction false} FillOthers(x: string, n: string, y: string, entries: Dict<string>, prefix: string)
    requires '{' !in x && '{' !in n && '{' !in y
    requires forall j :: 0 <= j < |entries| ==> !StartsWith(Braced(n) + y, Placeholder(prefix, entries[j].0))
    ensures FillEntries(x + Braced(n) + y, entries, prefix) == x + Braced(n) + y
    decreases |entries|
  {
    if entries != [] {
      var last := entries[|entries| - 1];
      FillOthers(x, n, y, entries[..|entries| - 1], prefix);
      ReplaceAround(x, n, y, Placeholder(prefix, last.0), last.1);
    }
  }

  /** The entries before key `k` leave its placeholder alone. */
  lemma FillBefore(x: string, y: string, entries: Dict<string>, prefix: string, k: string, i: nat)
    requires '{' !in x && '{' !in y && '{' !in prefix && '{' !in k
    requires forall j :: 0 <= j < |entries| ==> '}' !in entries[j].0
    requires i <= |entries| && forall j :: 0 <= j < i ==> entries[j].0 != k
    requires '}' !in k
    ensures FillEntries(x + Placeholder(prefix, k) + y, entries[..i], prefix) == x + Placeholder(prefix, k) + y
  {
    var n := prefix + k;
    assert Placeholder(prefix, k) == Braced(n);
    forall j | 0 <= j < i
      ensures !StartsWith(Braced(n) + y, Placeholder(prefix, entries[..i][j].0))
    {
      assert entries[..i][j] == entries[j];
      DistinctPlaceholders(prefix, k, entries[j].0, y);
    }
    FillOthers(x, n, y, entries[..i], prefix);
  }

  lemma SplitAround(d: Dict<string>, i: nat)
    requires i < |d|
    ensures d == d[..i] + ([d[i]] + d[i + 1..])
  {
    assert d[i..] == [d[i]] + d[i + 1..];
    assert d == d[..i] + d[i..];
  }

  /** Filling one entry is one replacement. */
  lemma FillOne(v: string, e: (string, string), prefix: string)
    ensures FillEntries(v, [e], prefix) == ReplaceAll(v, Placeholder(prefix, e.0), e.1)
  {
    assert [e][..0] == [];
  }

  /** The loop over a dictionary replaces `{{<prefix><k>}}` by the value of
      key `k`, when no key holds a `}` and neither the value nor the text
      around the placeholder holds a `{`. */
  lemma FillSubstitutes(x: string, y: string, entries: Dict<string>, prefix: string, k: string, v: string)
    requires '{' !in x && '{' !in y && '{' !in v && '{' !in prefix && '{' !in k
    requires forall j :: 0 <= j < |entries| ==> '}' !in entries[j].0
    requires Get(entries, k) == Some(v)
    ensures FillEntries(x + Placeholder(prefix, k) + y, entries, prefix) == x + v + y
  {
    var i := IndexOf(entries, k).value;
    var p := Placeholder(prefix, k);
    var s := x + p + y;
    assert entries[i] == (k, v);
    assert '}' !in k by { assert entries[i].0 == k; }
    FillBefore(x, y, entries, prefix, k, i);
    var rest := entries[i + 1..];
    SplitAround(entries, i);
    FillAppend(s, entries[..i], [entries[i]] + rest, prefix);
    FillAppend(s, [entries[i]], rest, prefix);
    FillOne(s, entries[i], prefix);
    assert p[0] == '{';
    ReplaceTarget(x, p, y, v);
    FillPlainText(x + v + y, rest, prefix);
  }

  /** `{{alertname}}` becomes the alert's name. */
  lemma RenderAlertName(x: string, y: string, a: Alert)
    requires '{' !in x && '{' !in y && '{' !in AlertName(a)
    ensures Render(x + "{{alertname}}" + y, a) == x + AlertName(a) + y
  {
    var t := x + AlertName(a) + y;
    ReplaceTarget(x, "{{alertname}}", y, AlertName(a));
    NoBraceReplace(t, "{{instance}}", Instance(a));
    NoBraceReplace(t, "{{severity}}", Severity(a));
    FillPlainText(t, a.labels, "labels.");
    FillPlainText(t, a.annotations, "annotations.");
  }

  /** `{{instance}}` becomes the alert's instance. */
  lemma RenderInstance(x: string, y: string, a: Alert)
    requires '{' !in x && '{' !in y && '{' !in Instance(a)
    ensures Render(x + "{{instance}}" + y, a) == x + Instance(a) + y
  {
    assert Braced("instance") == "{{instance}}";
    assert (Braced("instance") + y)[2] == 'i';
    NotStartsAt(Braced("instance") + y, "{{alertname}}", 2);
    ReplaceAround(x, "instance", y, "{{alertname}}", AlertName(a));
    var t := x + Instance(a) + y;
    ReplaceTarget(x, "{{instance}}", y, Instance(a));
    NoBraceReplace(t, "{{severity}}", Severity(a));
    FillPlainText(t, a.labels, "labels.");
    FillPlainText(t, a.annotations, "annotations.");
  }

  /** `{{severity}}` becomes the alert's severity. */
  lemma RenderSeverity(x: string, y: string, a: Alert)
    requires '{' !in x && '{' !in y && '{' !in Severity(a)
    ensures Render(x + "{{severity}}" + y, a) == x + Severity(a) + y
  {
    assert Braced("severity") == "{{severity}}";
    assert (Braced("severity") + y)[2] == 's';
    NotStartsAt(Braced("severity") + y, "{{alertname}}", 2);
    NotStartsAt(Braced("severity") + y, "{{instance}}", 2);
    ReplaceAround(x, "severity", y, "{{alertname}}", AlertName(a));
    ReplaceAround(x, "severity", y, "{{instance}}", Instance(a));
    var t := x + Severity(a) + y;
    ReplaceTarget(x, "{{severity}}", y, Severity(a));
    FillPlainText(t, a.labels, "labels.");
    FillPlainText(t, a.annotations, "annotations.");
  }

  /** The three named placeholders leave a placeholder `{{n}}` alone when
      `{{n}} + y` starts with none of them. */
  lemma NamedKeep(x: string, n: string, y: string, a: Alert)
    requires '{' !in x && '{' !in n && '{' !in y
    requires !StartsWith(Braced(n) + y, "{{alertname}}")
    requires !StartsWith(Braced(n) + y, "{{instance}}")
    requires !StartsWith(Braced(n) + y, "{{severity}}")
    ensures ReplaceAll(ReplaceAll(ReplaceAll(x + Braced(n) + y, "{{alertname}}", AlertName(a)), "{{instance}}", Instance(a)), "{{severity}}", Severity(a))
      == x + Braced(n) + y
  {
    ReplaceAround(x, n, y, "{{alertname}}", AlertName(a));
    ReplaceAround(x, n, y, "{{instance}}", Instance(a));
    ReplaceAround(x, n, y, "{{severity}}", Severity(a));
  }

  /** `{{labels.k}}` becomes the value of label `k`. */
  lemma RenderLabel(x: string, y: string, a: Alert, k: string, v: string)
    requires '{' !in x && '{' !in y && '{' !in v && '{' !in k
    requires forall j :: 0 <= j < |a.labels| ==> '}' !in a.labels[j].0
    requires Get(a.labels, k) == Some(v)
    ensures Render(x + Placeholder("labels.", k) + y, a) == x + v + y
  {
    var n := "labels." + k;
    assert Placeholder("labels.", k) == Braced(n);
    var t := Braced(n) + y;
    assert t[2] == 'l';
    NotStartsAt(t, "{{alertname}}", 2);
    NotStartsAt(t, "{{instance}}", 2);
    NotStartsAt(t, "{{severity}}", 2);
    NamedKeep(x, n, y, a);
    FillSubstitutes(x, y, a.labels, "labels.", k, v);
    FillPlainText(x + v + y, a.annotations, "annotations.");
  }

  /** `{{annotations.k}}` becomes the value of annotation `k`. */
  lemma RenderAnnotation(x: string, y: string, a: Alert, k: string, v: string)
    requires '{' !in x && '{' !in y && '{' !in v && '{' !in k
    requires forall j :: 0 <= j < |a.annotations| ==> '}' !in a.annotations[j].0
    requires Get(a.annotations, k) == Some(v)
    ensures Render(x + Placeholder("annotations.", k) + y, a) == x + v + y
  {
    var n := "annotations." + k;
    assert Placeholder("annotations.", k) == Braced(n);
    var t := Braced(n) + y;
    assert t[2] == 'a' && t[3] == 'n';
    NotStartsAt(t, "{{alertname}}", 3);
    NotStartsAt(t, "{{instance}}", 2);
    NotStartsAt(t, "{{severity}}", 2);
    NamedKeep(x, n, y, a);
    forall j | 0 <= j < |a.labels|
      ensures !StartsWith(t, Placeholder("labels.", a.labels[j].0))
    {
      assert Placeholder("labels.", a.labels[j].0)[2] == 'l';
      NotStartsAt(t, Placeholder("labels.", a.labels[j].0), 2);
    }
    FillOthers(x, n, y, a.labels, "labels.");
    FillSubstitutes(x, y, a.annotations, "annotations.", k, v);
  }

  /** A dictionary none of whose placeholders occurs leaves the string alone. */
  lemma {:induction false} FillAbsent(v: string, entries: Dict<string>, prefix: string)
    requires forall j :: 0 <= j < |entries| ==> !Contains(v, Placeholder(prefix, entries[j].0))
    ensures FillEntries(v, entries, prefix) == v
    decreases |entries|
  {
    if entries != [] {
      var last := entries[|entries| - 1];
      FillAbsent(v, entries[..|entries| - 1], prefix);
      ReplaceAbsent(v, Placeholder(prefix, last.0), last.1);
    }
  }

  /** A placeholder that names nothing the alert has stays literal: a string
      holding none of the alert's placeholders is not changed. */
  lemma RenderKeepsUnknown(v: string, a: Alert)
    requires !Contains(v, "{{alertname}}") && !Contains(v, "{{instance}}") && !Contains(v, "{{severity}}")
    requires forall j :: 0 <= j < |a.labels| ==> !Contains(v, Placeholder("labels.", a.labels[j].0))
    requires forall j :: 0 <= j < |a.annotations| ==> !Contains(v, Placeholder("annotations.", a.annotations[j].0))
    ensures Render(v, a) == v
  {
    ReplaceAbsent(v, "{{alertname}}", AlertName(a));
    ReplaceAbsent(v, "{{instance}}", Instance(a));
    ReplaceAbsent(v, "{{severity}}", Severity(a));
    FillAbsent(v, a.labels, "labels.");
    FillAbsent(v, a.annotations, "annotations.");
  }

  /** A `host` parameter of `{{instance}}` becomes the alert's instance. */
  lemma TemplatedHost(a: Alert)
    requires Instance(a) == "server1:9090"
    ensures TemplatedParameters(map["host" := VStr("{{instance}}")], a) == map["host" := VStr("server1:9090")]
  {
    assert "" + "{{instance}}" + "" == "{{instance}}";
    RenderInstance("", "", a);
    assert "" + Instance(a) + "" == "server1:9090";
  }

  /** The action built from a config whose job reference is `job`. */
  function MakeAction(ac: ActionConfig, job: string, ctx: HandlerContext): RemediationAction
  {
    RemediationAction(
      ac.name.GetOr(job),
      ac.description.GetOr(""),
      job,
      TemplatedParameters(WithAlertParameters(ac.parameters, ctx), ctx.alert),
      ac.timeout.GetOr(DefaultTimeout),
      ac.retryCount.GetOr(DefaultRetryCount),
      ac.retryDelay.GetOr(DefaultRetryDelay))
  }

  /** The name defaults to the job reference, the description to "", the
      timing fields to the action defaults; the parameters are the configured
      ones overlaid by the alert's and then templated. */
  lemma MakeActionFields(ac: ActionConfig, job: string, ctx: HandlerContext)
    ensures var r := MakeAction(ac, job, ctx);
      r.stackstormAction == job
      && r.name == (if ac.name.Some? then ac.name.value else job)
      && r.description == (if ac.description.Some? then ac.description.value else "")
      && r.timeout == (if ac.timeout.Some? then ac.timeout.value else 300)
      && r.retryCount == (if ac.retryCount.Some? then ac.retryCount.value else 0)
      && r.retryDelay == (if ac.retryDelay.Some? then ac.retryDelay.value else 30)
      && r.parameters.Keys == ac.parameters.Keys + BuildParameters(ctx).Keys
      && (forall k :: k in BuildParameters(ctx) ==> r.parameters[k] == Templated(BuildParameters(ctx)[k], ctx.alert))
      && (forall k :: k in ac.parameters && k !in BuildParameters(ctx) ==> r.parameters[k] == Templated(ac.parameters[k], ctx.alert))
  {
  }

  /** `config.get("actions", [])` */
  function ActionConfigs(c: MappingConfig): seq<ActionConfig>
  {
    c.actions.GetOr([])
  }

  /** The configs of `acs` whose conditions the alert meets, in order. */
  function Passing(acs: seq<ActionConfig>, a: Alert): (r: seq<ActionConfig>)
    ensures |r| <= |acs|
  {
    if acs == [] then []
    else Passing(acs[..|acs| - 1], a) + (if CheckConditions(a, acs[|acs| - 1].conditions) then [acs[|acs| - 1]] else [])
  }

  /** The passing configs are exactly the configs of `acs` the alert meets. */
  lemma {:induction false} PassingMembers(acs: seq<ActionConfig>, a: Alert)
    ensures forall x :: x in Passing(acs, a) <==> x in acs && CheckConditions(a, x.conditions)
    decreases |acs|
  {
    if acs != [] {
      var init := acs[..|acs| - 1];
      var last := acs[|acs| - 1];
      PassingMembers(init, a);
      assert acs == init + [last];
      assert forall x :: x in acs <==> x in init || x == last;
    }
  }

  /** Every config of `acs` names its job. */
  predicate AllNamed(acs: seq<ActionConfig>)
  {
    forall i :: 0 <= i < |acs| ==> acs[i].action.Some?
  }

  /** What `get_actions` returns: the action of every passing config, in
      config order, or the `KeyError` of a passing config without `action`. */
  function YamlActions(ctx: HandlerContext): Result<seq<RemediationAction>>
  {
    var p := Passing(ActionConfigs(ctx.config), ctx.alert);
    if AllNamed(p) then Ok(ActionsOf(p, ctx)) else Err(MissingAction)
  }

  /** The actions of configs that all name their job, position by position. */
  function ActionsOf(p: seq<ActionConfig>, ctx: HandlerContext): (r: seq<RemediationAction>)
    requires AllNamed(p)
    ensures |r| == |p|
    ensures forall i :: 0 <= i < |p| ==> r[i] == MakeAction(p[i], p[i].action.value, ctx)
  {
    seq(|p|, i requires 0 <= i < |p| => MakeAction(p[i], p[i].action.value, ctx))
  }

  lemma ActionsOfSnoc(p: seq<ActionConfig>, ac: ActionConfig, ctx: HandlerContext)
    requires AllNamed(p) && ac.action.Some?
    ensures AllNamed(p + [ac])
    ensures ActionsOf(p + [ac], ctx) == ActionsOf(p, ctx) + [MakeAction(ac, ac.action.value, ctx)]
  {
    var q := p + [ac];
    assert forall i :: 0 <= i < |p| ==> q[i] == p[i];
    assert q[|p|] == ac;
    SnocPointwise(ActionsOf(q, ctx), ActionsOf(p, ctx), MakeAction(ac, ac.action.value, ctx));
  }

  /** A sequence that agrees with `s` and then ends in `x` is `s + [x]`. */
  lemma SnocPointwise<T>(l: seq<T>, s: seq<T>, x: T)
    requires |l| == |s| + 1 && l[|s|] == x
    requires forall i :: 0 <= i < |s| ==> l[i] == s[i]
    ensures l == s + [x]
  {
  }

  /** `get_actions`: the loop over the configured actions. */
  method GetActions(ctx: HandlerContext) returns (r: Result<seq<RemediationAction>>)
    ensures r == YamlActions(ctx)
  {
    var configs := ActionConfigs(ctx.config);
    var actions: seq<RemediationAction> := [];
    ghost var passed: seq<ActionConfig> := [];
    var i := 0;
    while i < |configs|
      invariant 0 <= i <= |configs|
      invariant passed == Passing(configs[..i], ctx.alert)
      invariant AllNamed(passed)
      invariant actions == ActionsOf(passed, ctx)
    {
      var ac := configs[i];
      PassingPrefix(configs, i, ctx.alert);
      if !CheckConditions(ctx.alert, ac.conditions) {
        i := i + 1;
        continue;
      }
      if ac.action.None? {
        passed := passed + [ac];
        assert passed[|passed| - 1] == ac;
        MissingStaysMissing(configs[..i + 1], configs[i + 1..], ctx.alert);
        assert configs[..i + 1] + configs[i + 1..] == configs;
        return Err(MissingAction);
      }
      var action := BuildOne(ac, ac.action.value, ctx);
      ActionsOfSnoc(passed, ac, ctx);
      passed := passed + [ac];
      actions := actions + [action];
      i := i + 1;
    }
    assert configs[..i] == configs;
    r := Ok(actions);
  }

  /** The body of the loop for one config that passes and names its job. */
  method BuildOne(ac: ActionConfig, job: string, ctx: HandlerContext) returns (action: RemediationAction)
    ensures action == MakeAction(ac, job, ctx)
  {
    var parameters := ApplyTemplates(WithAlertParameters(ac.parameters, ctx), ctx.alert);
    assert parameters == TemplatedParameters(WithAlertParameters(ac.parameters, ctx), ctx.alert);
    action := RemediationAction(
      ac.name.GetOr(job), ac.description.GetOr(""), job, parameters,
      ac.timeout.GetOr(DefaultTimeout), ac.retryCount.GetOr(DefaultRetryCount), ac.retryDelay.GetOr(DefaultRetryDelay));
  }

  lemma PassingSnoc(acs: seq<ActionConfig>, x: ActionConfig, a: Alert)
    ensures Passing(acs + [x], a) == Passing(acs, a) + (if CheckConditions(a, x.conditions) then [x] else [])
  {
    assert (acs + [x])[..|acs|] == acs;
  }

  lemma PassingPrefix(acs: seq<ActionConfig>, i: nat, a: Alert)
    requires i < |acs|
    ensures Passing(acs[..i + 1], a) == Passing(acs[..i], a) + (if CheckConditions(a, acs[i].conditions) then [acs[i]] else [])
  {
    var t := acs[..i + 1];
    assert t[..i] == acs[..i] && t[i] == acs[i];
  }

  lemma {:induction false} PassingAppend(acs: seq<ActionConfig>, more: seq<ActionConfig>, a: Alert)
    ensures Passing(acs + more, a) == Passing(acs, a) + Passing(more, a)
    decreases |more|
  {
    if more == [] {
      assert acs + more == acs;
    } else {
      var init := more[..|more| - 1];
      var last := more[|more| - 1];
      assert acs + more == (acs + init) + [last];
      PassingSnoc(acs + init, last, a);
      PassingAppend(acs, init, a);
      PassingSnoc(init, last, a);
      assert init + [last] == more;
    }
  }

  /** A passing config without `action` still fails the whole list, whatever follows it. */
  lemma MissingStaysMissing(acs: seq<ActionConfig>, more: seq<ActionConfig>, a: Alert)
    requires !AllNamed(Passing(acs, a))
    ensures !AllNamed(Passing(acs + more, a))
  {
    PassingAppend(acs, more, a);
    var p := Passing(acs, a);
    var j :| 0 <= j < |p| && p[j].action.None?;
    assert Passing(acs + more, a)[j] == p[j];
  }

  /** A mapping whose actions have no conditions yields one action per
      config, in the configured order. */
  lemma UnconditionalActions(ctx: HandlerContext)
    requires forall ac :: ac in ActionConfigs(ctx.config) ==> ac.conditions.None? && ac.action.Some?
    ensures var acs := ActionConfigs(ctx.config);
      YamlActions(ctx).Ok? && |YamlActions(ctx).value| == |acs|
      && forall i :: 0 <= i < |acs| ==> YamlActions(ctx).value[i] == MakeAction(acs[i], acs[i].action.value, ctx)
  {
    AllPass(ActionConfigs(ctx.config), ctx.alert);
  }

  /** `get_actions` fails exactly when some config the alert meets has no `action`. */
  lemma YamlActionsFail(ctx: HandlerContext)
    ensures YamlActions(ctx).Err? <==>
      exists ac :: ac in ActionConfigs(ctx.config) && CheckConditions(ctx.alert, ac.conditions) && ac.action.None?
  {
    var p := Passing(ActionConfigs(ctx.config), ctx.alert);
    PassingMembers(ActionConfigs(ctx.config), ctx.alert);
    if !AllNamed(p) {
      var j :| 0 <= j < |p| && p[j].action.None?;
      assert p[j] in p;
    }
  }

  /** On success every action comes from a config the alert meets, and every
      such config contributes its action. */
  lemma YamlActionsMembers(ctx: HandlerContext)
    requires YamlActions(ctx).Ok?
    ensures forall ac :: ac in ActionConfigs(ctx.config) && CheckConditions(ctx.alert, ac.conditions) ==>
      ac.action.Some? && MakeAction(ac, ac.action.value, ctx) in YamlActions(ctx).value
    ensures forall act :: act in YamlActions(ctx).value ==>
      exists ac :: (ac in ActionConfigs(ctx.config) && CheckConditions(ctx.alert, ac.conditions)
        && ac.action.Some? && act == MakeAction(ac, ac.action.value, ctx))
  {
    var p := Passing(ActionConfigs(ctx.config), ctx.alert);
    var r := YamlActions(ctx).value;
    PassingMembers(ActionConfigs(ctx.config), ctx.alert);
    forall ac | ac in ActionConfigs(ctx.config) && CheckConditions(ctx.alert, ac.conditions)
      ensures ac.action.Some? && MakeAction(ac, ac.action.value, ctx) in r
    {
      var j :| 0 <= j < |p| && p[j] == ac;
      assert r[j] == MakeAction(ac, ac.action.value, ctx);
    }
    forall act | act in r
      ensures exists ac :: (ac in ActionConfigs(ctx.config) && CheckConditions(ctx.alert, ac.conditions)
        && ac.action.Some? && act == MakeAction(ac, ac.action.value, ctx))
    {
      var j :| 0 <= j < |r| && r[j] == act;
      assert p[j] in p;
    }
  }

  lemma {:induction false} AllPass(acs: seq<ActionConfig>, a: Alert)
    requires forall ac :: ac in acs ==> ac.conditions.None?
    ensures Passing(acs, a) == acs
    decreases |acs|
  {
    if acs != [] {
      var init := acs[..|acs| - 1];
      var last := acs[|acs| - 1];
      assert forall ac :: ac in init ==> ac in acs;
      AllPass(init, a);
      assert last in acs;
      assert CheckConditions(a, last.conditions);
      assert Passing(acs, a) == init + [last];
      assert init + [last] == acs;
    }
  }
}
