/** The flattening of the rule groups the Prometheus rules API returns into
    one list of alerting rules, each carrying its group's context. */
module Prometheus {
  import opened Wrappers
  import opened Values

  /** A rule group as the API returns it: its fields, and its `rules` list
      when it has one. Each rule is a JSON object. */
  datatype ApiGroup = ApiGroup(fields: map<string, Value>, rules: Option<seq<map<string, Value>>>)

  /** One flattened rule. */
  datatype FlatRule = FlatRule(
    group: Value, file: Value, interval: Value,
    name: Value, query: Value, duration: Value,
    labels: Value, annotations: Value,
    state: Value, health: Value,
    lastEvaluation: Value, evaluationTime: Value)

  /** `obj.get(k, default)` */
  function GetOr(m: map<string, Value>, k: string, default: Value): (r: Value)
    ensures k in m ==> r == m[k]
    ensures k !in m ==> r == default
  {
    if k in m then m[k] else default
  }

  /** `group.get("rules", [])` */
  function RulesOf(g: ApiGroup): seq<map<string, Value>>
  {
    g.rules.GetOr([])
  }

  /** `rule.get("type") == "alerting"`: recording rules are dropped. */
  predicate IsAlerting(rule: map<string, Value>)
  {
    Field(rule, "type") == VStr("alerting")
  }

  /** The entry for one alerting rule of group `g`. */
  function Flat(g: ApiGroup, rule: map<string, Value>): (r: FlatRule)
    ensures "name" in g.fields ==> r.group == g.fields["name"]
    ensures "name" !in g.fields ==> r.group == VStr("")
    ensures "file" in g.fields ==> r.file == g.fields["file"]
    ensures "file" !in g.fields ==> r.file == VStr("")
    ensures "interval" in g.fields ==> r.interval == g.fields["interval"]
    ensures "interval" !in g.fields ==> r.interval == VInt(0)
    ensures "name" in rule ==> r.name == rule["name"]
    ensures "name" !in rule ==> r.name == VStr("")
    ensures "query" in rule ==> r.query == rule["query"]
    ensures "query" !in rule ==> r.query == VStr("")
    ensures "duration" in rule ==> r.duration == rule["duration"]
    ensures "duration" !in rule ==> r.duration == VInt(0)
    ensures "labels" in rule ==> r.labels == rule["labels"]
    ensures "labels" !in rule ==> r.labels == VObject([])
    ensures "annotations" in rule ==> r.annotations == rule["annotations"]
    ensures "annotations" !in rule ==> r.annotations == VObject([])
    ensures "state" in rule ==> r.state == rule["state"]
    ensures "state" !in rule ==> r.state == VStr("inactive")
    ensures "health" in rule ==> r.health == rule["health"]
    ensures "health" !in rule ==> r.health == VStr("unknown")
    ensures "lastEvaluation" in rule ==> r.lastEvaluation == rule["lastEvaluation"]
    ensures "lastEvaluation" !in rule ==> r.lastEvaluation == VStr("")
    ensures "evaluationTime" in rule ==> r.evaluationTime == rule["evaluationTime"]
    ensures "evaluationTime" !in rule ==> r.evaluationTime == VInt(0)
  {
    FlatRule(
      GetOr(g.fields, "name", VStr("")), GetOr(g.fields, "file", VStr("")), GetOr(g.fields, "interval", VInt(0)),
      GetOr(rule, "name", VStr("")), GetOr(rule, "query", VStr("")), GetOr(rule, "duration", VInt(0)),
      GetOr(rule, "labels", VObject([])), GetOr(rule, "annotations", VObject([])),
      GetOr(rule, "state", VStr("inactive")), GetOr(rule, "health", VStr("unknown")),
      GetOr(rule, "lastEvaluation", VStr("")), GetOr(rule, "evaluationTime", VInt(0)))
  }

  /** The entries the alerting rules among `rules` of group `g` contribute, in order. */
  function GroupEntries(g: ApiGroup, rules: seq<map<string, Value>>): seq<FlatRule>
    decreases |rules|
  {
    if rules == [] then []
    else
      var last := rules[|rules| - 1];
      GroupEntries(g, rules[..|rules| - 1]) + (if IsAlerting(last) then [Flat(g, last)] else [])
  }

  /** What `_flatten_rules` returns: group after group, rule after rule. */
  function Flattened(groups: seq<ApiGroup>): seq<FlatRule>
    decreases |groups|
  {
    if groups == [] then []
    else
      var last := groups[|groups| - 1];
      Flattened(groups[..|groups| - 1]) + GroupEntries(last, RulesOf(last))
  }

  /** `_flatten_rules`, with its two nested loops. */
  method FlattenRules(groups: seq<ApiGroup>) returns (rules: seq<FlatRule>)
    ensures rules == Flattened(groups)
  {
    rules := [];
    var i := 0;
    while i < |groups|
      invariant 0 <= i <= |groups|
      invariant rules == Flattened(groups[..i])
    {
      var group := groups[i];
      var groupRules := RulesOf(group);
      ghost var done := rules;
      var j := 0;
      while j < |groupRules|
        invariant 0 <= j <= |groupRules|
        invariant rules == done + GroupEntries(group, groupRules[..j])
      {
        var rule := groupRules[j];
        assert groupRules[..j + 1][..j] == groupRules[..j];
        if Field(rule, "type") == VStr("alerting") {
          rules := rules + [Flat(group, rule)];
        }
        j := j + 1;
      }
      assert groupRules[..j] == groupRules;
      assert groups[..i + 1][..i] == groups[..i];
      i := i + 1;
    }
    assert groups[..i] == groups;
  }

  lemma GroupEntriesSnoc(g: ApiGroup, rules: seq<map<string, Value>>, rule: map<string, Value>)
    ensures GroupEntries(g, rules + [rule]) == GroupEntries(g, rules) + (if IsAlerting(rule) then [Flat(g, rule)] else [])
  {
    assert (rules + [rule])[..|rules|] == rules;
  }

  /** An entry comes from some alerting rule of the group, and every
      alerting rule of the group gives one. */
  lemma {:induction false} GroupEntriesMembers(g: ApiGroup, rules: seq<map<string, Value>>, e: FlatRule)
    ensures e in GroupEntries(g, rules) <==> exists rule :: rule in rules && IsAlerting(rule) && e == Flat(g, rule)
    decreases |rules|
  {
    if rules != [] {
      var init := rules[..|rules| - 1];
      var last := rules[|rules| - 1];
      assert rules == init + [last];
      GroupEntriesSnoc(g, init, last);
      GroupEntriesMembers(g, init, e);
      if exists rule :: rule in rules && IsAlerting(rule) && e == Flat(g, rule) {
        var rule :| rule in rules && IsAlerting(rule) && e == Flat(g, rule);
        if rule != last {
          assert rule in init;
        }
      }
    }
  }

  /** The entries of consecutive groups are concatenated: group order is kept. */
  lemma {:induction false} FlattenedAppend(g1: seq<ApiGroup>, g2: seq<ApiGroup>)
    ensures Flattened(g1 + g2) == Flattened(g1) + Flattened(g2)
    decreases |g2|
  {
    if g2 == [] {
      assert g1 + g2 == g1;
    } else {
      var init := g2[..|g2| - 1];
      var last := g2[|g2| - 1];
      var s := g1 + g2;
      assert s[..|s| - 1] == g1 + init && s[|s| - 1] == last;
      var tail := GroupEntries(last, RulesOf(last));
      assert Flattened(s) == Flattened(g1 + init) + tail;
      assert Flattened(g2) == Flattened(init) + tail;
      FlattenedAppend(g1, init);
      assert Flattened(s) == (Flattened(g1) + Flattened(init)) + tail;
    }
  }

  /** Within a group, the alerting rules keep their order. */
  lemma {:induction false} GroupEntriesAppend(g: ApiGroup, r1: seq<map<string, Value>>, r2: seq<map<string, Value>>)
    ensures GroupEntries(g, r1 + r2) == GroupEntries(g, r1) + GroupEntries(g, r2)
    decreases |r2|
  {
    if r2 == [] {
      assert r1 + r2 == r1;
    } else {
      var init := r2[..|r2| - 1];
      var last := r2[|r2| - 1];
      assert (r1 + r2)[..|r1 + r2| - 1] == r1 + init && (r1 + r2)[|r1 + r2| - 1] == last;
      GroupEntriesAppend(g, r1, init);
    }
  }

  /** Exactly the alerting rules are flattened, each with its own group's
      name, file and interval. */
  lemma {:induction false} FlattenedMembers(groups: seq<ApiGroup>, e: FlatRule)
    ensures e in Flattened(groups) <==>
      exists g, rule :: g in groups && rule in RulesOf(g) && IsAlerting(rule) && e == Flat(g, rule)
    decreases |groups|
  {
    if groups != [] {
      var init := groups[..|groups| - 1];
      var last := groups[|groups| - 1];
      assert groups == init + [last];
      FlattenedMembers(init, e);
      GroupEntriesMembers(last, RulesOf(last), e);
      if exists g, rule :: g in groups && rule in RulesOf(g) && IsAlerting(rule) && e == Flat(g, rule) {
        var g, rule :| g in groups && rule in RulesOf(g) && IsAlerting(rule) && e == Flat(g, rule);
        if g != last {
          assert g in init;
        }
      }
    }
  }

  /** A group with only recording rules, or without `rules`, contributes nothing. */
  lemma {:induction false} NoAlertingNoEntries(g: ApiGroup, rules: seq<map<string, Value>>)
    requires forall k :: 0 <= k < |rules| ==> !IsAlerting(rules[k])
    ensures GroupEntries(g, rules) == []
    decreases |rules|
  {
    if rules != [] {
      var init := rules[..|rules| - 1];
      assert forall k :: 0 <= k < |init| ==> init[k] == rules[k];
      NoAlertingNoEntries(g, init);
    }
  }
}
