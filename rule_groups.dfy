/** Prometheus rule groups as the rule files and the PrometheusRule objects
    hold them, and the edits made to them: replace-or-append a rule, append
    a rule, replace a rule, and delete a rule (keeping or dropping a group
    it empties). Every edit touches the FIRST group of the given name and,
    in it, the FIRST rule for the given alert. */
module RuleGroups {
  import opened Wrappers
  import opened Values

  /** A rule is a JSON object; `alert` names the alert it defines. */
  type Rule = map<string, Value>

  /** A group: the value of its `name` key (null when absent), its `rules`
      list when it has one, and its other keys. */
  datatype RuleGroup = RuleGroup(name: Value, rules: Option<seq<Rule>>, other: map<string, Value>)

  /** `group.get("rules", [])` */
  function RulesOf(g: RuleGroup): seq<Rule>
  {
    g.rules.GetOr([])
  }

  /** `group.get("name") == group_name` */
  predicate Named(g: RuleGroup, groupName: string)
  {
    g.name == VStr(groupName)
  }

  /** `rule.get("alert") == rule_name` */
  predicate IsRuleFor(rule: Rule, alert: string)
  {
    Field(rule, "alert") == VStr(alert)
  }

  /** `{"name": group_name, "rules": [rule_data]}` */
  function NewGroup(groupName: string, data: Rule): (g: RuleGroup)
    ensures Named(g, groupName) && RulesOf(g) == [data]
  {
    RuleGroup(VStr(groupName), Some([data]), map[])
  }

  function WithRules(g: RuleGroup, rules: seq<Rule>): (r: RuleGroup)
    ensures r.name == g.name && RulesOf(r) == rules
  {
    g.(rules := Some(rules))
  }

  /** The first group named `groupName`. */
  function FirstGroup(groups: seq<RuleGroup>, groupName: string): (r: Option<nat>)
    ensures r.Some? ==> r.value < |groups| && Named(groups[r.value], groupName)
    ensures r.Some? ==> forall k :: 0 <= k < r.value ==> !Named(groups[k], groupName)
    ensures r.None? ==> forall k :: 0 <= k < |groups| ==> !Named(groups[k], groupName)
  {
    if groups == [] then None
    else if Named(groups[0], groupName) then Some(0)
    else match FirstGroup(groups[1..], groupName)
      case None => None
      case Some(i) => Some(i + 1)
  }

  /** The first rule for `alert`. */
  function FirstRule(rules: seq<Rule>, alert: string): (r: Option<nat>)
    ensures r.Some? ==> r.value < |rules| && IsRuleFor(rules[r.value], alert)
    ensures r.Some? ==> forall k :: 0 <= k < r.value ==> !IsRuleFor(rules[k], alert)
    ensures r.None? ==> forall k :: 0 <= k < |rules| ==> !IsRuleFor(rules[k], alert)
  {
    if rules == [] then None
    else if IsRuleFor(rules[0], alert) then Some(0)
    else match FirstRule(rules[1..], alert)
      case None => None
      case Some(i) => Some(i + 1)
  }

  /** A group found by its position: every earlier one has another name. */
  lemma FirstGroupAt(groups: seq<RuleGroup>, groupName: string, i: nat)
    requires i < |groups| && Named(groups[i], groupName)
    requires forall k :: 0 <= k < i ==> !Named(groups[k], groupName)
    ensures FirstGroup(groups, groupName) == Some(i)
  {
  }

  /** A rule found by its position: every earlier one is for another alert. */
  lemma FirstRuleAt(rules: seq<Rule>, alert: string, j: nat)
    requires j < |rules| && IsRuleFor(rules[j], alert)
    requires forall k :: 0 <= k < j ==> !IsRuleFor(rules[k], alert)
    ensures FirstRule(rules, alert) == Some(j)
  {
  }

  /** The search loop over the groups. */
  method FindGroup(groups: seq<RuleGroup>, groupName: string) returns (r: Option<nat>)
    ensures r == FirstGroup(groups, groupName)
  {
    var i := 0;
    while i < |groups|
      invariant 0 <= i <= |groups|
      invariant forall k :: 0 <= k < i ==> !Named(groups[k], groupName)
    {
      if groups[i].name == VStr(groupName) {
        FirstGroupAt(groups, groupName, i);
        return Some(i);
      }
      i := i + 1;
    }
    r := None;
  }

  /** The search loop over a group's rules. */
  method FindRule(rules: seq<Rule>, alert: string) returns (r: Option<nat>)
    ensures r == FirstRule(rules, alert)
  {
    var j := 0;
    while j < |rules|
      invariant 0 <= j <= |rules|
      invariant forall k :: 0 <= k < j ==> !IsRuleFor(rules[k], alert)
    {
      if Field(rules[j], "alert") == VStr(alert) {
        FirstRuleAt(rules, alert, j);
        return Some(j);
      }
      j := j + 1;
    }
    r := None;
  }

  /** The rule an edit for (`groupName`, `alert`) finds: the first rule for
      the alert in the first group of that name. */
  function Lookup(groups: seq<RuleGroup>, groupName: string, alert: string): Option<Rule>
  {
    match FirstGroup(groups, groupName)
    case None => None
    case Some(i) =>
      match FirstRule(RulesOf(groups[i]), alert)
      case None => None
      case Some(j) => Some(RulesOf(groups[i])[j])
  }

  /** The number of rules over all groups. */
  function TotalRules(groups: seq<RuleGroup>): nat
    decreases |groups|
  {
    if groups == [] then 0 else TotalRules(groups[..|groups| - 1]) + |RulesOf(groups[|groups| - 1])|
  }

  lemma {:induction false} TotalRulesAppend(g1: seq<RuleGroup>, g2: seq<RuleGroup>)
    ensures TotalRules(g1 + g2) == TotalRules(g1) + TotalRules(g2)
    decreases |g2|
  {
    if g2 == [] {
      assert g1 + g2 == g1;
    } else {
      var init := g2[..|g2| - 1];
      assert (g1 + g2)[..|g1 + g2| - 1] == g1 + init && (g1 + g2)[|g1 + g2| - 1] == g2[|g2| - 1];
      TotalRulesAppend(g1, init);
    }
  }

  /** Replacing one group changes the total by the difference in its size. */
  lemma TotalRulesUpdate(groups: seq<RuleGroup>, i: nat, g: RuleGroup)
    requires i < |groups|
    ensures TotalRules(groups[i := g]) + |RulesOf(groups[i])| == TotalRules(groups) + |RulesOf(g)|
  {
    var u := groups[i := g];
    assert groups == groups[..i] + [groups[i]] + groups[i + 1..];
    assert u == groups[..i] + [g] + groups[i + 1..];
    TotalRulesAppend(groups[..i] + [groups[i]], groups[i + 1..]);
    TotalRulesAppend(groups[..i] + [g], groups[i + 1..]);
    TotalRulesAppend(groups[..i], [groups[i]]);
    TotalRulesAppend(groups[..i], [g]);
  }

  /** Removing one group takes its rules off the total. */
  lemma TotalRulesRemove(groups: seq<RuleGroup>, i: nat)
    requires i < |groups|
    ensures TotalRules(groups[..i] + groups[i + 1..]) + |RulesOf(groups[i])| == TotalRules(groups)
  {
    assert groups == groups[..i] + [groups[i]] + groups[i + 1..];
    TotalRulesAppend(groups[..i] + [groups[i]], groups[i + 1..]);
    TotalRulesAppend(groups[..i], [groups[i]]);
    TotalRulesAppend(groups[..i], groups[i + 1..]);
  }

  /** `rules` without the rule at `j` (`del rules[idx]`). */
  function WithoutRule(rules: seq<Rule>, j: nat): (r: seq<Rule>)
    requires j < |rules|
    ensures |r| == |rules| - 1
  {
    rules[..j] + rules[j + 1..]
  }

  // ---- Replace-or-append (the PrometheusRule update) ----

  /** The groups after `_update_rule_in_crd`'s edit: the first rule for the
      alert in the first group of that name is replaced; without such a rule
      the data is appended to that group; without such a group a new group
      holding only the data is appended. */
  function Upserted(groups: seq<RuleGroup>, groupName: string, alert: string, data: Rule): seq<RuleGroup>
  {
    match FirstGroup(groups, groupName)
    case None => groups + [NewGroup(groupName, data)]
    case Some(i) =>
      var rules := RulesOf(groups[i]);
      match FirstRule(rules, alert)
      case None => groups[i := WithRules(groups[i], rules + [data])]
      case Some(j) => groups[i := WithRules(groups[i], rules[j := data])]
  }

  /** The edit of `_update_rule_in_crd`, with its two search loops. */
  method UpsertRule(groups: seq<RuleGroup>, groupName: string, alert: string, data: Rule) returns (r: seq<RuleGroup>)
    ensures r == Upserted(groups, groupName, alert, data)
  {
    var found := FindGroup(groups, groupName);
    if found.None? {
      return groups + [NewGroup(groupName, data)];
    }
    var i := found.value;
    var rules := RulesOf(groups[i]);
    var at := FindRule(rules, alert);
    if at.Some? {
      rules := rules[at.value := data];
    } else {
      rules := rules + [data];
    }
    r := groups[i := WithRules(groups[i], rules)];
  }

  /** Only the first group of that name changes; every other group is kept
      in place, and a new group goes at the end. */
  lemma UpsertedFrame(groups: seq<RuleGroup>, groupName: string, alert: string, data: Rule)
    ensures var r := Upserted(groups, groupName, alert, data);
      match FirstGroup(groups, groupName)
      case None => |r| == |groups| + 1 && r[..|groups|] == groups && r[|groups|] == NewGroup(groupName, data)
      case Some(i) => (|r| == |groups| && r[i].name == groups[i].name
        && forall k :: 0 <= k < |groups| && k != i ==> r[k] == groups[k])
  {
    match FirstGroup(groups, groupName)
    case None => assert (groups + [NewGroup(groupName, data)])[..|groups|] == groups;
    case Some(i) =>
  }

  /** Afterwards the edited rule is the one found for the alert. */
  lemma UpsertedLookup(groups: seq<RuleGroup>, groupName: string, alert: string, data: Rule)
    requires IsRuleFor(data, alert)
    ensures Lookup(Upserted(groups, groupName, alert, data), groupName, alert) == Some(data)
  {
    var r := Upserted(groups, groupName, alert, data);
    match FirstGroup(groups, groupName)
    case None =>
      FirstGroupAt(r, groupName, |groups|);
      FirstRuleAt([data], alert, 0);
    case Some(i) =>
      FirstGroupAt(r, groupName, i);
      var rules := RulesOf(groups[i]);
      match FirstRule(rules, alert)
      case None =>
        FirstRuleAt(rules + [data], alert, |rules|);
      case Some(j) =>
        FirstRuleAt(rules[j := data], alert, j);
  }

  /** The total grows by one exactly when no rule for the alert was found. */
  lemma UpsertedCount(groups: seq<RuleGroup>, groupName: string, alert: string, data: Rule)
    ensures TotalRules(Upserted(groups, groupName, alert, data))
         == TotalRules(groups) + (if Lookup(groups, groupName, alert).None? then 1 else 0)
  {
    match FirstGroup(groups, groupName)
    case None =>
      TotalRulesAppend(groups, [NewGroup(groupName, data)]);
      assert TotalRules([NewGroup(groupName, data)]) == 1 by {
        assert [NewGroup(groupName, data)][..0] == [];
      }
    case Some(i) =>
      var rules := RulesOf(groups[i]);
      match FirstRule(rules, alert)
      case None => TotalRulesUpdate(groups, i, WithRules(groups[i], rules + [data]));
      case Some(j) => TotalRulesUpdate(groups, i, WithRules(groups[i], rules[j := data]));
  }

  /** Doing the same replace-or-append twice is doing it once. */
  lemma UpsertedIdempotent(groups: seq<RuleGroup>, groupName: string, alert: string, data: Rule)
    requires IsRuleFor(data, alert)
    ensures Upserted(Upserted(groups, groupName, alert, data), groupName, alert, data) == Upserted(groups, groupName, alert, data)
  {
    var r := Upserted(groups, groupName, alert, data);
    match FirstGroup(groups, groupName)
    case None =>
      FirstGroupAt(r, groupName, |groups|);
      FirstRuleAt([data], alert, 0);
      assert [data][0 := data] == [data];
      assert WithRules(r[|groups|], [data]) == r[|groups|];
      assert r[|groups| := r[|groups|]] == r;
    case Some(i) =>
      FirstGroupAt(r, groupName, i);
      var rules := RulesOf(groups[i]);
      match FirstRule(rules, alert)
      case None =>
        FirstRuleAt(rules + [data], alert, |rules|);
        assert (rules + [data])[|rules| := data] == rules + [data];
      case Some(j) =>
        FirstRuleAt(rules[j := data], alert, j);
        assert rules[j := data][j := data] == rules[j := data];
  }

  // ---- Append (the rule file create) ----

  /** The groups after `_create_rule_in_git`'s edit of a shared file: the
      data is appended to the first group of that name (even when it already
      has a rule for the alert), or a new group holding only the data is
      appended. */
  function Appended(groups: seq<RuleGroup>, groupName: string, data: Rule): seq<RuleGroup>
  {
    match FirstGroup(groups, groupName)
    case None => groups + [NewGroup(groupName, data)]
    case Some(i) => groups[i := WithRules(groups[i], RulesOf(groups[i]) + [data])]
  }

  /** Appending always adds exactly one rule. */
  lemma AppendedCount(groups: seq<RuleGroup>, groupName: string, data: Rule)
    ensures TotalRules(Appended(groups, groupName, data)) == TotalRules(groups) + 1
  {
    match FirstGroup(groups, groupName)
    case None =>
      TotalRulesAppend(groups, [NewGroup(groupName, data)]);
      assert [NewGroup(groupName, data)][..0] == [];
    case Some(i) => TotalRulesUpdate(groups, i, WithRules(groups[i], RulesOf(groups[i]) + [data]));
  }

  /** The edit of `_create_rule_in_git`, with its search loop. */
  method AppendRule(groups: seq<RuleGroup>, groupName: string, data: Rule) returns (r: seq<RuleGroup>)
    ensures r == Appended(groups, groupName, data)
  {
    var found := FindGroup(groups, groupName);
    if found.None? {
      return groups + [NewGroup(groupName, data)];
    }
    var i := found.value;
    r := groups[i := WithRules(groups[i], RulesOf(groups[i]) + [data])];
  }

  /** A rule for a new alert is then found; for an alert that already had a
      rule, the earlier rule is still the one found and the data is a duplicate. */
  lemma AppendedLookup(groups: seq<RuleGroup>, groupName: string, alert: string, data: Rule)
    requires IsRuleFor(data, alert)
    ensures Lookup(groups, groupName, alert).None? ==> Lookup(Appended(groups, groupName, data), groupName, alert) == Some(data)
    ensures Lookup(groups, groupName, alert).Some? ==> Lookup(Appended(groups, groupName, data), groupName, alert) == Lookup(groups, groupName, alert)
  {
    var r := Appended(groups, groupName, data);
    match FirstGroup(groups, groupName)
    case None =>
      FirstGroupAt(r, groupName, |groups|);
      FirstRuleAt([data], alert, 0);
    case Some(i) =>
      FirstGroupAt(r, groupName, i);
      var rules := RulesOf(groups[i]);
      match FirstRule(rules, alert)
      case None => FirstRuleAt(rules + [data], alert, |rules|);
      case Some(j) => FirstRuleAt(rules + [data], alert, j);
  }

  // ---- Replace (the rule file update) ----

  /** The groups after `_update_rule_in_git`'s edit of a shared file, or
      `None` when the first group of that name has no rule for the alert. */
  function Replaced(groups: seq<RuleGroup>, groupName: string, alert: string, data: Rule): Option<seq<RuleGroup>>
  {
    match FirstGroup(groups, groupName)
    case None => None
    case Some(i) =>
      var rules := RulesOf(groups[i]);
      match FirstRule(rules, alert)
      case None => None
      case Some(j) => Some(groups[i := WithRules(groups[i], rules[j := data])])
  }

  /** The edit of `_update_rule_in_git`, with its two search loops. */
  method ReplaceRule(groups: seq<RuleGroup>, groupName: string, alert: string, data: Rule) returns (r: Option<seq<RuleGroup>>)
    ensures r == Replaced(groups, groupName, alert, data)
  {
    var found := FindGroup(groups, groupName);
    if found.None? {
      return None;
    }
    var i := found.value;
    var rules := RulesOf(groups[i]);
    var at := FindRule(rules, alert);
    if at.None? {
      return None;
    }
    r := Some(groups[i := WithRules(groups[i], rules[at.value := data])]);
  }

  /** The replacement succeeds exactly when a rule is found, keeps the number
      of rules, and is the same as replace-or-append then. */
  lemma ReplacedFound(groups: seq<RuleGroup>, groupName: string, alert: string, data: Rule)
    ensures Replaced(groups, groupName, alert, data).Some? <==> Lookup(groups, groupName, alert).Some?
    ensures Replaced(groups, groupName, alert, data).Some? ==>
      Replaced(groups, groupName, alert, data).value == Upserted(groups, groupName, alert, data)
      && TotalRules(Replaced(groups, groupName, alert, data).value) == TotalRules(groups)
  {
    UpsertedCount(groups, groupName, alert, data);
  }

  // ---- Delete ----

  /** The groups after `_delete_rule_in_git`'s edit of a shared file: the
      rule is removed and a group it empties stays; `None` when not found. */
  function RemovedKeepGroup(groups: seq<RuleGroup>, groupName: string, alert: string): Option<seq<RuleGroup>>
  {
    match FirstGroup(groups, groupName)
    case None => None
    case Some(i) =>
      var rules := RulesOf(groups[i]);
      match FirstRule(rules, alert)
      case None => None
      case Some(j) => Some(groups[i := WithRules(groups[i], WithoutRule(rules, j))])
  }

  /** The edit of `_delete_rule_in_git`, with its two search loops. */
  method RemoveRuleKeepGroup(groups: seq<RuleGroup>, groupName: string, alert: string) returns (r: Option<seq<RuleGroup>>)
    ensures r == RemovedKeepGroup(groups, groupName, alert)
  {
    var found := FindGroup(groups, groupName);
    if found.None? {
      return None;
    }
    var i := found.value;
    var rules := RulesOf(groups[i]);
    var at := FindRule(rules, alert);
    if at.None? {
      return None;
    }
    r := Some(groups[i := WithRules(groups[i], rules[..at.value] + rules[at.value + 1..])]);
  }

  /** The groups after `delete_rule`'s edit of a PrometheusRule: the rule is
      removed and a group it empties is removed too; `None` when not found. */
  function RemovedDropGroup(groups: seq<RuleGroup>, groupName: string, alert: string): Option<seq<RuleGroup>>
  {
    match FirstGroup(groups, groupName)
    case None => None
    case Some(i) =>
      var rules := RulesOf(groups[i]);
      match FirstRule(rules, alert)
      case None => None
      case Some(j) =>
        var left := WithoutRule(rules, j);
        if |left| == 0 then Some(groups[..i] + groups[i + 1..])
        else Some(groups[i := WithRules(groups[i], left)])
  }

  /** The edit of `delete_rule`, with its two search loops. */
  method RemoveRuleDropGroup(groups: seq<RuleGroup>, groupName: string, alert: string) returns (r: Option<seq<RuleGroup>>)
    ensures r == RemovedDropGroup(groups, groupName, alert)
  {
    var found := FindGroup(groups, groupName);
    if found.None? {
      return None;
    }
    var i := found.value;
    var rules := RulesOf(groups[i]);
    var at := FindRule(rules, alert);
    if at.None? {
      return None;
    }
    rules := rules[..at.value] + rules[at.value + 1..];
    if |rules| == 0 {
      r := Some(groups[..i] + groups[i + 1..]);
    } else {
      r := Some(groups[i := WithRules(groups[i], rules)]);
    }
  }

  /** Both deletes succeed exactly when a rule is found and remove exactly one rule. */
  lemma RemovedCount(groups: seq<RuleGroup>, groupName: string, alert: string)
    ensures RemovedKeepGroup(groups, groupName, alert).Some? <==> Lookup(groups, groupName, alert).Some?
    ensures RemovedDropGroup(groups, groupName, alert).Some? <==> Lookup(groups, groupName, alert).Some?
    ensures RemovedKeepGroup(groups, groupName, alert).Some? ==>
      |RemovedKeepGroup(groups, groupName, alert).value| == |groups|
      && TotalRules(RemovedKeepGroup(groups, groupName, alert).value) + 1 == TotalRules(groups)
    ensures RemovedDropGroup(groups, groupName, alert).Some? ==>
      TotalRules(RemovedDropGroup(groups, groupName, alert).value) + 1 == TotalRules(groups)
  {
    match FirstGroup(groups, groupName)
    case None =>
    case Some(i) =>
      var rules := RulesOf(groups[i]);
      match FirstRule(rules, alert)
      case None =>
      case Some(j) =>
        var left := WithoutRule(rules, j);
        TotalRulesUpdate(groups, i, WithRules(groups[i], left));
        if |left| == 0 { TotalRulesRemove(groups, i); }
  }

  /** The PrometheusRule delete removes a group exactly when the rule was its
      last one, and otherwise agrees with the rule file delete. */
  lemma RemovedDropVersusKeep(groups: seq<RuleGroup>, groupName: string, alert: string)
    requires Lookup(groups, groupName, alert).Some?
    ensures var i := FirstGroup(groups, groupName).value;
      && (|RulesOf(groups[i])| == 1 ==> RemovedDropGroup(groups, groupName, alert) == Some(groups[..i] + groups[i + 1..]))
      && (|RulesOf(groups[i])| != 1 ==> RemovedDropGroup(groups, groupName, alert) == RemovedKeepGroup(groups, groupName, alert))
  {
  }

  /** Deleting the rule of a group that replace-or-append has just created
      gives back the groups as they were. */
  lemma UpsertNewGroupThenRemove(groups: seq<RuleGroup>, groupName: string, alert: string, data: Rule)
    requires IsRuleFor(data, alert) && FirstGroup(groups, groupName).None?
    ensures RemovedDropGroup(Upserted(groups, groupName, alert, data), groupName, alert) == Some(groups)
  {
    var r := Upserted(groups, groupName, alert, data);
    FirstGroupAt(r, groupName, |groups|);
    FirstRuleAt([data], alert, 0);
    assert WithoutRule([data], 0) == [];
    assert r[..|groups|] + r[|groups| + 1..] == groups;
  }

  /** Deleting a rule just appended to an existing group (with a `rules`
      list and no rule for the alert) gives back the groups as they were. */
  lemma AppendThenRemove(groups: seq<RuleGroup>, groupName: string, alert: string, data: Rule)
    requires IsRuleFor(data, alert) && Lookup(groups, groupName, alert).None?
    requires FirstGroup(groups, groupName).Some? && groups[FirstGroup(groups, groupName).value].rules.Some?
    ensures RemovedKeepGroup(Appended(groups, groupName, data), groupName, alert) == Some(groups)
  {
    var i := FirstGroup(groups, groupName).value;
    var rules := RulesOf(groups[i]);
    var r := Appended(groups, groupName, data);
    FirstGroupAt(r, groupName, i);
    FirstRuleAt(rules + [data], alert, |rules|);
    assert WithoutRule(rules + [data], |rules|) == rules;
    assert WithRules(r[i], rules) == groups[i];
    assert r[i := groups[i]] == groups;
  }
}
