/** The manager of PrometheusRule objects (the Prometheus Operator's rule
    resources) in one Kubernetes namespace: finding the object that holds a
    rule, replacing or adding a rule, and deleting one. The cluster is the
    list of the namespace's objects; a write call's failure is an input. */
module PrometheusCrd {
  import opened Wrappers
  import opened Values
  import opened Dicts
  import opened RuleGroups

  const ApiVersion := "monitoring.coreos.com/v1"
  const Kind := "PrometheusRule"

  /** One PrometheusRule object: its kind, its metadata, and its
      `spec.groups` when it has them. */
  datatype PrometheusRule = PrometheusRule(
    apiVersion: string, kind: string,
    name: string, namespace: string, labels: Dict<string>,
    groups: Option<seq<RuleGroup>>)

  /** `crd.get("spec", {}).get("groups", [])` */
  function GroupsOf(crd: PrometheusRule): seq<RuleGroup>
  {
    crd.groups.GetOr([])
  }

  /** A result dictionary: `status` error with its message, or success with
      its message, the object's name and the action taken. */
  datatype CrdResult = CrdError(message: string) | CrdDone(message: string, crdName: string, action: string)

  /** Group `g` is named `groupName` and has a rule for `alert`. */
  predicate GroupHolds(g: RuleGroup, groupName: string, alert: string)
  {
    Named(g, groupName) && FirstRule(RulesOf(g), alert).Some?
  }

  /** Some group of the object (not only the first of that name) holds the rule. */
  predicate Holds(crd: PrometheusRule, groupName: string, alert: string)
  {
    exists m :: 0 <= m < |GroupsOf(crd)| && GroupHolds(GroupsOf(crd)[m], groupName, alert)
  }

  /** The first object, in list order, that holds the rule. */
  function FirstHolding(crds: seq<PrometheusRule>, groupName: string, alert: string): (r: Option<nat>)
    ensures r.Some? ==> r.value < |crds| && Holds(crds[r.value], groupName, alert)
    ensures r.Some? ==> forall k :: 0 <= k < r.value ==> !Holds(crds[k], groupName, alert)
    ensures r.None? ==> forall k :: 0 <= k < |crds| ==> !Holds(crds[k], groupName, alert)
  {
    if crds == [] then None
    else if Holds(crds[0], groupName, alert) then Some(0)
    else match FirstHolding(crds[1..], groupName, alert)
      case None => None
      case Some(i) => Some(i + 1)
  }

  lemma FirstHoldingAt(crds: seq<PrometheusRule>, groupName: string, alert: string, i: nat)
    requires i < |crds| && Holds(crds[i], groupName, alert)
    requires forall k :: 0 <= k < i ==> !Holds(crds[k], groupName, alert)
    ensures FirstHolding(crds, groupName, alert) == Some(i)
  {
  }

  /** The object called `name`. */
  function IndexByName(crds: seq<PrometheusRule>, name: string): (r: Option<nat>)
    ensures r.Some? ==> r.value < |crds| && crds[r.value].name == name
    ensures r.Some? ==> forall k :: 0 <= k < r.value ==> crds[k].name != name
    ensures r.None? ==> forall k :: 0 <= k < |crds| ==> crds[k].name != name
  {
    if crds == [] then None
    else if crds[0].name == name then Some(0)
    else match IndexByName(crds[1..], name)
      case None => None
      case Some(i) => Some(i + 1)
  }

  lemma IndexByNameAt(crds: seq<PrometheusRule>, name: string, i: nat)
    requires i < |crds| && crds[i].name == name
    requires forall k :: 0 <= k < i ==> crds[k].name != name
    ensures IndexByName(crds, name) == Some(i)
  {
  }

  /** Object names are unique within the namespace. */
  ghost predicate DistinctNames(crds: seq<PrometheusRule>)
  {
    forall i, j :: 0 <= i < j < |crds| ==> crds[i].name != crds[j].name
  }

  /** `{**d, **e}`: the entries of `e` put over `d` one by one. */
  function MergeLabels(d: Dict<string>, e: Dict<string>): Dict<string>
    decreases |e|
  {
    if e == [] then d
    else
      var last := e[|e| - 1];
      Put(MergeLabels(d, e[..|e| - 1]), last.0, last.1)
  }

  /** A key of `e` takes its value from `e`; any other keeps its value in `d`. */
  lemma {:induction false} MergeLabelsGet(d: Dict<string>, e: Dict<string>, k: string)
    requires DistinctKeys(e)
    ensures Get(MergeLabels(d, e), k) == if HasKey(e, k) then Get(e, k) else Get(d, k)
    decreases |e|
  {
    if e != [] {
      var init := e[..|e| - 1];
      var last := e[|e| - 1];
      assert e == init + [last];
      assert DistinctKeys(init) by {
        forall i, j | 0 <= i < j < |init| ensures init[i].0 != init[j].0 {
          assert init[i] == e[i] && init[j] == e[j];
        }
      }
      MergeLabelsGet(d, init, k);
      if k == last.0 {
        assert !HasKey(init, k) by {
          forall i | 0 <= i < |init| ensures init[i].0 != k {
            assert init[i] == e[i];
          }
        }
        PutNewKey(init, k, last.1);
      } else {
        PutNewKey(init, last.0, last.1);
        assert !HasKey(init, last.0) by {
          forall i | 0 <= i < |init| ensures init[i].0 != last.0 {
            assert init[i] == e[i];
          }
        }
      }
    }
  }

  /** The labels of a new object: `managed-by: poundcake`, then the configured labels. */
  function CrdLabels(configured: Dict<string>): Dict<string>
  {
    MergeLabels([("managed-by", "poundcake")], configured)
  }

  /** A configured label wins, `managed-by` defaults to `poundcake`, and no
      other label is set. */
  lemma CrdLabelsGet(configured: Dict<string>, k: string)
    requires DistinctKeys(configured)
    ensures HasKey(configured, k) ==> Get(CrdLabels(configured), k) == Get(configured, k)
    ensures !HasKey(configured, k) && k == "managed-by" ==> Get(CrdLabels(configured), k) == Some("poundcake")
    ensures !HasKey(configured, k) && k != "managed-by" ==> Get(CrdLabels(configured), k).None?
  {
    MergeLabelsGet([("managed-by", "poundcake")], configured, k);
    var base: Dict<string> := [("managed-by", "poundcake")];
    assert base[0] == ("managed-by", "poundcake");
    if k != "managed-by" {
      assert !HasKey(base, k);
    }
  }

  /** The body `_create_rule_crd` sends: one group holding only the rule. */
  function NewCrd(crdName: string, namespace: string, configured: Dict<string>, groupName: string, data: Rule): (c: PrometheusRule)
    ensures c.apiVersion == ApiVersion && c.kind == Kind
    ensures c.name == crdName && c.namespace == namespace
    ensures GroupsOf(c) == [NewGroup(groupName, data)]
  {
    PrometheusRule(ApiVersion, Kind, crdName, namespace, CrdLabels(configured), Some([NewGroup(groupName, data)]))
  }

  /** `_update_rule_in_crd` on the object `crds[k]`; `failure` is the error
      of the patch call, if it fails. */
  function UpdateIn(connected: bool, crds: seq<PrometheusRule>, k: nat, groupName: string, alert: string, data: Rule, failure: Option<string>): (CrdResult, seq<PrometheusRule>)
    requires k < |crds|
  {
    if !connected then (CrdError("Kubernetes client not available"), crds)
    else if failure.Some? then (CrdError("Failed to patch CRD: " + failure.value), crds)
    else
      var crd := crds[k];
      (CrdDone("Rule updated in CRD", crd.name, "updated"),
       crds[k := crd.(groups := Some(Upserted(GroupsOf(crd), groupName, alert, data)))])
  }

  /** `_create_rule_crd`; `failure` is the error of the create call, if it fails. */
  function CreateIn(connected: bool, namespace: string, configured: Dict<string>, crds: seq<PrometheusRule>, crdName: string, groupName: string, data: Rule, failure: Option<string>): (CrdResult, seq<PrometheusRule>)
  {
    if !connected then (CrdError("Kubernetes client not available"), crds)
    else if failure.Some? then (CrdError("Failed to create CRD: " + failure.value), crds)
    else (CrdDone("Rule created in new CRD", crdName, "created"), crds + [NewCrd(crdName, namespace, configured, groupName, data)])
  }

  /** `create_or_update_rule`: the first object holding the rule is
      updated; else the object called `crdName`; else a new one is created. */
  function CreateOrUpdate(connected: bool, namespace: string, configured: Dict<string>, crds: seq<PrometheusRule>, alert: string, groupName: string, crdName: string, data: Rule, failure: Option<string>): (CrdResult, seq<PrometheusRule>)
  {
    if !connected then (CrdError("Kubernetes client not initialized"), crds)
    else match FirstHolding(crds, groupName, alert)
      case Some(k) => UpdateIn(connected, crds, k, groupName, alert, data, failure)
      case None =>
        match IndexByName(crds, crdName)
        case Some(k) => UpdateIn(connected, crds, k, groupName, alert, data, failure)
        case None => CreateIn(connected, namespace, configured, crds, crdName, groupName, data, failure)
  }

  /** `delete_rule`: the rule is removed from the object called `crdName`
      (whichever object holds it), a group it empties is dropped, and an
      object left without groups is deleted. `failure` is the error of the
      patch or delete call, if it fails. */
  function Delete(connected: bool, crds: seq<PrometheusRule>, alert: string, groupName: string, crdName: string, failure: Option<string>): (CrdResult, seq<PrometheusRule>)
  {
    if !connected then (CrdError("Kubernetes client not initialized"), crds)
    else match IndexByName(crds, crdName)
      case None => (CrdError("PrometheusRule CRD '" + crdName + "' not found"), crds)
      case Some(k) =>
        match RemovedDropGroup(GroupsOf(crds[k]), groupName, alert)
        case None => (CrdError("Rule '" + alert + "' not found in group '" + groupName + "'"), crds)
        case Some(left) =>
          if failure.Some? then (CrdError(failure.value), crds)
          else if left == [] then (CrdDone("Rule deleted, CRD removed (was empty)", crdName, "deleted_crd"), crds[..k] + crds[k + 1..])
          else (CrdDone("Rule deleted from CRD", crdName, "updated"), crds[k := crds[k].(groups := Some(left))])
  }

  /** Changing the groups of one object keeps every object's name. */
  lemma RenameFree(crds: seq<PrometheusRule>, k: nat, groups: Option<seq<RuleGroup>>, name: string)
    requires k < |crds|
    ensures IndexByName(crds[k := crds[k].(groups := groups)], name) == IndexByName(crds, name)
    ensures DistinctNames(crds) ==> DistinctNames(crds[k := crds[k].(groups := groups)])
  {
    var u := crds[k := crds[k].(groups := groups)];
    assert forall j :: 0 <= j < |crds| ==> u[j].name == crds[j].name;
    match IndexByName(crds, name)
    case Some(i) => IndexByNameAt(u, name, i);
    case None =>
  }

  /** A successful create-or-update leaves the rule where the result says:
      the object it names then holds exactly `data` for the alert. Without
      the client, or when the write fails, nothing changes. */
  lemma CreateOrUpdateLookup(connected: bool, namespace: string, configured: Dict<string>, crds: seq<PrometheusRule>, alert: string, groupName: string, crdName: string, data: Rule, failure: Option<string>)
    requires IsRuleFor(data, alert) && DistinctNames(crds)
    ensures var (res, after) := CreateOrUpdate(connected, namespace, configured, crds, alert, groupName, crdName, data, failure);
      && (connected && failure.None? <==> res.CrdDone?)
      && (res.CrdError? ==> after == crds)
      && (res.CrdDone? ==> (IndexByName(after, res.crdName).Some?
            && Lookup(GroupsOf(after[IndexByName(after, res.crdName).value]), groupName, alert) == Some(data)))
  {
    var (res, after) := CreateOrUpdate(connected, namespace, configured, crds, alert, groupName, crdName, data, failure);
    if connected && failure.None? {
      match FirstHolding(crds, groupName, alert)
      case Some(k) => UpdatedLookup(crds, k, groupName, alert, data);
      case None =>
        match IndexByName(crds, crdName)
        case Some(k) => UpdatedLookup(crds, k, groupName, alert, data);
        case None =>
          var c := NewCrd(crdName, namespace, configured, groupName, data);
          IndexByNameAt(crds + [c], crdName, |crds|);
          UpsertedLookup([], groupName, alert, data);
          assert [] + [NewGroup(groupName, data)] == [NewGroup(groupName, data)];
    }
  }

  lemma UpdatedLookup(crds: seq<PrometheusRule>, k: nat, groupName: string, alert: string, data: Rule)
    requires k < |crds| && IsRuleFor(data, alert) && DistinctNames(crds)
    ensures var after := UpdateIn(true, crds, k, groupName, alert, data, None).1;
      && IndexByName(after, crds[k].name).Some?
      && Lookup(GroupsOf(after[IndexByName(after, crds[k].name).value]), groupName, alert) == Some(data)
  {
    var groups := Upserted(GroupsOf(crds[k]), groupName, alert, data);
    RenameFree(crds, k, Some(groups), crds[k].name);
    IndexByNameAt(crds, crds[k].name, k);
    UpsertedLookup(GroupsOf(crds[k]), groupName, alert, data);
  }

  /** Which object a create-or-update writes: the first holding the rule,
      else the one called `crdName` (both updated), else a new object at the
      end of the list (created). */
  lemma CreateOrUpdateTarget(namespace: string, configured: Dict<string>, crds: seq<PrometheusRule>, alert: string, groupName: string, crdName: string, data: Rule)
    ensures var res := CreateOrUpdate(true, namespace, configured, crds, alert, groupName, crdName, data, None);
      match FirstHolding(crds, groupName, alert)
      case Some(k) => (res.0 == CrdDone("Rule updated in CRD", crds[k].name, "updated")
        && |res.1| == |crds| && forall j :: 0 <= j < |crds| && j != k ==> res.1[j] == crds[j])
      case None =>
        match IndexByName(crds, crdName)
        case Some(k) => (res.0 == CrdDone("Rule updated in CRD", crdName, "updated")
          && |res.1| == |crds| && forall j :: 0 <= j < |crds| && j != k ==> res.1[j] == crds[j])
        case None => (res.0 == CrdDone("Rule created in new CRD", crdName, "created")
          && res.1 == crds + [NewCrd(crdName, namespace, configured, groupName, data)])
  {
  }

  /** Create-or-update keeps object names unique. */
  lemma CreateOrUpdateDistinct(connected: bool, namespace: string, configured: Dict<string>, crds: seq<PrometheusRule>, alert: string, groupName: string, crdName: string, data: Rule, failure: Option<string>)
    requires DistinctNames(crds)
    ensures DistinctNames(CreateOrUpdate(connected, namespace, configured, crds, alert, groupName, crdName, data, failure).1)
  {
    if connected && failure.None? {
      match FirstHolding(crds, groupName, alert)
      case Some(k) => RenameFree(crds, k, Some(Upserted(GroupsOf(crds[k]), groupName, alert, data)), crdName);
      case None =>
        match IndexByName(crds, crdName)
        case Some(k) => RenameFree(crds, k, Some(Upserted(GroupsOf(crds[k]), groupName, alert, data)), crdName);
        case None =>
    }
  }

  /** A delete succeeds exactly when the client is there, the object
      exists, its first group of that name has a rule for the alert and the
      write succeeds; otherwise nothing changes. */
  lemma DeleteSucceeds(connected: bool, crds: seq<PrometheusRule>, alert: string, groupName: string, crdName: string, failure: Option<string>)
    ensures var (res, after) := Delete(connected, crds, alert, groupName, crdName, failure);
      && (res.CrdDone? <==> (connected && failure.None? && IndexByName(crds, crdName).Some?
            && Lookup(GroupsOf(crds[IndexByName(crds, crdName).value]), groupName, alert).Some?))
      && (res.CrdError? ==> after == crds)
  {
    if connected && IndexByName(crds, crdName).Some? {
      RemovedCount(GroupsOf(crds[IndexByName(crds, crdName).value]), groupName, alert);
    }
  }

  /** A successful delete from the object at `k` takes one rule out of it;
      when that was the last rule of its groups, the object is deleted. */
  lemma DeleteEffect(crds: seq<PrometheusRule>, k: nat, alert: string, groupName: string, crdName: string)
    requires DistinctNames(crds) && IndexByName(crds, crdName) == Some(k)
    requires Lookup(GroupsOf(crds[k]), groupName, alert).Some?
    ensures var (res, after) := Delete(true, crds, alert, groupName, crdName, None);
      && (res.action == "updated" ==> (IndexByName(after, crdName) == Some(k)
            && TotalRules(GroupsOf(after[k])) + 1 == TotalRules(GroupsOf(crds[k]))))
      && (res.action == "deleted_crd" ==> (TotalRules(GroupsOf(crds[k])) == 1
            && IndexByName(after, crdName).None? && |after| + 1 == |crds|))
  {
    RemovedCount(GroupsOf(crds[k]), groupName, alert);
    var left := RemovedDropGroup(GroupsOf(crds[k]), groupName, alert).value;
    if left == [] {
      DeleteDropsName(crds, k);
    } else {
      RenameFree(crds, k, Some(left), crdName);
    }
  }

  /** Deleting the object at `k` leaves no object of its name. */
  lemma DeleteDropsName(crds: seq<PrometheusRule>, k: nat)
    requires k < |crds| && DistinctNames(crds)
    ensures IndexByName(crds[..k] + crds[k + 1..], crds[k].name).None?
    ensures DistinctNames(crds[..k] + crds[k + 1..])
  {
    var after := crds[..k] + crds[k + 1..];
    forall j | 0 <= j < |after| ensures after[j].name != crds[k].name {
      if j < k { assert after[j] == crds[j]; } else { assert after[j] == crds[j + 1]; }
    }
    forall i, j | 0 <= i < j < |after| ensures after[i].name != after[j].name {
      var i' := if i < k then i else i + 1;
      var j' := if j < k then j else j + 1;
      assert after[i] == crds[i'] && after[j] == crds[j'];
    }
  }

  /** Creating a rule in a new object and then deleting it gives back the
      namespace as it was. */
  lemma CreateThenDelete(namespace: string, configured: Dict<string>, crds: seq<PrometheusRule>, alert: string, groupName: string, crdName: string, data: Rule)
    requires IsRuleFor(data, alert)
    requires FirstHolding(crds, groupName, alert).None? && IndexByName(crds, crdName).None?
    ensures var (created, after) := CreateOrUpdate(true, namespace, configured, crds, alert, groupName, crdName, data, None);
      created.action == "created" && Delete(true, after, alert, groupName, crdName, None) == (CrdDone("Rule deleted, CRD removed (was empty)", crdName, "deleted_crd"), crds)
  {
    var c := NewCrd(crdName, namespace, configured, groupName, data);
    var after := crds + [c];
    IndexByNameAt(after, crdName, |crds|);
    UpsertNewGroupThenRemove([], groupName, alert, data);
    assert [] + [NewGroup(groupName, data)] == [NewGroup(groupName, data)];
    assert after[..|crds|] + after[|crds| + 1..] == crds;
  }

  /** The PrometheusRule objects of one namespace, as the manager sees them. */
  class CrdManager {
    /** Whether the Kubernetes client could be set up. */
    const connected: bool
    const namespace: string
    /** The configured labels for new objects. */
    const configured: Dict<string>
    /** The namespace's objects, in the order the API lists them. */
    var crds: seq<PrometheusRule>

    ghost predicate Valid()
      reads this
    {
      DistinctNames(crds)
    }

    constructor (connected: bool, namespace: string, configured: Dict<string>, crds: seq<PrometheusRule>)
      requires DistinctNames(crds)
      ensures Valid()
      ensures this.connected == connected && this.namespace == namespace
      ensures this.configured == configured && this.crds == crds
    {
      this.connected := connected;
      this.namespace := namespace;
      this.configured := configured;
      this.crds := crds;
    }

    /** `get_prometheus_rules`: the objects, or none without the client. */
    method GetPrometheusRules() returns (r: seq<PrometheusRule>)
      ensures connected ==> r == crds
      ensures !connected ==> r == []
    {
      if !connected {
        return [];
      }
      r := crds;
    }

    /** `get_prometheus_rule`: the object of that name, if any. */
    method GetPrometheusRule(name: string) returns (r: Option<PrometheusRule>)
      ensures r.Some? <==> connected && exists k :: 0 <= k < |crds| && crds[k].name == name
      ensures r.Some? ==> r.value in crds && r.value.name == name
    {
      if !connected {
        return None;
      }
      var k := IndexByName(crds, name);
      if k.None? {
        return None;
      }
      r := Some(crds[k.value]);
    }

    /** `find_crd_containing_rule`: the position of the first object with
      a group of that name (any of them) holding a rule for the alert. */
    method FindCrdContainingRule(alert: string, groupName: string) returns (r: Option<nat>)
      ensures !connected ==> r.None?
      ensures connected ==> r == FirstHolding(crds, groupName, alert)
    {
      if !connected {
        return None;
      }
      var all := GetPrometheusRules();
      var i := 0;
      while i < |all|
        invariant 0 <= i <= |all| && all == crds
        invariant forall k :: 0 <= k < i ==> !Holds(all[k], groupName, alert)
      {
        var groups := GroupsOf(all[i]);
        var m := 0;
        while m < |groups|
          invariant 0 <= m <= |groups|
          invariant forall n :: 0 <= n < m ==> !GroupHolds(groups[n], groupName, alert)
        {
          if groups[m].name == VStr(groupName) {
            var at := FindRule(RulesOf(groups[m]), alert);
            if at.Some? {
              FirstHoldingAt(all, groupName, alert, i);
              return Some(i);
            }
          }
          m := m + 1;
        }
        i := i + 1;
      }
      r := None;
    }

    /** `_update_rule_in_crd` on the object at position `k`. */
    method UpdateRuleInCrd(k: nat, alert: string, groupName: string, data: Rule, failure: Option<string>) returns (res: CrdResult)
      requires Valid() && k < |crds|
      modifies this
      ensures Valid()
      ensures (res, crds) == UpdateIn(connected, old(crds), k, groupName, alert, data, failure)
    {
      if !connected {
        return CrdError("Kubernetes client not available");
      }
      var crd := crds[k];
      var groups := UpsertRule(GroupsOf(crd), groupName, alert, data);
      if failure.Some? {
        return CrdError("Failed to patch CRD: " + failure.value);
      }
      RenameFree(crds, k, Some(groups), crd.name);
      crds := crds[k := crd.(groups := Some(groups))];
      res := CrdDone("Rule updated in CRD", crd.name, "updated");
    }

    /** `_create_rule_crd`. */
    method CreateRuleCrd(crdName: string, groupName: string, data: Rule, failure: Option<string>) returns (res: CrdResult)
      requires Valid() && IndexByName(crds, crdName).None?
      modifies this
      ensures Valid()
      ensures (res, crds) == CreateIn(connected, namespace, configured, old(crds), crdName, groupName, data, failure)
    {
      if !connected {
        return CrdError("Kubernetes client not available");
      }
      var body := NewCrd(crdName, namespace, configured, groupName, data);
      if failure.Some? {
        return CrdError("Failed to create CRD: " + failure.value);
      }
      crds := crds + [body];
      res := CrdDone("Rule created in new CRD", crdName, "created");
    }

    /** `create_or_update_rule`. */
    method CreateOrUpdateRule(alert: string, groupName: string, crdName: string, data: Rule, failure: Option<string>) returns (res: CrdResult)
      requires Valid()
      modifies this
      ensures Valid()
      ensures (res, crds) == CreateOrUpdate(connected, namespace, configured, old(crds), alert, groupName, crdName, data, failure)
    {
      if !connected {
        return CrdError("Kubernetes client not initialized");
      }
      var existing := FindCrdContainingRule(alert, groupName);
      if existing.Some? {
        res := UpdateRuleInCrd(existing.value, alert, groupName, data, failure);
        return;
      }
      var byName := IndexByName(crds, crdName);
      if byName.Some? {
        res := UpdateRuleInCrd(byName.value, alert, groupName, data, failure);
      } else {
        res := CreateRuleCrd(crdName, groupName, data, failure);
      }
    }

    /** `delete_rule`. */
    method DeleteRule(alert: string, groupName: string, crdName: string, failure: Option<string>) returns (res: CrdResult)
      requires Valid()
      modifies this
      ensures Valid()
      ensures (res, crds) == Delete(connected, old(crds), alert, groupName, crdName, failure)
    {
      if !connected {
        return CrdError("Kubernetes client not initialized");
      }
      var found := IndexByName(crds, crdName);
      if found.None? {
        return CrdError("PrometheusRule CRD '" + crdName + "' not found");
      }
      var k := found.value;
      var left := RemoveRuleDropGroup(GroupsOf(crds[k]), groupName, alert);
      if left.None? {
        return CrdError("Rule '" + alert + "' not found in group '" + groupName + "'");
      }
      if failure.Some? {
        return CrdError(failure.value);
      }
      if |left.value| == 0 {
        DeleteDropsName(crds, k);
        crds := crds[..k] + crds[k + 1..];
        res := CrdDone("Rule deleted, CRD removed (was empty)", crdName, "deleted_crd");
      } else {
        RenameFree(crds, k, Some(left.value), crdName);
        crds := crds[k := crds[k].(groups := Some(left.value))];
        res := CrdDone("Rule deleted from CRD", crdName, "updated");
      }
    }
  }
}
