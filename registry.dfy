/** The handler registry: an ordered table of handlers by name plus the alert
    mappings, and the resolution of an alert to the handlers and actions that
    apply to it. */
module Registry {
  import opened Wrappers
  import opened Dicts
  import opened Alerts
  import opened Remediation
  import opened HandlerBase
  import opened Handlers
  import YamlConfig
  import Config

  /** A handler together with the configuration it is to be called with. */
  type Found = (Handler, MappingConfig)

  /** Every entry is filed under its handler's own name, once. */
  ghost predicate Filed(handlers: Dict<Handler>)
  {
    DistinctKeys(handlers) && forall e :: e in handlers ==> e.0 == Name(e.1)
  }

  /** `mapping.get("handler", "yaml_config")` */
  function MappedHandlerName(m: MappingConfig): (r: string)
    ensures m.handler.None? ==> r == YamlConfig.Name
  {
    m.handler.GetOr(YamlConfig.Name)
  }

  /** The first step of `find_handlers`: the handler a non-empty mapping for
      the alert's name designates, if it is registered and accepts the
      mapping as its configuration. */
  function MappedEntry(handlers: Dict<Handler>, mappings: map<string, MappingConfig>, a: Alert): (r: seq<Found>)
    ensures |r| <= 1
    ensures |r| == 1 <==> (AlertName(a) in mappings && NonEmpty(mappings[AlertName(a)])
      && HasKey(handlers, MappedHandlerName(mappings[AlertName(a)]))
      && CanHandle(Get(handlers, MappedHandlerName(mappings[AlertName(a)])).value, HandlerContext(a, mappings[AlertName(a)])))
    ensures |r| == 1 ==> (r[0].1 == mappings[AlertName(a)]
      && Get(handlers, MappedHandlerName(r[0].1)) == Some(r[0].0))
  {
    var name := AlertName(a);
    if name in mappings && NonEmpty(mappings[name]) then
      var mapping := mappings[name];
      match Get(handlers, MappedHandlerName(mapping))
      case None => []
      case Some(h) => if CanHandle(h, HandlerContext(a, mapping)) then [(h, mapping)] else []
    else []
  }

  /** Whether the second step of `find_handlers` takes handler `h`. */
  predicate Probes(h: Handler, a: Alert)
  {
    Name(h) != YamlConfig.Name && CanHandle(h, HandlerContext(a, EmptyConfig))
  }

  /** The second step: every handler but the mapping-driven one, in table
      order, that accepts the alert with the empty configuration. */
  function Probed(entries: Dict<Handler>, a: Alert): seq<Found>
    decreases |entries|
  {
    if entries == [] then []
    else
      var last := entries[|entries| - 1];
      Probed(entries[..|entries| - 1], a) + (if Probes(last.1, a) then [(last.1, EmptyConfig)] else [])
  }

  /** What `find_handlers` returns. */
  function FindAll(handlers: Dict<Handler>, mappings: map<string, MappingConfig>, a: Alert): seq<Found>
  {
    MappedEntry(handlers, mappings, a) + Probed(handlers, a)
  }

  /** The probed handlers are exactly the table's handlers, other than the
      mapping-driven one, that accept the alert with the empty configuration;
      each comes with that configuration. */
  lemma {:induction false} ProbedMembers(entries: Dict<Handler>, a: Alert)
    ensures forall f :: f in Probed(entries, a) <==>
      f.1 == EmptyConfig && Probes(f.0, a) && f.0 in Dicts.Values(entries)
    decreases |entries|
  {
    if entries != [] {
      var init := entries[..|entries| - 1];
      var last := entries[|entries| - 1];
      ProbedMembers(init, a);
      assert Dicts.Values(entries) == Dicts.Values(init) + [last.1];
    }
  }

  lemma ProbedPrefix(entries: Dict<Handler>, i: nat, a: Alert)
    requires i < |entries|
    ensures Probed(entries[..i + 1], a) == Probed(entries[..i], a)
      + (if Probes(entries[i].1, a) then [(entries[i].1, EmptyConfig)] else [])
  {
    var s := entries[..i + 1];
    assert s[..i] == entries[..i] && s[i] == entries[i];
  }

  /** Running one more handler after `prev`: the first error wins, otherwise
      the actions are appended. */
  function Then(prev: Result<seq<RemediationAction>>, next: Result<seq<RemediationAction>>): Result<seq<RemediationAction>>
  {
    if prev.Err? then prev else if next.Err? then next else Ok(prev.value + next.value)
  }

  lemma ThenAssociative(x: Result<seq<RemediationAction>>, y: Result<seq<RemediationAction>>, z: Result<seq<RemediationAction>>)
    ensures Then(Then(x, y), z) == Then(x, Then(y, z))
  {
    if x.Ok? && y.Ok? && z.Ok? {
      assert x.value + y.value + z.value == x.value + (y.value + z.value);
    }
  }

  /** What `get_actions_for_alert` returns: each found handler's actions in
      order, concatenated, or the first error a handler raises. */
  function ActionsFor(found: seq<Found>, a: Alert): Result<seq<RemediationAction>>
    decreases |found|
  {
    if found == [] then Ok([])
    else
      var last := found[|found| - 1];
      Then(ActionsFor(found[..|found| - 1], a), Actions(last.0, HandlerContext(a, last.1)))
  }

  lemma ActionsForSnoc(found: seq<Found>, f: Found, a: Alert)
    ensures ActionsFor(found + [f], a) == Then(ActionsFor(found, a), Actions(f.0, HandlerContext(a, f.1)))
  {
    assert (found + [f])[..|found|] == found;
  }

  /** The actions of consecutive groups of handlers are concatenated; an
      error in the first group hides the second. */
  lemma {:induction false} ActionsForAppend(f1: seq<Found>, f2: seq<Found>, a: Alert)
    ensures ActionsFor(f1 + f2, a) == Then(ActionsFor(f1, a), ActionsFor(f2, a))
    decreases |f2|
  {
    if f2 == [] {
      assert f1 + f2 == f1;
      assert ActionsFor(f1, a) == Then(ActionsFor(f1, a), Ok([])) by {
        if ActionsFor(f1, a).Ok? { assert ActionsFor(f1, a).value + [] == ActionsFor(f1, a).value; }
      }
    } else {
      var init := f2[..|f2| - 1];
      var last := f2[|f2| - 1];
      var x := Actions(last.0, HandlerContext(a, last.1));
      SplitLast(f1, f2);
      ActionsForSnoc(f1 + init, last, a);
      ActionsForAppend(f1, init, a);
      ActionsForSnoc(init, last, a);
      ThenAssociative(ActionsFor(f1, a), ActionsFor(init, a), x);
    }
  }

  /** Peeling the last element off the second half of a concatenation. */
  lemma SplitLast<T>(s1: seq<T>, s2: seq<T>)
    requires s2 != []
    ensures s1 + s2 == (s1 + s2[..|s2| - 1]) + [s2[|s2| - 1]]
    ensures s2[..|s2| - 1] + [s2[|s2| - 1]] == s2
  {
  }

  lemma ActionsForPrefix(found: seq<Found>, i: nat, a: Alert)
    requires i < |found|
    ensures ActionsFor(found[..i + 1], a) == Then(ActionsFor(found[..i], a), Actions(found[i].0, HandlerContext(a, found[i].1)))
  {
    var s := found[..i + 1];
    assert s[..i] == found[..i] && s[i] == found[i];
  }

  /** Once a handler has raised, the handlers after it do not matter. */
  lemma ActionsForFailed(found: seq<Found>, i: nat, a: Alert)
    requires i <= |found| && ActionsFor(found[..i], a).Err?
    ensures ActionsFor(found, a) == ActionsFor(found[..i], a)
  {
    ActionsForAppend(found[..i], found[i..], a);
    assert found[..i] + found[i..] == found;
  }

  /** Without the mapping-driven handler nothing can fail, and the actions
      are one handler's after another's, with nothing dropped or merged. */
  lemma {:induction false} KeywordOnlyActions(found: seq<Found>, a: Alert)
    requires forall i :: 0 <= i < |found| ==> found[i].0 != YamlConfigHandler
    ensures ActionsFor(found, a).Ok?
    ensures |ActionsFor(found, a).value| == TotalActions(found, a)
    decreases |found|
  {
    if found != [] {
      var init := found[..|found| - 1];
      assert forall i :: 0 <= i < |init| ==> init[i] == found[i];
      KeywordOnlyActions(init, a);
    }
  }

  /** The number of actions each found handler proposes, added up. */
  function TotalActions(found: seq<Found>, a: Alert): nat
    decreases |found|
  {
    if found == [] then 0
    else
      var last := found[|found| - 1];
      TotalActions(found[..|found| - 1], a)
        + (match Actions(last.0, HandlerContext(a, last.1)) case Ok(xs) => |xs| case Err(_) => 0)
  }

  /** Every probed handler is a registered keyword handler that accepts the
      alert with the empty configuration, and comes with that configuration. */
  lemma ProbedAt(handlers: Dict<Handler>, a: Alert, i: nat)
    requires i < |Probed(handlers, a)|
    ensures var f := Probed(handlers, a)[i];
      f.1 == EmptyConfig && f.0 != YamlConfigHandler
        && CanHandle(f.0, HandlerContext(a, EmptyConfig)) && f.0 in Dicts.Values(handlers)
  {
    var p := Probed(handlers, a);
    ProbedMembers(handlers, a);
    assert p[i] in p;
  }

  /** `find_handlers` puts the mapped handler first and then only probed
      handlers: never the mapping-driven one, always with the empty configuration. */
  lemma FindAllOrder(handlers: Dict<Handler>, mappings: map<string, MappingConfig>, a: Alert)
    ensures var r := FindAll(handlers, mappings, a);
      var m := MappedEntry(handlers, mappings, a);
      (m != [] ==> r[0] == m[0])
      && forall i :: |m| <= i < |r| ==> (r[i].1 == EmptyConfig && r[i].0 != YamlConfigHandler
        && CanHandle(r[i].0, HandlerContext(a, EmptyConfig)) && r[i].0 in Dicts.Values(handlers))
  {
    var m := MappedEntry(handlers, mappings, a);
    var p := Probed(handlers, a);
    var r := FindAll(handlers, mappings, a);
    assert r == m + p;
    forall i | |m| <= i < |r|
      ensures r[i].1 == EmptyConfig && r[i].0 != YamlConfigHandler
        && CanHandle(r[i].0, HandlerContext(a, EmptyConfig)) && r[i].0 in Dicts.Values(handlers)
    {
      assert r[i] == p[i - |m|];
      ProbedAt(handlers, a, i - |m|);
    }
  }

  /** A mapping that names a keyword handler makes that handler appear twice:
      first with the mapping, then again when it is probed with the empty
      configuration, provided it recognises the alert. */
  lemma MappedKeywordHandlerTwice(handlers: Dict<Handler>, mappings: map<string, MappingConfig>, a: Alert, h: Handler)
    requires Filed(handlers) && h != YamlConfigHandler && HasKey(handlers, Name(h))
    requires AlertName(a) in mappings && mappings[AlertName(a)].handler == Some(Name(h))
    requires CanHandle(h, HandlerContext(a, EmptyConfig))
    ensures var r := FindAll(handlers, mappings, a);
      |r| >= 2 && r[0] == (h, mappings[AlertName(a)]) && (h, EmptyConfig) in r[1..]
  {
    var mapping := mappings[AlertName(a)];
    var g := Get(handlers, Name(h)).value;
    assert (Name(h), g) in handlers;
    NameInjective(g, h);
    KeywordHandlersIgnoreConfig(h, HandlerContext(a, EmptyConfig), mapping);
    assert MappedEntry(handlers, mappings, a) == [(h, mapping)];
    var j :| 0 <= j < |handlers| && handlers[j].0 == Name(h);
    assert handlers[j] in handlers;
    ProbedTakes(handlers, a, j);
    assert FindAll(handlers, mappings, a)[1..] == Probed(handlers, a);
  }

  /** A registered handler that passes the probe is among the probed ones. */
  lemma ProbedTakes(entries: Dict<Handler>, a: Alert, j: nat)
    requires j < |entries| && Probes(entries[j].1, a)
    ensures (entries[j].1, EmptyConfig) in Probed(entries, a)
  {
    ProbedMembers(entries, a);
    assert Dicts.Values(entries)[j] == entries[j].1;
  }

  /** The probed handlers never fail, so `get_actions_for_alert` fails only
      through the mapped handler; otherwise it is the mapped handler's
      actions followed by the probed handlers', with none dropped. */
  lemma AlertActionsSplit(handlers: Dict<Handler>, mappings: map<string, MappingConfig>, a: Alert)
    ensures ActionsFor(Probed(handlers, a), a).Ok?
    ensures |ActionsFor(Probed(handlers, a), a).value| == TotalActions(Probed(handlers, a), a)
    ensures var m := ActionsFor(MappedEntry(handlers, mappings, a), a);
      ActionsFor(FindAll(handlers, mappings, a), a) ==
        if m.Err? then m else Ok(m.value + ActionsFor(Probed(handlers, a), a).value)
  {
    var p := Probed(handlers, a);
    ProbedMembers(handlers, a);
    forall i | 0 <= i < |p| ensures p[i].0 != YamlConfigHandler {
      assert p[i] in p;
    }
    KeywordOnlyActions(p, a);
    ActionsForAppend(MappedEntry(handlers, mappings, a), p, a);
  }

  /** The result of `register` applied to each handler in turn. */
  function RegisterAll(handlers: Dict<Handler>, hs: seq<Handler>): Dict<Handler>
    decreases |hs|
  {
    if hs == [] then handlers
    else RegisterAll(Put(handlers, Name(hs[0]), hs[0]), hs[1..])
  }

  /** The example handlers, in the order `register_example_handlers` registers them. */
  const ExampleHandlerList := [HighCpuHandler, DiskSpaceHandler, ServiceDownHandler, MemoryHandler]

  class HandlerRegistry {
    var handlers: Dict<Handler>
    var mappings: map<string, MappingConfig>

    ghost predicate Valid()
      reads this
    {
      Filed(handlers)
    }

    constructor()
      ensures Valid() && handlers == [] && mappings == map[]
    {
      handlers := [];
      mappings := map[];
    }

    /** `register`: the handler is filed under its name, replacing any
        handler of that name in place. */
    method Register(h: Handler)
      requires Valid()
      modifies this
      ensures Valid()
      ensures handlers == Put(old(handlers), Name(h), h)
      ensures mappings == old(mappings)
    {
      PutEntries(handlers, Name(h), h);
      handlers := Put(handlers, Name(h), h);
    }

    /** `unregister`: the name is dropped if present. */
    method Unregister(name: string)
      requires Valid()
      modifies this
      ensures Valid()
      ensures handlers == Remove(old(handlers), name)
      ensures mappings == old(mappings)
    {
      if HasKey(handlers, name) {
        RemoveEntries(handlers, name);
        handlers := Remove(handlers, name);
      } else {
        assert Remove(handlers, name) == handlers;
      }
    }

    function GetHandler(name: string): (r: Option<Handler>)
      reads this
      ensures r.Some? <==> HasKey(handlers, name)
      ensures Valid() && r.Some? ==> Name(r.value) == name
    {
      match Get(handlers, name)
      case None => None
      case Some(h) => assert (name, h) in handlers; Some(h)
    }

    function ListHandlers(): (r: seq<string>)
      reads this
      ensures |r| == |handlers|
      ensures forall n :: n in r <==> HasKey(handlers, n)
    {
      Keys(handlers)
    }

    /** `load_mappings`: the mappings are replaced by those loaded from the directory. */
    method LoadMappings(dir: Config.MappingDir)
      requires Valid()
      modifies this
      ensures Valid()
      ensures mappings == Config.AllMappings(dir)
      ensures handlers == old(handlers)
    {
      mappings := Config.LoadAllMappings(dir);
    }

    function GetMapping(alertName: string): (r: Option<MappingConfig>)
      reads this
      ensures r.Some? <==> alertName in mappings
      ensures r.Some? ==> r.value == mappings[alertName]
    {
      if alertName in mappings then Some(mappings[alertName]) else None
    }

    /** `find_handlers` */
    method FindHandlers(a: Alert) returns (result: seq<Found>)
      ensures result == FindAll(handlers, mappings, a)
    {
      result := FindMapped(a);
      result := ProbeHandlers(a, result);
    }

    /** The first step of `find_handlers`. */
    method FindMapped(a: Alert) returns (result: seq<Found>)
      ensures result == MappedEntry(handlers, mappings, a)
    {
      result := [];
      var mapping := GetMapping(AlertName(a));
      if mapping.Some? && NonEmpty(mapping.value) {
        var handler := GetHandler(MappedHandlerName(mapping.value));
        if handler.Some? {
          var context := HandlerContext(a, mapping.value);
          if CanHandle(handler.value, context) {
            result := result + [(handler.value, mapping.value)];
          }
        }
      }
    }

    /** The loop of `find_handlers` over the registered handlers, appending to `found`. */
    method ProbeHandlers(a: Alert, found: seq<Found>) returns (result: seq<Found>)
      ensures result == found + Probed(handlers, a)
    {
      result := found;
      var i := 0;
      while i < |handlers|
        invariant 0 <= i <= |handlers|
        invariant result == found + Probed(handlers[..i], a)
      {
        var handler := handlers[i].1;
        ProbedPrefix(handlers, i, a);
        if Name(handler) != YamlConfig.Name {
          var context := HandlerContext(a, EmptyConfig);
          if CanHandle(handler, context) {
            result := result + [(handler, EmptyConfig)];
          }
        }
        i := i + 1;
      }
      assert handlers[..i] == handlers;
    }

    /** `get_actions_for_alert` */
    method GetActionsForAlert(a: Alert) returns (r: Result<seq<RemediationAction>>)
      ensures r == ActionsFor(FindAll(handlers, mappings, a), a)
    {
      var found := FindHandlers(a);
      r := RunHandlers(found, a);
    }
  }

  /** The loop of `get_actions_for_alert`: each handler's actions appended in
      turn; the first handler that raises ends it. */
  method RunHandlers(found: seq<Found>, a: Alert) returns (r: Result<seq<RemediationAction>>)
    ensures r == ActionsFor(found, a)
  {
    var actions: seq<RemediationAction> := [];
    var i := 0;
    while i < |found|
      invariant 0 <= i <= |found|
      invariant ActionsFor(found[..i], a) == Ok(actions)
    {
      ActionsForPrefix(found, i, a);
      var handlerActions := GetActions(found[i].0, HandlerContext(a, found[i].1));
      if handlerActions.Err? {
        ActionsForFailed(found, i + 1, a);
        return Err(handlerActions.error);
      }
      actions := actions + handlerActions.value;
      i := i + 1;
    }
    assert found[..i] == found;
    r := Ok(actions);
  }

  /** `register_example_handlers` */
  method RegisterExampleHandlers(registry: HandlerRegistry)
    requires registry.Valid()
    modifies registry
    ensures registry.Valid()
    ensures registry.handlers == RegisterAll(old(registry.handlers), ExampleHandlerList)
    ensures registry.mappings == old(registry.mappings)
  {
    var hs := ExampleHandlerList;
    var i := 0;
    while i < |hs|
      invariant 0 <= i <= |hs|
      invariant registry.Valid()
      invariant RegisterAll(registry.handlers, hs[i..]) == RegisterAll(old(registry.handlers), hs)
      invariant registry.mappings == old(registry.mappings)
    {
      assert hs[i..][1..] == hs[i + 1..];
      registry.Register(hs[i]);
      i := i + 1;
    }
  }
}
