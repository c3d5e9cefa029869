/** Settings defaults and the loading of alert mappings from a directory of
    YAML documents. */
module Config {
  import opened Wrappers
  import opened Dicts
  import opened HandlerBase

  /** The settings the modelled components read, with their defaults. */
  datatype Settings = Settings(
    instanceId: string,
    alertTtlHours: int,
    lockTimeoutSeconds: int,
    defaultTimeout: int,
    gitFilePerAlert: bool,
    gitFilePattern: string,
    crdNamespace: string,
    crdLabels: Dict<string>,
    useCrds: bool,
    gitEnabled: bool,
    gitRulesPath: string)

  /** The defaults; the instance id is the `HOSTNAME` variable when it is set. */
  function DefaultSettings(hostname: Option<string>): (s: Settings)
    ensures s.alertTtlHours == 24 && s.lockTimeoutSeconds == 300 && s.defaultTimeout == 300
    ensures s.instanceId == if hostname.Some? then hostname.value else "poundcake-0"
    ensures s.gitFilePerAlert && s.gitFilePattern == "{alert_name}.yaml"
    ensures s.crdNamespace == "monitoring" && s.crdLabels == []
    ensures s.useCrds && !s.gitEnabled && s.gitRulesPath == "prometheus/rules"
  {
    Settings(hostname.GetOr("poundcake-0"), 24, 300, 300, true, "{alert_name}.yaml", "monitoring", [],
      true, false, "prometheus/rules")
  }

  /** One parsed mapping document: its `alerts` entry, if it has one. An
      empty document parses as `{}` and so has none. */
  datatype MappingFile = MappingFile(alerts: Option<map<string, MappingConfig>>)

  /** The mappings directory: absent, or its `*.yaml` and its `*.yml` files
      in the order the directory listing yields them. */
  datatype MappingDir = Missing | Dir(yamlFiles: seq<MappingFile>, ymlFiles: seq<MappingFile>)

  function Entries(f: MappingFile): map<string, MappingConfig>
  {
    f.alerts.GetOr(map[])
  }

  /** The files folded in order, each later entry overwriting an earlier one. */
  function Merged(acc: map<string, MappingConfig>, files: seq<MappingFile>): map<string, MappingConfig>
    decreases |files|
  {
    if files == [] then acc
    else Merged(acc, files[..|files| - 1]) + Entries(files[|files| - 1])
  }

  /** What `load_all_mappings` returns. */
  function AllMappings(dir: MappingDir): map<string, MappingConfig>
  {
    match dir
    case Missing => map[]
    case Dir(yaml, yml) => Merged(Merged(map[], yaml), yml)
  }

  /** `for alert_name, config in file_mappings["alerts"].items(): mappings[alert_name] = config` */
  method MergeFile(mappings: map<string, MappingConfig>, f: MappingFile) returns (r: map<string, MappingConfig>)
    ensures r == mappings + Entries(f)
  {
    r := mappings;
    if f.alerts.Some? {
      r := AssignAll(mappings, f.alerts.value);
    }
  }

  /** Assigning every entry of `e` into `m`, one key at a time. */
  method AssignAll<V>(m: map<string, V>, e: map<string, V>) returns (r: map<string, V>)
    ensures r == m + e
  {
    r := m;
    var remaining := e.Keys;
    while remaining != {}
      invariant remaining <= e.Keys
      invariant r.Keys == m.Keys + (e.Keys - remaining)
      invariant forall k :: k in r ==> r[k] == if k in e && k !in remaining then e[k] else m[k]
      decreases |remaining|
    {
      var k :| k in remaining;
      r := r[k := e[k]];
      remaining := remaining - {k};
    }
  }

  /** One of the two glob loops. */
  method MergeFiles(mappings: map<string, MappingConfig>, files: seq<MappingFile>) returns (r: map<string, MappingConfig>)
    ensures r == Merged(mappings, files)
  {
    r := mappings;
    var i := 0;
    while i < |files|
      invariant 0 <= i <= |files|
      invariant r == Merged(mappings, files[..i])
    {
      assert files[..i + 1][..i] == files[..i];
      r := MergeFile(r, files[i]);
      i := i + 1;
    }
    assert files[..i] == files;
  }

  /** `load_all_mappings`: nothing for a missing directory, otherwise the
      `*.yaml` files and then the `*.yml` files. */
  method LoadAllMappings(dir: MappingDir) returns (mappings: map<string, MappingConfig>)
    ensures mappings == AllMappings(dir)
  {
    mappings := map[];
    if dir.Missing? {
      return;
    }
    mappings := MergeFiles(mappings, dir.yamlFiles);
    mappings := MergeFiles(mappings, dir.ymlFiles);
  }

  /** The names defined by some file of `files`. */
  ghost predicate DefinedIn(files: seq<MappingFile>, name: string)
  {
    exists i :: 0 <= i < |files| && name in Entries(files[i])
  }

  /** The merged names are the starting ones and those of every file with `alerts`. */
  lemma {:induction false} MergedKeys(acc: map<string, MappingConfig>, files: seq<MappingFile>, name: string)
    ensures name in Merged(acc, files) <==> name in acc || DefinedIn(files, name)
    decreases |files|
  {
    if files != [] {
      var init := files[..|files| - 1];
      MergedKeys(acc, init, name);
      if DefinedIn(files, name) && !(name in Entries(files[|files| - 1])) {
        var i :| 0 <= i < |files| && name in Entries(files[i]);
        assert init[i] == files[i];
      }
      if DefinedIn(init, name) {
        var i :| 0 <= i < |init| && name in Entries(init[i]);
        assert files[i] == init[i];
      }
    }
  }

  /** A name takes its configuration from the last file that defines it;
      the starting value survives only when no file defines the name. */
  lemma {:induction false} LastFileWins(acc: map<string, MappingConfig>, files: seq<MappingFile>, j: nat, name: string)
    requires j < |files| && name in Entries(files[j])
    requires forall l :: j < l < |files| ==> name !in Entries(files[l])
    ensures name in Merged(acc, files) && Merged(acc, files)[name] == Entries(files[j])[name]
    decreases |files|
  {
    if j < |files| - 1 {
      var init := files[..|files| - 1];
      assert init[j] == files[j];
      LastFileWins(acc, init, j, name);
    }
  }

  /** A name no file defines keeps its starting value. */
  lemma {:induction false} UndefinedKept(acc: map<string, MappingConfig>, files: seq<MappingFile>, name: string)
    requires !DefinedIn(files, name)
    ensures name in Merged(acc, files) <==> name in acc
    ensures name in acc ==> Merged(acc, files)[name] == acc[name]
    decreases |files|
  {
    if files != [] {
      var init := files[..|files| - 1];
      assert !DefinedIn(init, name) by {
        forall i | 0 <= i < |init| ensures name !in Entries(init[i]) { assert files[i] == init[i]; }
      }
      assert name !in Entries(files[|files| - 1]);
      UndefinedKept(acc, init, name);
    }
  }

  /** A name defined in some `*.yml` file takes that file's configuration
      whatever the `*.yaml` files say. */
  lemma YmlOverridesYaml(yaml: seq<MappingFile>, yml: seq<MappingFile>, j: nat, name: string)
    requires j < |yml| && name in Entries(yml[j])
    requires forall l :: j < l < |yml| ==> name !in Entries(yml[l])
    ensures name in AllMappings(Dir(yaml, yml)) && AllMappings(Dir(yaml, yml))[name] == Entries(yml[j])[name]
  {
    LastFileWins(Merged(map[], yaml), yml, j, name);
  }

  /** Only `*.yaml` files define a name: the last of them decides. */
  lemma YamlOnly(yaml: seq<MappingFile>, yml: seq<MappingFile>, j: nat, name: string)
    requires j < |yaml| && name in Entries(yaml[j])
    requires forall l :: j < l < |yaml| ==> name !in Entries(yaml[l])
    requires !DefinedIn(yml, name)
    ensures name in AllMappings(Dir(yaml, yml)) && AllMappings(Dir(yaml, yml))[name] == Entries(yaml[j])[name]
  {
    LastFileWins(map[], yaml, j, name);
    UndefinedKept(Merged(map[], yaml), yml, name);
  }

  /** The loaded names are exactly those defined by some file; none when the
      directory is missing. */
  lemma AllMappingsKeys(dir: MappingDir, name: string)
    ensures dir.Missing? ==> AllMappings(dir) == map[]
    ensures dir.Dir? ==> (name in AllMappings(dir) <==> DefinedIn(dir.yamlFiles, name) || DefinedIn(dir.ymlFiles, name))
  {
    if dir.Dir? {
      MergedKeys(map[], dir.yamlFiles, name);
      MergedKeys(Merged(map[], dir.yamlFiles), dir.ymlFiles, name);
    }
  }
}
