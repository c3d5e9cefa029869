/** Editing the alert mappings: the mappings directory is a sequence of named,
    already parsed YAML documents in directory-listing order, and the manager
    creates, updates, deletes, lists and imports entries of their `alerts`
    sections. */
module Management {
  import opened Wrappers
  import opened Strings
  import opened HandlerBase
  import opened Config

  /** One file of the mappings directory. */
  datatype DirEntry = DirEntry(name: string, doc: MappingFile)

  const YamlSuffix := ".yaml"
  const YmlSuffix := ".yml"

  /** The documents `glob("*<suffix>")` yields, in listing order. */
  function Globbed(files: seq<DirEntry>, suffix: string): (r: seq<MappingFile>)
    ensures |r| <= |files|
    decreases |files|
  {
    if files == [] then []
    else
      var last := files[|files| - 1];
      Globbed(files[..|files| - 1], suffix) + (if EndsWith(last.name, suffix) then [last.doc] else [])
  }

  /** The directory as `load_all_mappings` reads it. */
  function Listing(files: seq<DirEntry>): MappingDir
  {
    Dir(Globbed(files, YamlSuffix), Globbed(files, YmlSuffix))
  }

  /** What `list_mappings` returns. */
  function Loaded(files: seq<DirEntry>): map<string, MappingConfig>
  {
    AllMappings(Listing(files))
  }

  /** File `f` is matched by `*<suffix>` and defines `name`. */
  ghost predicate Defines(f: DirEntry, suffix: string, name: string)
  {
    EndsWith(f.name, suffix) && name in Entries(f.doc)
  }

  /** Two configuration tables say the same about `name`. */
  ghost predicate AgreeAt(m1: map<string, MappingConfig>, m2: map<string, MappingConfig>, name: string)
  {
    (name in m1 <==> name in m2) && (name in m1 ==> m1[name] == m2[name])
  }

  /** No file name matches both patterns. */
  lemma SuffixesExclusive(s: string)
    ensures !(EndsWith(s, YamlSuffix) && EndsWith(s, YmlSuffix))
  {
    if EndsWith(s, YamlSuffix) {
      assert s[|s| - 4] == 'y' by { assert s[|s| - 5..][1] == s[|s| - 4]; }
      assert s[|s| - 4..][0] != YmlSuffix[0];
    }
  }

  lemma GlobbedSnoc(files: seq<DirEntry>, f: DirEntry, suffix: string)
    ensures EndsWith(f.name, suffix) ==> Globbed(files + [f], suffix) == Globbed(files, suffix) + [f.doc]
    ensures !EndsWith(f.name, suffix) ==> Globbed(files + [f], suffix) == Globbed(files, suffix)
  {
    assert (files + [f])[..|files|] == files;
    assert Globbed(files, suffix) + [] == Globbed(files, suffix);
  }

  lemma MergedSnoc(acc: map<string, MappingConfig>, docs: seq<MappingFile>, d: MappingFile)
    ensures Merged(acc, docs + [d]) == Merged(acc, docs) + Entries(d)
  {
    assert (docs + [d])[..|docs|] == docs;
  }

  /** A name is in the fold over the matched files exactly when it was there
      at the start or some matched file defines it. */
  lemma {:induction false} GlobbedKeys(acc: map<string, MappingConfig>, files: seq<DirEntry>, suffix: string, name: string)
    ensures name in Merged(acc, Globbed(files, suffix))
      <==> name in acc || exists j :: 0 <= j < |files| && Defines(files[j], suffix, name)
    decreases |files|
  {
    if files != [] {
      var init := files[..|files| - 1];
      var last := files[|files| - 1];
      assert files == init + [last];
      GlobbedSnoc(init, last, suffix);
      if EndsWith(last.name, suffix) {
        MergedSnoc(acc, Globbed(init, suffix), last.doc);
      }
      GlobbedKeys(acc, init, suffix, name);
      if exists j :: 0 <= j < |files| && Defines(files[j], suffix, name) {
        var j :| 0 <= j < |files| && Defines(files[j], suffix, name);
        if j < |init| {
          assert Defines(init[j], suffix, name);
        }
      }
      if exists j :: 0 <= j < |init| && Defines(init[j], suffix, name) {
        var j :| 0 <= j < |init| && Defines(init[j], suffix, name);
        assert Defines(files[j], suffix, name);
      }
    }
  }

  /** When no matched file defines `name`, the fold keeps what it started with. */
  lemma {:induction false} GlobbedFrame(acc: map<string, MappingConfig>, files: seq<DirEntry>, suffix: string, name: string)
    requires forall j :: 0 <= j < |files| ==> !Defines(files[j], suffix, name)
    ensures AgreeAt(Merged(acc, Globbed(files, suffix)), acc, name)
    decreases |files|
  {
    if files != [] {
      var init := files[..|files| - 1];
      var last := files[|files| - 1];
      assert files == init + [last];
      GlobbedSnoc(init, last, suffix);
      if EndsWith(last.name, suffix) {
        MergedSnoc(acc, Globbed(init, suffix), last.doc);
      }
      assert forall j :: 0 <= j < |init| ==> init[j] == files[j];
      GlobbedFrame(acc, init, suffix, name);
    }
  }

  /** The last matched file that defines `name` decides its configuration. */
  lemma {:induction false} GlobbedLastWins(acc: map<string, MappingConfig>, files: seq<DirEntry>, suffix: string, i: nat, name: string)
    requires i < |files| && Defines(files[i], suffix, name)
    requires forall j :: i < j < |files| ==> !Defines(files[j], suffix, name)
    ensures name in Merged(acc, Globbed(files, suffix))
    ensures Merged(acc, Globbed(files, suffix))[name] == Entries(files[i].doc)[name]
    decreases |files|
  {
    var init := files[..|files| - 1];
    var last := files[|files| - 1];
    assert files == init + [last];
    GlobbedSnoc(init, last, suffix);
    if EndsWith(last.name, suffix) {
      MergedSnoc(acc, Globbed(init, suffix), last.doc);
    }
    if i < |init| {
      assert init[i] == files[i];
      assert forall j :: i < j < |init| ==> init[j] == files[j];
      GlobbedLastWins(acc, init, suffix, i, name);
    }
  }

  /** Tables that agree on `name`, folded over directories whose files have
      the same names and agree on `name`, still agree on it. */
  lemma {:induction false} GlobbedAgree(acc1: map<string, MappingConfig>, acc2: map<string, MappingConfig>,
                                        f1: seq<DirEntry>, f2: seq<DirEntry>, suffix: string, name: string)
    requires AgreeAt(acc1, acc2, name) && |f1| == |f2|
    requires forall k :: 0 <= k < |f1| ==> f1[k].name == f2[k].name && AgreeAt(Entries(f1[k].doc), Entries(f2[k].doc), name)
    ensures AgreeAt(Merged(acc1, Globbed(f1, suffix)), Merged(acc2, Globbed(f2, suffix)), name)
    decreases |f1|
  {
    if f1 != [] {
      var n := |f1| - 1;
      var i1, i2 := f1[..n], f2[..n];
      assert f1 == i1 + [f1[n]] && f2 == i2 + [f2[n]];
      GlobbedSnoc(i1, f1[n], suffix);
      GlobbedSnoc(i2, f2[n], suffix);
      if EndsWith(f1[n].name, suffix) {
        MergedSnoc(acc1, Globbed(i1, suffix), f1[n].doc);
        MergedSnoc(acc2, Globbed(i2, suffix), f2[n].doc);
      }
      assert forall k :: 0 <= k < n ==> i1[k] == f1[k] && i2[k] == f2[k];
      GlobbedAgree(acc1, acc2, i1, i2, suffix, name);
    }
  }

  /** The loaded mappings agree on `name` for directories that agree on it file by file. */
  lemma LoadedAgree(f1: seq<DirEntry>, f2: seq<DirEntry>, name: string)
    requires |f1| == |f2|
    requires forall k :: 0 <= k < |f1| ==> f1[k].name == f2[k].name && AgreeAt(Entries(f1[k].doc), Entries(f2[k].doc), name)
    ensures AgreeAt(Loaded(f1), Loaded(f2), name)
  {
    GlobbedAgree(map[], map[], f1, f2, YamlSuffix, name);
    GlobbedAgree(Merged(map[], Globbed(f1, YamlSuffix)), Merged(map[], Globbed(f2, YamlSuffix)), f1, f2, YmlSuffix, name);
  }

  lemma GlobbedSnocAgree(acc1: map<string, MappingConfig>, acc2: map<string, MappingConfig>,
                         files: seq<DirEntry>, f: DirEntry, suffix: string, name: string)
    requires AgreeAt(acc1, acc2, name) && name !in Entries(f.doc)
    ensures AgreeAt(Merged(acc1, Globbed(files + [f], suffix)), Merged(acc2, Globbed(files, suffix)), name)
  {
    GlobbedAgree(acc1, acc2, files, files, suffix, name);
    GlobbedSnoc(files, f, suffix);
    if EndsWith(f.name, suffix) {
      MergedSnoc(acc1, Globbed(files, suffix), f.doc);
    }
  }

  /** A new file that does not define `name` changes nothing about it. */
  lemma LoadedSnocAgree(files: seq<DirEntry>, f: DirEntry, name: string)
    requires name !in Entries(f.doc)
    ensures AgreeAt(Loaded(files + [f]), Loaded(files), name)
  {
    GlobbedSnocAgree(map[], map[], files, f, YamlSuffix, name);
    GlobbedSnocAgree(Merged(map[], Globbed(files + [f], YamlSuffix)), Merged(map[], Globbed(files, YamlSuffix)),
      files, f, YmlSuffix, name);
  }

  /** A name defined by no matched file is not loaded. */
  lemma LoadedAbsent(files: seq<DirEntry>, name: string)
    requires forall j :: 0 <= j < |files| ==> !Defines(files[j], YamlSuffix, name) && !Defines(files[j], YmlSuffix, name)
    ensures name !in Loaded(files)
  {
    GlobbedKeys(map[], files, YamlSuffix, name);
    GlobbedKeys(Merged(map[], Globbed(files, YamlSuffix)), files, YmlSuffix, name);
  }

  /** The names `list_mappings` shows are those some `*.yaml` or `*.yml` file defines. */
  lemma LoadedKeys(files: seq<DirEntry>, name: string)
    ensures name in Loaded(files) <==>
      exists j :: 0 <= j < |files| && (Defines(files[j], YamlSuffix, name) || Defines(files[j], YmlSuffix, name))
  {
    GlobbedKeys(map[], files, YamlSuffix, name);
    GlobbedKeys(Merged(map[], Globbed(files, YamlSuffix)), files, YmlSuffix, name);
  }

  /** A name only one matched file defines is loaded with that file's configuration. */
  lemma LoadedSole(files: seq<DirEntry>, i: nat, name: string)
    requires i < |files| && (Defines(files[i], YamlSuffix, name) || Defines(files[i], YmlSuffix, name))
    requires forall j :: 0 <= j < |files| && j != i ==> !Defines(files[j], YamlSuffix, name) && !Defines(files[j], YmlSuffix, name)
    ensures name in Loaded(files) && Loaded(files)[name] == Entries(files[i].doc)[name]
  {
    SuffixesExclusive(files[i].name);
    var inner := Merged(map[], Globbed(files, YamlSuffix));
    if Defines(files[i], YamlSuffix, name) {
      GlobbedLastWins(map[], files, YamlSuffix, i, name);
      GlobbedFrame(inner, files, YmlSuffix, name);
    } else {
      GlobbedLastWins(inner, files, YmlSuffix, i, name);
    }
  }

  /** The first file named `filename`, if the directory has one. */
  function FindFile(files: seq<DirEntry>, filename: string): (r: Option<nat>)
    ensures r.Some? ==> r.value < |files| && files[r.value].name == filename
    ensures r.Some? ==> forall j :: 0 <= j < r.value ==> files[j].name != filename
    ensures r.None? ==> forall j :: 0 <= j < |files| ==> files[j].name != filename
  {
    if files == [] then None
    else if files[0].name == filename then Some(0)
    else match FindFile(files[1..], filename)
      case None => None
      case Some(i) => Some(i + 1)
  }

  /** The first `*.yaml` file that defines `name`, as `update_mapping` and
      `delete_mapping` search for it. */
  function FirstYamlDefiner(files: seq<DirEntry>, name: string): (r: Option<nat>)
    ensures r.Some? ==> r.value < |files| && Defines(files[r.value], YamlSuffix, name)
    ensures r.Some? ==> forall j :: 0 <= j < r.value ==> !Defines(files[j], YamlSuffix, name)
    ensures r.None? ==> forall j :: 0 <= j < |files| ==> !Defines(files[j], YamlSuffix, name)
  {
    if files == [] then None
    else if EndsWith(files[0].name, YamlSuffix) && name in Entries(files[0].doc) then Some(0)
    else match FirstYamlDefiner(files[1..], name)
      case None => None
      case Some(i) => Some(i + 1)
  }

  /** The document of `f` with `name` set to `config` under `alerts`. */
  function WithEntry(f: DirEntry, name: string, config: MappingConfig): DirEntry
  {
    f.(doc := MappingFile(Some(Entries(f.doc)[name := config])))
  }

  /** The document of `f` with `name` removed from `alerts`. */
  function WithoutEntry(f: DirEntry, name: string): DirEntry
  {
    f.(doc := MappingFile(Some(Entries(f.doc) - {name})))
  }

  /** The directory after `create_mapping(name, config, filename)`, and whether it created the entry. */
  function Create(files: seq<DirEntry>, name: string, config: MappingConfig, filename: string): (bool, seq<DirEntry>)
  {
    var at := FindFile(files, filename);
    var target := if at.Some? then files[at.value] else DirEntry(filename, MappingFile(None));
    if name in Entries(target.doc) then (false, files)
    else
      var written := WithEntry(target, name, config);
      (true, if at.Some? then files[at.value := written] else files + [written])
  }

  /** The directory after `update_mapping(name, config)`. */
  function Update(files: seq<DirEntry>, name: string, config: MappingConfig): seq<DirEntry>
  {
    match FirstYamlDefiner(files, name)
    case None => files
    case Some(i) => files[i := WithEntry(files[i], name, config)]
  }

  /** The directory after `delete_mapping(name)`. */
  function Delete(files: seq<DirEntry>, name: string): seq<DirEntry>
  {
    match FirstYamlDefiner(files, name)
    case None => files
    case Some(i) => files[i := WithoutEntry(files[i], name)]
  }

  /** A directory never holds two files of the same name. */
  ghost predicate DistinctNames(files: seq<DirEntry>)
  {
    forall i, j :: 0 <= i < j < |files| ==> files[i].name != files[j].name
  }

  /** Only the target file is consulted: the entry is created unless that
      file already defines the name; then that file, created if need be,
      gains the entry and no other file changes. */
  lemma CreateEffect(files: seq<DirEntry>, name: string, config: MappingConfig, filename: string)
    requires DistinctNames(files)
    ensures var (created, after) := Create(files, name, config, filename);
      && (created <==> forall j :: 0 <= j < |files| && files[j].name == filename ==> name !in Entries(files[j].doc))
      && (!created ==> after == files)
      && (created ==> DistinctNames(after) && |files| <= |after| <= |files| + 1)
      && (created ==> forall j :: 0 <= j < |files| && files[j].name != filename ==> after[j] == files[j])
      && (created ==> forall j :: 0 <= j < |after| && after[j].name == filename ==>
            Entries(after[j].doc) == (if j < |files| then Entries(files[j].doc) else map[])[name := config])
  {
    var at := FindFile(files, filename);
    if at.Some? {
      forall j | 0 <= j < |files| && files[j].name == filename ensures j == at.value {
      }
    }
  }

  /** The paths a mapping is read from: `*.yaml` and `*.yml` files. */
  predicate IsMappingFile(filename: string)
  {
    EndsWith(filename, YamlSuffix) || EndsWith(filename, YmlSuffix)
  }

  /** A name nobody defines, created in a mapping file, is then listed with
      the new configuration. */
  lemma CreateThenLoaded(files: seq<DirEntry>, name: string, config: MappingConfig, filename: string)
    requires name !in Loaded(files) && IsMappingFile(filename)
    ensures Create(files, name, config, filename).0
    ensures var after := Create(files, name, config, filename).1;
      name in Loaded(after) && Loaded(after)[name] == config
  {
    LoadedKeys(files, name);
    assert forall j :: 0 <= j < |files| ==> !Defines(files[j], YamlSuffix, name) && !Defines(files[j], YmlSuffix, name);
    var at := FindFile(files, filename);
    var target := if at.Some? then files[at.value] else DirEntry(filename, MappingFile(None));
    assert target.name == filename && name !in Entries(target.doc);
    var written := WithEntry(target, name, config);
    var after := if at.Some? then files[at.value := written] else files + [written];
    assert Create(files, name, config, filename) == (true, after);
    var i := if at.Some? then at.value else |files|;
    assert after[i] == written;
    assert forall j :: 0 <= j < |after| && j != i ==> after[j] == files[j];
    LoadedSole(after, i, name);
  }

  /** Creating one name leaves every other name's listed configuration alone. */
  lemma CreateKeepsOthers(files: seq<DirEntry>, name: string, config: MappingConfig, filename: string, other: string)
    requires other != name
    ensures AgreeAt(Loaded(Create(files, name, config, filename).1), Loaded(files), other)
  {
    var at := FindFile(files, filename);
    var (created, after) := Create(files, name, config, filename);
    if created {
      if at.Some? {
        LoadedAgree(after, files, other);
      } else {
        LoadedSnocAgree(files, WithEntry(DirEntry(filename, MappingFile(None)), name, config), other);
      }
    }
  }

  /** Updating succeeds exactly when some `*.yaml` file defines the name;
      `*.yml` files are never searched. */
  lemma UpdateFinds(files: seq<DirEntry>, name: string, config: MappingConfig)
    ensures Update(files, name, config) != files ==> exists j :: 0 <= j < |files| && Defines(files[j], YamlSuffix, name)
    ensures (forall j :: 0 <= j < |files| ==> !Defines(files[j], YamlSuffix, name)) ==> Update(files, name, config) == files
  {
  }

  /** A name defined by a single `*.yaml` file is listed with the new
      configuration after the update. */
  lemma UpdateThenLoaded(files: seq<DirEntry>, i: nat, name: string, config: MappingConfig)
    requires i < |files| && Defines(files[i], YamlSuffix, name)
    requires forall j :: 0 <= j < |files| && j != i ==> !Defines(files[j], YamlSuffix, name) && !Defines(files[j], YmlSuffix, name)
    ensures FirstYamlDefiner(files, name) == Some(i)
    ensures name in Loaded(Update(files, name, config)) && Loaded(Update(files, name, config))[name] == config
  {
    var after := Update(files, name, config);
    assert FirstYamlDefiner(files, name) == Some(i);
    assert Defines(after[i], YamlSuffix, name);
    LoadedSole(after, i, name);
  }

  /** Updating one name leaves every other name's listed configuration alone. */
  lemma UpdateKeepsOthers(files: seq<DirEntry>, name: string, config: MappingConfig, other: string)
    requires other != name
    ensures AgreeAt(Loaded(Update(files, name, config)), Loaded(files), other)
  {
    LoadedAgree(Update(files, name, config), files, other);
  }

  /** An update never adds or removes a listed name. */
  lemma UpdateKeepsNames(files: seq<DirEntry>, name: string, config: MappingConfig)
    ensures name in Loaded(Update(files, name, config)) <==> name in Loaded(files)
  {
    var after := Update(files, name, config);
    LoadedKeys(files, name);
    LoadedKeys(after, name);
    match FirstYamlDefiner(files, name)
    case None =>
    case Some(i) =>
      assert Defines(after[i], YamlSuffix, name);
  }

  /** A name defined by a single `*.yaml` file is gone after the delete. */
  lemma DeleteThenGone(files: seq<DirEntry>, i: nat, name: string)
    requires i < |files| && Defines(files[i], YamlSuffix, name)
    requires forall j :: 0 <= j < |files| && j != i ==> !Defines(files[j], YamlSuffix, name) && !Defines(files[j], YmlSuffix, name)
    ensures FirstYamlDefiner(files, name) == Some(i)
    ensures name !in Loaded(Delete(files, name))
  {
    var after := Delete(files, name);
    assert FirstYamlDefiner(files, name) == Some(i);
    assert forall j :: 0 <= j < |after| ==> !Defines(after[j], YamlSuffix, name) && !Defines(after[j], YmlSuffix, name) by {
      forall j | 0 <= j < |after| ensures !Defines(after[j], YamlSuffix, name) && !Defines(after[j], YmlSuffix, name) {
        if j != i { assert after[j] == files[j]; }
      }
    }
    LoadedAbsent(after, name);
  }

  /** Deleting one name leaves every other name's listed configuration alone. */
  lemma DeleteKeepsOthers(files: seq<DirEntry>, name: string, other: string)
    requires other != name
    ensures AgreeAt(Loaded(Delete(files, name)), Loaded(files), other)
  {
    LoadedAgree(Delete(files, name), files, other);
  }

  /** The outcome of parsing the text given to `import_mappings`: invalid
      YAML, or a document with or without an `alerts` section (an empty
      document has none). */
  datatype ImportInput = InvalidYaml(message: string) | Document(alerts: Option<seq<(string, MappingConfig)>>)

  /** The summary `import_mappings` returns. */
  datatype ImportSummary =
    | ImportFailed(error: string, imported: nat)
    | ImportDone(imported: nat, skipped: nat, total: nat)

  /** One entry of an import: skipped, updated where it is found, or created in `filename`. */
  function ImportStep(files: seq<DirEntry>, existing: map<string, MappingConfig>, e: (string, MappingConfig),
                      filename: string, overwrite: bool): seq<DirEntry>
  {
    if e.0 in existing && !overwrite then files
    else if e.0 in existing then Update(files, e.0, e.1)
    else Create(files, e.0, e.1, filename).1
  }

  /** The directory after importing `entries` in order. */
  function Imported(files: seq<DirEntry>, existing: map<string, MappingConfig>, entries: seq<(string, MappingConfig)>,
                    filename: string, overwrite: bool): seq<DirEntry>
    decreases |entries|
  {
    if entries == [] then files
    else ImportStep(Imported(files, existing, entries[..|entries| - 1], filename, overwrite),
                    existing, entries[|entries| - 1], filename, overwrite)
  }

  /** How many of `entries` are imported rather than skipped. */
  function ImportCount(existing: map<string, MappingConfig>, entries: seq<(string, MappingConfig)>, overwrite: bool): (n: nat)
    ensures n <= |entries|
    decreases |entries|
  {
    if entries == [] then 0
    else
      var e := entries[|entries| - 1];
      ImportCount(existing, entries[..|entries| - 1], overwrite) + (if e.0 in existing && !overwrite then 0 else 1)
  }

  /** With `overwrite`, nothing is skipped. */
  lemma {:induction false} OverwriteImportsAll(existing: map<string, MappingConfig>, entries: seq<(string, MappingConfig)>)
    ensures ImportCount(existing, entries, true) == |entries|
    decreases |entries|
  {
    if entries != [] {
      OverwriteImportsAll(existing, entries[..|entries| - 1]);
    }
  }

  /** Without `overwrite`, exactly the entries whose names already exist are skipped. */
  lemma {:induction false} SkipsExisting(existing: map<string, MappingConfig>, entries: seq<(string, MappingConfig)>)
    ensures (forall k :: 0 <= k < |entries| ==> entries[k].0 in existing) ==> ImportCount(existing, entries, false) == 0
    ensures (forall k :: 0 <= k < |entries| ==> entries[k].0 !in existing) ==> ImportCount(existing, entries, false) == |entries|
    decreases |entries|
  {
    if entries != [] {
      var init := entries[..|entries| - 1];
      assert forall k :: 0 <= k < |init| ==> init[k] == entries[k];
      SkipsExisting(existing, init);
    }
  }

  /** Entries for other names do not change what is listed for `name`. */
  lemma {:induction false} ImportedAgree(files: seq<DirEntry>, existing: map<string, MappingConfig>,
                                         entries: seq<(string, MappingConfig)>, filename: string, overwrite: bool, name: string)
    requires forall k :: 0 <= k < |entries| ==> entries[k].0 != name
    ensures AgreeAt(Loaded(Imported(files, existing, entries, filename, overwrite)), Loaded(files), name)
    decreases |entries|
  {
    if entries != [] {
      var init := entries[..|entries| - 1];
      var e := entries[|entries| - 1];
      assert forall k :: 0 <= k < |init| ==> init[k] == entries[k];
      ImportedAgree(files, existing, init, filename, overwrite, name);
      var mid := Imported(files, existing, init, filename, overwrite);
      if !(e.0 in existing && !overwrite) {
        if e.0 in existing { UpdateKeepsOthers(mid, e.0, e.1, name); }
        else { CreateKeepsOthers(mid, e.0, e.1, filename, name); }
      }
    }
  }

  lemma ImportedPrefix(files: seq<DirEntry>, existing: map<string, MappingConfig>, entries: seq<(string, MappingConfig)>,
                       i: nat, filename: string, overwrite: bool)
    requires i < |entries|
    ensures Imported(files, existing, entries[..i + 1], filename, overwrite)
         == ImportStep(Imported(files, existing, entries[..i], filename, overwrite), existing, entries[i], filename, overwrite)
    ensures ImportCount(existing, entries[..i + 1], overwrite)
         == ImportCount(existing, entries[..i], overwrite) + (if entries[i].0 in existing && !overwrite then 0 else 1)
  {
    var t := entries[..i + 1];
    assert t[..i] == entries[..i] && t[i] == entries[i];
  }

  /** A new name imported into a mapping file is listed afterwards with the
      imported configuration, whatever the other entries do. */
  lemma ImportNewName(files: seq<DirEntry>, entries: seq<(string, MappingConfig)>, k: nat, filename: string, overwrite: bool)
    requires k < |entries| && entries[k].0 !in Loaded(files) && IsMappingFile(filename)
    requires forall j :: 0 <= j < |entries| && j != k ==> entries[j].0 != entries[k].0
    ensures var after := Imported(files, Loaded(files), entries, filename, overwrite);
      entries[k].0 in Loaded(after) && Loaded(after)[entries[k].0] == entries[k].1
  {
    var existing := Loaded(files);
    var (name, config) := entries[k];
    var before := entries[..k];
    assert forall j :: 0 <= j < |before| ==> before[j] == entries[j];
    ImportedAgree(files, existing, before, filename, overwrite, name);
    var mid := Imported(files, existing, before, filename, overwrite);
    ImportedPrefix(files, existing, entries, k, filename, overwrite);
    CreateThenLoaded(mid, name, config, filename);
    var done := Imported(files, existing, entries[..k + 1], filename, overwrite);
    ImportedTail(done, files, existing, entries, k + 1, filename, overwrite, name);
  }

  /** The entries after position `from` leave `name` as it was, when none of them is `name`. */
  lemma {:induction false} ImportedTail(done: seq<DirEntry>, files: seq<DirEntry>, existing: map<string, MappingConfig>,
                                        entries: seq<(string, MappingConfig)>, from: nat, filename: string, overwrite: bool, name: string)
    requires from <= |entries| && done == Imported(files, existing, entries[..from], filename, overwrite)
    requires forall j :: from <= j < |entries| ==> entries[j].0 != name
    ensures AgreeAt(Loaded(Imported(files, existing, entries, filename, overwrite)), Loaded(done), name)
    decreases |entries| - from
  {
    if from == |entries| {
      assert entries[..from] == entries;
    } else {
      ImportedPrefix(files, existing, entries, from, filename, overwrite);
      var next := Imported(files, existing, entries[..from + 1], filename, overwrite);
      var e := entries[from];
      if !(e.0 in existing && !overwrite) {
        if e.0 in existing { UpdateKeepsOthers(done, e.0, e.1, name); }
        else { CreateKeepsOthers(done, e.0, e.1, filename, name); }
      }
      ImportedTail(next, files, existing, entries, from + 1, filename, overwrite, name);
    }
  }

  /** The mappings directory the manager edits (`settings.mappings_path`). */
  class MappingManager {
    var files: seq<DirEntry>

    constructor (files: seq<DirEntry>)
      ensures this.files == files
    {
      this.files := files;
    }

    /** `list_mappings` */
    method ListMappings() returns (r: map<string, MappingConfig>)
      ensures r == Loaded(files)
    {
      r := LoadAllMappings(Listing(files));
    }

    /** `get_mapping`: the listed configuration of `name`, if any. */
    method GetMapping(name: string) returns (r: Option<MappingConfig>)
      ensures r.Some? <==> name in Loaded(files)
      ensures r.Some? ==> r.value == Loaded(files)[name]
    {
      var mappings := ListMappings();
      r := if name in mappings then Some(mappings[name]) else None;
    }

    /** `export_mappings`: every listed mapping under one `alerts` section. */
    method ExportMappings() returns (r: MappingFile)
      ensures r.alerts == Some(Loaded(files))
    {
      var mappings := ListMappings();
      r := MappingFile(Some(mappings));
    }

    /** `create_mapping` */
    method CreateMapping(name: string, config: MappingConfig, filename: string) returns (created: bool)
      modifies this
      ensures (created, files) == Create(old(files), name, config, filename)
    {
      var at := FindFile(files, filename);
      var data := if at.Some? then files[at.value].doc else MappingFile(None);
      var alerts := Entries(data);
      if name in alerts {
        return false;
      }
      alerts := alerts[name := config];
      var written := DirEntry(filename, MappingFile(Some(alerts)));
      if at.Some? {
        files := files[at.value := written];
      } else {
        files := files + [written];
      }
      created := true;
    }

    /** `update_mapping`: rewrites the entry in the first `*.yaml` file that has it. */
    method UpdateMapping(name: string, config: MappingConfig) returns (updated: bool)
      modifies this
      ensures updated == FirstYamlDefiner(old(files), name).Some?
      ensures files == Update(old(files), name, config)
    {
      var i := 0;
      while i < |files|
        invariant 0 <= i <= |files| && files == old(files)
        invariant forall j :: 0 <= j < i ==> !Defines(files[j], YamlSuffix, name)
      {
        if EndsWith(files[i].name, YamlSuffix) && name in Entries(files[i].doc) {
          FirstDefinerAt(files, i, name);
          files := files[i := WithEntry(files[i], name, config)];
          return true;
        }
        i := i + 1;
      }
      updated := false;
    }

    /** `delete_mapping`: removes the entry from the first `*.yaml` file that has it. */
    method DeleteMapping(name: string) returns (deleted: bool)
      modifies this
      ensures deleted == FirstYamlDefiner(old(files), name).Some?
      ensures files == Delete(old(files), name)
    {
      var i := 0;
      while i < |files|
        invariant 0 <= i <= |files| && files == old(files)
        invariant forall j :: 0 <= j < i ==> !Defines(files[j], YamlSuffix, name)
      {
        if EndsWith(files[i].name, YamlSuffix) && name in Entries(files[i].doc) {
          FirstDefinerAt(files, i, name);
          files := files[i := WithoutEntry(files[i], name)];
          return true;
        }
        i := i + 1;
      }
      deleted := false;
    }

    /** `import_mappings`: each entry is skipped when it exists and
        `overwrite` is off, updated when it exists, created otherwise;
        existence is judged once, before the first entry. */
    method ImportMappings(input: ImportInput, filename: string, overwrite: bool) returns (summary: ImportSummary)
      modifies this
      ensures input.InvalidYaml? ==> summary == ImportFailed("Invalid YAML: " + input.message, 0) && files == old(files)
      ensures input.Document? && input.alerts.None? ==> summary == ImportFailed("No alerts found in YAML", 0) && files == old(files)
      ensures input.Document? && input.alerts.Some? ==>
        var entries := input.alerts.value;
        var n := ImportCount(Loaded(old(files)), entries, overwrite);
        && summary == ImportDone(n, |entries| - n, |entries|)
        && files == Imported(old(files), Loaded(old(files)), entries, filename, overwrite)
    {
      if input.InvalidYaml? {
        return ImportFailed("Invalid YAML: " + input.message, 0);
      }
      if input.alerts.None? {
        return ImportFailed("No alerts found in YAML", 0);
      }
      var entries := input.alerts.value;
      var existing := ListMappings();
      ghost var files0 := files;
      var imported, skipped := 0, 0;
      var i := 0;
      while i < |entries|
        invariant 0 <= i <= |entries|
        invariant files == Imported(files0, existing, entries[..i], filename, overwrite)
        invariant imported == ImportCount(existing, entries[..i], overwrite) && imported + skipped == i
      {
        ImportedPrefix(files0, existing, entries, i, filename, overwrite);
        var (name, config) := entries[i];
        if name in existing && !overwrite {
          skipped := skipped + 1;
        } else {
          if name in existing {
            var _ := UpdateMapping(name, config);
          } else {
            var _ := CreateMapping(name, config, filename);
          }
          imported := imported + 1;
        }
        i := i + 1;
      }
      assert entries[..i] == entries;
      summary := ImportDone(imported, skipped, |entries|);
    }
  }

  /** A `*.yaml` file defining `name` with none before it is the first definer. */
  lemma FirstDefinerAt(files: seq<DirEntry>, i: nat, name: string)
    requires i < |files| && Defines(files[i], YamlSuffix, name)
    requires forall j :: 0 <= j < i ==> !Defines(files[j], YamlSuffix, name)
    ensures FirstYamlDefiner(files, name) == Some(i)
  {
  }
}
