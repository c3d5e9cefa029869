/** The rule manager: an edit of a Prometheus alert rule goes to the
    PrometheusRule object (when that mode is on) and to the rule files of a
    Git repository (when that mode is on), and the two results are combined
    into one. The Git side's calls (clone or pull, the checked-out files,
    commit and push, the pull request) are answered by an oracle. */
module RuleManager {
  import opened Wrappers
  import opened Strings
  import opened Values
  import opened Config
  import opened RuleGroups
  import opened PrometheusCrd

  // ---- File names ----

  /** `file_name.replace(".yaml", "").replace(".yml", "")`: every occurrence
      goes, not only a suffix. */
  function CrdNameOf(fileName: string): string
  {
    ReplaceAll(ReplaceAll(fileName, ".yaml", ""), ".yml", "")
  }

  /** A plain name keeps itself and loses either extension. */
  lemma CrdNameOfPlain(n: string)
    requires '.' !in n
    ensures CrdNameOf(n) == n
    ensures CrdNameOf(n + ".yaml") == n
    ensures CrdNameOf(n + ".yml") == n
  {
    ReplaceSkipsPrefix(n, [], ".yaml", "");
    ReplaceSkipsPrefix(n, [], ".yml", "");
    assert n + [] == n;
    assert ReplaceAll([], ".yaml", "") == [] && ReplaceAll([], ".yml", "") == [];
    ReplaceSkipsPrefix(n, ".yaml", ".yaml", "");
    assert ReplaceAll(".yaml", ".yaml", "") == "" + ReplaceAll([], ".yaml", "");
    ReplaceSkipsPrefix(n, ".yml", ".yaml", "");
    ReplaceAbsentShort(".yml", ".yaml", "");
    ReplaceSkipsPrefix(n, ".yml", ".yml", "");
    assert ReplaceAll(".yml", ".yml", "") == "" + ReplaceAll([], ".yml", "");
  }

  /** The extension is removed wherever it occurs in the name, not only at its end. */
  lemma CrdNameOfInterior(a: string, b: string)
    requires '.' !in a && '.' !in b
    ensures CrdNameOf(a + ".yaml" + b) == a + b
  {
    var t := ".yaml" + b;
    assert a + ".yaml" + b == a + t;
    ReplaceSkipsPrefix(a, t, ".yaml", "");
    assert t[..5] == ".yaml" && t[5..] == b;
    ReplaceSkipsPrefix(b, [], ".yaml", "");
    assert b + [] == b && a + [] == a;
    assert ReplaceAll(t, ".yaml", "") == ReplaceAll(b, ".yaml", "");
    assert '.' !in a + b;
    ReplaceSkipsPrefix(a + b, [], ".yml", "");
    assert (a + b) + [] == a + b;
  }

  /** `{{`, `}}` and the fields `{alert_name}`, `{group_name}` and
      `{crd_name}` of `str.format`; other fields raise. */
  function FieldValue(name: string, alert: string, group: string, crd: string): Result<string>
  {
    if name == "alert_name" then Ok(alert)
    else if name == "group_name" then Ok(group)
    else if name == "crd_name" then Ok(crd)
    else if name == "" then Err("Replacement index 0 out of range for positional args tuple")
    else if '{' in name then Err("unexpected '{' in field name")
    else Err("'" + name + "'")
  }

  /** The first `}` in `p` at or after `i`. */
  function CloseAt(p: string, i: nat): (r: Option<nat>)
    requires i <= |p|
    ensures r.Some? ==> i <= r.value < |p| && p[r.value] == '}'
    ensures r.Some? ==> forall k :: i <= k < r.value ==> p[k] != '}'
    ensures r.None? ==> forall k :: i <= k < |p| ==> p[k] != '}'
    decreases |p| - i
  {
    if i == |p| then None
    else if p[i] == '}' then Some(i)
    else CloseAt(p, i + 1)
  }

  function Prepend(s: string, r: Result<string>): Result<string>
  {
    match r
    case Ok(t) => Ok(s + t)
    case Err(e) => Err(e)
  }

  /** `git_file_pattern.format(alert_name=..., group_name=..., crd_name=...)`. */
  function FormatPattern(p: string, alert: string, group: string, crd: string): Result<string>
    decreases |p|
  {
    if p == [] then Ok([])
    else if p[0] == '{' then
      if |p| > 1 && p[1] == '{' then Prepend("{", FormatPattern(p[2..], alert, group, crd))
      else
        match CloseAt(p, 1)
        case None => Err(if |p| == 1 then "Single '{' encountered in format string" else "expected '}' before end of string")
        case Some(j) =>
          match FieldValue(p[1..j], alert, group, crd)
          case Err(e) => Err(e)
          case Ok(v) => Prepend(v, FormatPattern(p[j + 1..], alert, group, crd))
    else if p[0] == '}' then
      if |p| > 1 && p[1] == '}' then Prepend("}", FormatPattern(p[2..], alert, group, crd))
      else Err("Single '}' encountered in format string")
    else Prepend([p[0]], FormatPattern(p[1..], alert, group, crd))
  }

  /** Text without braces is copied. */
  lemma {:induction false} FormatLiteral(l: string, p: string, alert: string, group: string, crd: string)
    requires '{' !in l && '}' !in l
    ensures FormatPattern(l + p, alert, group, crd) == Prepend(l, FormatPattern(p, alert, group, crd))
    decreases |l|
  {
    if l == [] {
      assert l + p == p;
      match FormatPattern(p, alert, group, crd)
      case Ok(t) => assert l + t == t;
      case Err(_) =>
    } else {
      var s := l + p;
      assert s[0] == l[0] && s[1..] == l[1..] + p;
      FormatLiteral(l[1..], p, alert, group, crd);
      match FormatPattern(p, alert, group, crd)
      case Ok(t) => assert [l[0]] + (l[1..] + t) == l + t;
      case Err(_) =>
    }
  }

  /** A named field is replaced by its value. */
  lemma FormatField(name: string, p: string, alert: string, group: string, crd: string)
    requires name == "alert_name" || name == "group_name" || name == "crd_name"
    ensures FormatPattern("{" + name + "}" + p, alert, group, crd)
         == Prepend(FieldValue(name, alert, group, crd).value, FormatPattern(p, alert, group, crd))
  {
    var s := "{" + name + "}" + p;
    var j := |name| + 1;
    assert s[0] == '{' && s[1] != '{' && s[j] == '}';
    assert forall k :: 1 <= k < j ==> s[k] == name[k - 1];
    assert CloseAt(s, 1) == Some(j);
    assert s[1..j] == name && s[j + 1..] == p;
  }

  /** Escaped braces stand for themselves. */
  lemma FormatEscapes(p: string, alert: string, group: string, crd: string)
    ensures FormatPattern("{{" + p, alert, group, crd) == Prepend("{", FormatPattern(p, alert, group, crd))
    ensures FormatPattern("}}" + p, alert, group, crd) == Prepend("}", FormatPattern(p, alert, group, crd))
  {
    assert ("{{" + p)[2..] == p && ("}}" + p)[2..] == p;
  }

  /** The default pattern names the file after the alert. */
  lemma FormatDefaultPattern(p: string, alert: string, group: string, crd: string)
    requires p == "{alert_name}.yaml"
    ensures FormatPattern(p, alert, group, crd) == Ok(alert + ".yaml")
  {
    var name, ext := "alert_name", ".yaml";
    assert "{" + name + "}" + ext == p;
    FormatField(name, ext, alert, group, crd);
    assert FormatPattern(ext, alert, group, crd) == Ok(ext) by {
      FormatLiteral(ext, [], alert, group, crd);
      assert ext + [] == ext;
    }
  }

  /** `_get_file_path`: the formatted pattern with one file per alert,
      otherwise the object's name with `.yaml` added when it has neither
      extension. */
  function FilePath(s: Settings, alert: string, group: string, crd: string): Result<string>
  {
    if s.gitFilePerAlert then FormatPattern(s.gitFilePattern, alert, group, crd)
    else Ok(if EndsWith(crd, ".yaml") || EndsWith(crd, ".yml") then crd else crd + ".yaml")
  }

  /** With one shared file per object the file always has a YAML extension;
      with the default settings the file is `<alert>.yaml`. */
  lemma FilePathExtension(s: Settings, alert: string, group: string, crd: string)
    ensures !s.gitFilePerAlert ==> (FilePath(s, alert, group, crd).Ok?
      && (EndsWith(FilePath(s, alert, group, crd).value, ".yaml") || EndsWith(FilePath(s, alert, group, crd).value, ".yml")))
    ensures s.gitFilePerAlert && s.gitFilePattern == DefaultSettings(None).gitFilePattern ==>
      FilePath(s, alert, group, crd) == Ok(alert + ".yaml")
  {
    if !s.gitFilePerAlert && !(EndsWith(crd, ".yaml") || EndsWith(crd, ".yml")) {
      assert (crd + ".yaml")[|crd + ".yaml"| - 5..] == ".yaml";
    }
    if s.gitFilePerAlert && s.gitFilePattern == DefaultSettings(None).gitFilePattern {
      FormatDefaultPattern(s.gitFilePattern, alert, group, crd);
    }
  }

  /** The path in the repository: the rules directory, then the file. */
  function Located(s: Settings, alert: string, group: string, fileName: string): Result<string>
  {
    match FilePath(s, alert, group, CrdNameOf(fileName))
    case Err(e) => Err(e)
    case Ok(f) => Ok(s.gitRulesPath + "/" + f)
  }

  // ---- The Git side ----

  /** A rule file as YAML loads it: empty, or a mapping with its `groups`
      when it has them and its other keys. */
  datatype RuleDoc = EmptyDoc | RuleDoc(groups: Option<seq<RuleGroup>>, other: map<string, Value>)

  /** The answers of the Git calls: whether clone or pull succeeds, the
      files of the checked-out tree by path, whether commit and push succeed
      and the branch they report, and what opening the pull request returns. */
  datatype GitOracle = GitOracle(
    pulled: bool, files: map<string, RuleDoc>,
    pushed: bool, branch: string,
    pullRequest: Option<map<string, Value>>)

  /** The change committed and pushed. */
  datatype Commit = WriteFile(path: string, doc: RuleDoc) | DeleteFile(path: string)

  /** The `pull_request` entry of a result. */
  datatype PullRequest = PullRequest(number: Value, url: Value)

  /** A Git result dictionary. */
  datatype GitResult = GitError(message: string) | GitDone(message: string, branch: string, pullRequest: Option<PullRequest>, commit: Commit)

  /** The document of a file written for one alert. */
  function SingleRuleDoc(group: string, data: Rule): RuleDoc
  {
    RuleDoc(Some([NewGroup(group, data)]), map[])
  }

  /** `pull_request` from what the hosting service answers: GitHub's
      `number` and `html_url`, or else GitLab's `iid` and `web_url`; none
      when the answer is missing or empty. */
  function PrSummary(pr: Option<map<string, Value>>): (r: Option<PullRequest>)
    ensures r.Some? <==> pr.Some? && pr.value != map[]
    ensures r.Some? && Truthy(Field(pr.value, "number")) ==> r.value.number == Field(pr.value, "number")
    ensures r.Some? && !Truthy(Field(pr.value, "number")) ==> r.value.number == Field(pr.value, "iid")
    ensures r.Some? && Truthy(Field(pr.value, "html_url")) ==> r.value.url == Field(pr.value, "html_url")
    ensures r.Some? && !Truthy(Field(pr.value, "html_url")) ==> r.value.url == Field(pr.value, "web_url")
  {
    if pr.None? || pr.value == map[] then None
    else Some(PullRequest(Or(Field(pr.value, "number"), Field(pr.value, "iid")), Or(Field(pr.value, "html_url"), Field(pr.value, "web_url"))))
  }

  /** Commit and push `change`, then open the pull request. */
  function Finish(git: GitOracle, message: string, change: Commit): GitResult
  {
    if !git.pushed then GitError("Failed to commit and push changes")
    else GitDone(message, git.branch, PrSummary(git.pullRequest), change)
  }

  const NoneIterable := "argument of type 'NoneType' is not iterable"

  /** `_update_rule_in_git`. */
  function UpdateInGit(s: Settings, git: GitOracle, alert: string, group: string, fileName: string, data: Rule): GitResult
  {
    if !git.pulled then GitError("Failed to clone/pull Git repository")
    else match Located(s, alert, group, fileName)
      case Err(e) => GitError(e)
      case Ok(path) =>
        if s.gitFilePerAlert then Finish(git, "Rule updated in Git", WriteFile(path, SingleRuleDoc(group, data)))
        else if path !in git.files then GitError("Rule file not found: " + path)
        else match git.files[path]
          case EmptyDoc => GitError(NoneIterable)
          case RuleDoc(None, _) => GitError("Invalid rule file: no groups found")
          case RuleDoc(Some(groups), other) =>
            match Replaced(groups, group, alert, data)
            case None => GitError("Rule " + alert + " not found in group " + group)
            case Some(edited) => Finish(git, "Rule updated in Git", WriteFile(path, RuleDoc(Some(edited), other)))
  }

  /** The groups `_create_rule_in_git` starts from in a shared file: a
      missing file is `{"groups": []}`, an empty one `{}`. */
  function StartingDoc(git: GitOracle, path: string): (d: RuleDoc)
    ensures d.RuleDoc?
  {
    if path !in git.files then RuleDoc(Some([]), map[])
    else match git.files[path]
      case EmptyDoc => RuleDoc(None, map[])
      case d => d
  }

  /** `_create_rule_in_git`. */
  function CreateInGit(s: Settings, git: GitOracle, alert: string, group: string, fileName: string, data: Rule): GitResult
  {
    if !git.pulled then GitError("Failed to clone/pull Git repository")
    else match Located(s, alert, group, fileName)
      case Err(e) => GitError(e)
      case Ok(path) =>
        if s.gitFilePerAlert then Finish(git, "Rule created in Git", WriteFile(path, SingleRuleDoc(group, data)))
        else
          var start := StartingDoc(git, path);
          var groups := start.groups.GetOr([]);
          Finish(git, "Rule created in Git", WriteFile(path, RuleDoc(Some(Appended(groups, group, data)), start.other)))
  }

  /** `_delete_rule_in_git`: one file per alert deletes the file (whatever it
      holds); a shared file loses the rule and keeps a group it empties. */
  function DeleteInGit(s: Settings, git: GitOracle, alert: string, group: string, fileName: string): GitResult
  {
    if !git.pulled then GitError("Failed to clone/pull Git repository")
    else match Located(s, alert, group, fileName)
      case Err(e) => GitError(e)
      case Ok(path) =>
        if path !in git.files then GitError("Rule file not found: " + path)
        else if s.gitFilePerAlert then Finish(git, "Rule deleted from Git", DeleteFile(path))
        else match git.files[path]
          case EmptyDoc => GitError(NoneIterable)
          case RuleDoc(None, _) => GitError("Invalid rule file: no groups found")
          case RuleDoc(Some(groups), other) =>
            match RemovedKeepGroup(groups, group, alert)
            case None => GitError("Rule " + alert + " not found in group " + group)
            case Some(edited) => Finish(git, "Rule deleted from Git", WriteFile(path, RuleDoc(Some(edited), other)))
  }

  /** How the Git side writes an update: one file per alert holds only the
      new rule; a shared file gets the rule replaced, with as many rules as
      before, and fails when the rule is not there. Either way the written
      document then gives `data` for the alert. */
  lemma UpdateInGitWrites(s: Settings, git: GitOracle, alert: string, group: string, fileName: string, data: Rule)
    requires IsRuleFor(data, alert) && git.pulled && git.pushed && Located(s, alert, group, fileName).Ok?
    ensures var r := UpdateInGit(s, git, alert, group, fileName, data);
      var path := Located(s, alert, group, fileName).value;
      && (s.gitFilePerAlert ==> (r.GitDone? && r.commit == WriteFile(path, SingleRuleDoc(group, data))
            && TotalRules(r.commit.doc.groups.value) == 1))
      && (!s.gitFilePerAlert && path in git.files && git.files[path].RuleDoc? && git.files[path].groups.Some? ==>
            (r.GitDone? <==> Lookup(git.files[path].groups.value, group, alert).Some?))
      && (r.GitDone? && !s.gitFilePerAlert ==> (r.commit.WriteFile? && r.commit.path == path
            && r.commit.doc.RuleDoc? && r.commit.doc.groups.Some?
            && TotalRules(r.commit.doc.groups.value) == TotalRules(git.files[path].groups.value)))
      && (r.GitDone? ==> (r.commit.WriteFile? && r.commit.doc.RuleDoc? && r.commit.doc.groups.Some?
            && Lookup(r.commit.doc.groups.value, group, alert) == Some(data)))
  {
    var path := Located(s, alert, group, fileName).value;
    UpsertedLookup([], group, alert, data);
    assert [] + [NewGroup(group, data)] == [NewGroup(group, data)];
    assert TotalRules([NewGroup(group, data)]) == 1 by {
      assert [NewGroup(group, data)][..0] == [];
    }
    if !s.gitFilePerAlert && path in git.files && git.files[path].RuleDoc? && git.files[path].groups.Some? {
      var groups := git.files[path].groups.value;
      ReplacedFound(groups, group, alert, data);
      UpsertedLookup(groups, group, alert, data);
    }
  }

  /** A create always commits (given the calls succeed); in a shared file
      the rule is added to the rules already there. */
  lemma CreateInGitWrites(s: Settings, git: GitOracle, alert: string, group: string, fileName: string, data: Rule)
    requires git.pulled && git.pushed && Located(s, alert, group, fileName).Ok?
    ensures var r := CreateInGit(s, git, alert, group, fileName, data);
      var path := Located(s, alert, group, fileName).value;
      && r.GitDone? && r.commit.WriteFile? && r.commit.path == path
      && r.commit.doc.RuleDoc? && r.commit.doc.groups.Some?
      && (!s.gitFilePerAlert ==> TotalRules(r.commit.doc.groups.value) == TotalRules(StartingDoc(git, path).groups.GetOr([])) + 1)
  {
    var path := Located(s, alert, group, fileName).value;
    if !s.gitFilePerAlert {
      AppendedCount(StartingDoc(git, path).groups.GetOr([]), group, data);
    }
  }

  /** In a shared file, deleting the rule just created in an existing group
      writes back the document the create started from. */
  lemma CreateThenDeleteInGit(s: Settings, git: GitOracle, alert: string, group: string, fileName: string, data: Rule, git2: GitOracle)
    requires IsRuleFor(data, alert) && !s.gitFilePerAlert
    requires git.pulled && git.pushed && Located(s, alert, group, fileName).Ok?
    requires var path := Located(s, alert, group, fileName).value;
      && path in git.files && git.files[path].RuleDoc? && git.files[path].groups.Some?
      && var groups := git.files[path].groups.value;
      && Lookup(groups, group, alert).None?
      && FirstGroup(groups, group).Some? && groups[FirstGroup(groups, group).value].rules.Some?
    requires var c := CreateInGit(s, git, alert, group, fileName, data);
      c.GitDone? && git2.pulled && git2.pushed && git2.files == git.files[c.commit.path := c.commit.doc]
    ensures var d := DeleteInGit(s, git2, alert, group, fileName);
      var path := Located(s, alert, group, fileName).value;
      d.GitDone? && d.commit == WriteFile(path, git.files[path])
  {
    var path := Located(s, alert, group, fileName).value;
    var groups := git.files[path].groups.value;
    AppendThenRemove(groups, group, alert, data);
  }

  /** With one file per alert, the delete removes the file the create wrote. */
  lemma CreateThenDeletePerAlert(s: Settings, git: GitOracle, alert: string, group: string, fileName: string, data: Rule, git2: GitOracle)
    requires s.gitFilePerAlert && git.pulled && git.pushed && Located(s, alert, group, fileName).Ok?
    requires var c := CreateInGit(s, git, alert, group, fileName, data);
      c.GitDone? && git2.pulled && git2.pushed && git2.files == git.files[c.commit.path := c.commit.doc]
    ensures var c := CreateInGit(s, git, alert, group, fileName, data);
      DeleteInGit(s, git2, alert, group, fileName).GitDone?
      && DeleteInGit(s, git2, alert, group, fileName).commit == DeleteFile(c.commit.path)
  {
  }

  // ---- Combining the two ----

  /** A rule manager result: an error with its message, or success with its
      message, the CRD result, the Git result and the Git error. */
  datatype Outcome = Failed(message: string) | Succeeded(message: string, crd: Option<CrdResult>, git: Option<GitResult>, gitError: Option<string>)

  /** How `update_rule`, `create_rule` and `delete_rule` combine the CRD
      result (`None` when that mode is off) and the Git result (`None` when
      that mode is off). */
  function Combine(crd: Option<CrdResult>, git: Option<GitResult>, done: string, partial: string): (r: Outcome)
    ensures r.Succeeded? <==> (crd.Some? || git.Some?) && !(crd.Some? && crd.value.CrdError?)
                              && !(crd.None? && git.Some? && git.value.GitError?)
    ensures crd.Some? && crd.value.CrdError? ==> r == Failed(crd.value.message)
    ensures crd.None? && git.Some? && git.value.GitError? ==> r == Failed(git.value.message)
    ensures crd.None? && git.None? ==> r == Failed("Neither CRD nor Git integration is enabled")
    ensures r.Succeeded? ==> r.crd == crd
    ensures r.Succeeded? ==> (r.gitError.Some? <==> git.Some? && git.value.GitError?)
    ensures r.Succeeded? && r.gitError.Some? ==> r.gitError.value == git.value.message && r.message == partial && r.git.None?
    ensures r.Succeeded? && r.gitError.None? ==> r.message == done && r.git == git
  {
    if crd.Some? && crd.value.CrdError? then Failed(crd.value.message)
    else if git.Some? && git.value.GitError? then
      (if crd.Some? then Succeeded(partial, crd, None, Some(git.value.message)) else Failed(git.value.message))
    else if crd.None? && git.None? then Failed("Neither CRD nor Git integration is enabled")
    else Succeeded(done, crd, git, None)
  }

  /** Edits rules through the object manager and the Git repository. */
  class PrometheusRuleManager {
    const settings: Settings
    const crdManager: CrdManager

    constructor (settings: Settings, crdManager: CrdManager)
      ensures this.settings == settings && this.crdManager == crdManager
    {
      this.settings := settings;
      this.crdManager := crdManager;
    }

    /** The Git side, asked only when that mode is on. */
    function GitSide(r: GitResult): Option<GitResult>
      reads this
    {
      if settings.gitEnabled then Some(r) else None
    }

    /** `_update_rule_in_git`, editing a shared file with the search loops. */
    method UpdateRuleInGit(git: GitOracle, alert: string, group: string, fileName: string, data: Rule) returns (r: GitResult)
      ensures r == UpdateInGit(settings, git, alert, group, fileName, data)
    {
      if !git.pulled {
        return GitError("Failed to clone/pull Git repository");
      }
      var located := Located(settings, alert, group, fileName);
      if located.Err? {
        return GitError(located.error);
      }
      var path := located.value;
      if settings.gitFilePerAlert {
        return Finish(git, "Rule updated in Git", WriteFile(path, SingleRuleDoc(group, data)));
      }
      if path !in git.files {
        return GitError("Rule file not found: " + path);
      }
      var doc := git.files[path];
      if doc.EmptyDoc? {
        return GitError(NoneIterable);
      }
      if doc.groups.None? {
        return GitError("Invalid rule file: no groups found");
      }
      var edited := ReplaceRule(doc.groups.value, group, alert, data);
      if edited.None? {
        return GitError("Rule " + alert + " not found in group " + group);
      }
      r := Finish(git, "Rule updated in Git", WriteFile(path, RuleDoc(Some(edited.value), doc.other)));
    }

    /** `_create_rule_in_git`, editing a shared file with the search loop. */
    method CreateRuleInGit(git: GitOracle, alert: string, group: string, fileName: string, data: Rule) returns (r: GitResult)
      ensures r == CreateInGit(settings, git, alert, group, fileName, data)
    {
      if !git.pulled {
        return GitError("Failed to clone/pull Git repository");
      }
      var located := Located(settings, alert, group, fileName);
      if located.Err? {
        return GitError(located.error);
      }
      var path := located.value;
      if settings.gitFilePerAlert {
        return Finish(git, "Rule created in Git", WriteFile(path, SingleRuleDoc(group, data)));
      }
      var start := StartingDoc(git, path);
      var edited := AppendRule(start.groups.GetOr([]), group, data);
      r := Finish(git, "Rule created in Git", WriteFile(path, RuleDoc(Some(edited), start.other)));
    }

    /** `_delete_rule_in_git`, editing a shared file with the search loops. */
    method DeleteRuleInGit(git: GitOracle, alert: string, group: string, fileName: string) returns (r: GitResult)
      ensures r == DeleteInGit(settings, git, alert, group, fileName)
    {
      if !git.pulled {
        return GitError("Failed to clone/pull Git repository");
      }
      var located := Located(settings, alert, group, fileName);
      if located.Err? {
        return GitError(located.error);
      }
      var path := located.value;
      if path !in git.files {
        return GitError("Rule file not found: " + path);
      }
      if settings.gitFilePerAlert {
        return Finish(git, "Rule deleted from Git", DeleteFile(path));
      }
      var doc := git.files[path];
      if doc.EmptyDoc? {
        return GitError(NoneIterable);
      }
      if doc.groups.None? {
        return GitError("Invalid rule file: no groups found");
      }
      var edited := RemoveRuleKeepGroup(doc.groups.value, group, alert);
      if edited.None? {
        return GitError("Rule " + alert + " not found in group " + group);
      }
      r := Finish(git, "Rule deleted from Git", WriteFile(path, RuleDoc(Some(edited.value), doc.other)));
    }

    /** `update_rule`: the object side is create-or-update on the name
        derived from `fileName`; `failure` is the error of its write call. */
    method UpdateRule(alert: string, group: string, fileName: string, data: Rule, git: GitOracle, failure: Option<string>) returns (r: Outcome)
      requires crdManager.Valid()
      modifies crdManager
      ensures crdManager.Valid()
      ensures var (c, after) := CreateOrUpdate(crdManager.connected, crdManager.namespace, crdManager.configured,
                                  old(crdManager.crds), alert, group, CrdNameOf(fileName), data, failure);
        && crdManager.crds == (if settings.useCrds then after else old(crdManager.crds))
        && r == Combine(if settings.useCrds then Some(c) else None,
                        GitSide(UpdateInGit(settings, git, alert, group, fileName, data)),
                        "Rule updated", "Rule updated in CRD, but Git commit failed")
    {
      var crd: Option<CrdResult> := None;
      if settings.useCrds {
        var c := crdManager.CreateOrUpdateRule(alert, group, CrdNameOf(fileName), data, failure);
        if c.CrdError? {
          return Failed(c.message);
        }
        crd := Some(c);
      }
      var gitResult: Option<GitResult> := None;
      if settings.gitEnabled {
        var g := UpdateRuleInGit(git, alert, group, fileName, data);
        gitResult := Some(g);
      }
      r := Combine(crd, gitResult, "Rule updated", "Rule updated in CRD, but Git commit failed");
    }

    /** `create_rule`: the object side is the same create-or-update. */
    method CreateRule(alert: string, group: string, fileName: string, data: Rule, git: GitOracle, failure: Option<string>) returns (r: Outcome)
      requires crdManager.Valid()
      modifies crdManager
      ensures crdManager.Valid()
      ensures var (c, after) := CreateOrUpdate(crdManager.connected, crdManager.namespace, crdManager.configured,
                                  old(crdManager.crds), alert, group, CrdNameOf(fileName), data, failure);
        && crdManager.crds == (if settings.useCrds then after else old(crdManager.crds))
        && r == Combine(if settings.useCrds then Some(c) else None,
                        GitSide(CreateInGit(settings, git, alert, group, fileName, data)),
                        "Rule created", "Rule created in CRD, but Git commit failed")
    {
      var crd: Option<CrdResult> := None;
      if settings.useCrds {
        var c := crdManager.CreateOrUpdateRule(alert, group, CrdNameOf(fileName), data, failure);
        if c.CrdError? {
          return Failed(c.message);
        }
        crd := Some(c);
      }
      var gitResult: Option<GitResult> := None;
      if settings.gitEnabled {
        var g := CreateRuleInGit(git, alert, group, fileName, data);
        gitResult := Some(g);
      }
      r := Combine(crd, gitResult, "Rule created", "Rule created in CRD, but Git commit failed");
    }

    /** `delete_rule`. */
    method DeleteRule(alert: string, group: string, fileName: string, git: GitOracle, failure: Option<string>) returns (r: Outcome)
      requires crdManager.Valid()
      modifies crdManager
      ensures crdManager.Valid()
      ensures var (c, after) := Delete(crdManager.connected, old(crdManager.crds), alert, group, CrdNameOf(fileName), failure);
        && crdManager.crds == (if settings.useCrds then after else old(crdManager.crds))
        && r == Combine(if settings.useCrds then Some(c) else None,
                        GitSide(DeleteInGit(settings, git, alert, group, fileName)),
                        "Rule deleted", "Rule deleted from CRD, but Git commit failed")
    {
      var crd: Option<CrdResult> := None;
      if settings.useCrds {
        var c := crdManager.DeleteRule(alert, group, CrdNameOf(fileName), failure);
        if c.CrdError? {
          return Failed(c.message);
        }
        crd := Some(c);
      }
      var gitResult: Option<GitResult> := None;
      if settings.gitEnabled {
        var g := DeleteRuleInGit(git, alert, group, fileName);
        gitResult := Some(g);
      }
      r := Combine(crd, gitResult, "Rule deleted", "Rule deleted from CRD, but Git commit failed");
    }
  }
}
