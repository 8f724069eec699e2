/**
  The decision layer of the web installer (website/install.js): classify the
  environment and the project, back up an existing CLAUDE.md, then download
  the project's template (or the generic document) and write it.
 */
module Installer {
  import opened JsValue
  import opened Workspace
  import opened FileSystem

  const RepoBase := "https://raw.githubusercontent.com/zaste/claude-code-os/main"
  const Target := "CLAUDE.md"
  const Version := "1.0.0"

  // ---------------------------------------------------------------------------
  // Classification

  /** The hosted-workspace variables, in the order `detectEnvironment` tests them. */
  const EnvironmentRules: seq<(string, Environment)> :=
    [("CODESPACES", Codespaces), ("GITPOD_WORKSPACE_ID", Gitpod), ("VSCODE_REMOTE_CONTAINERS", Devcontainer)]

  /** The marker files tested when there is no `package.json`, in order. */
  const MarkerRules: seq<(seq<string>, ProjectType)> :=
    [ (["requirements.txt", "setup.py", "pyproject.toml"], Python),
      (["go.mod"], Go),
      (["Cargo.toml"], Rust),
      (["pom.xml", "build.gradle"], Java) ]

  function DetectEnvironment(env: map<string, string>): Environment
  {
    if IsSet(env, "CODESPACES") then Codespaces
    else if IsSet(env, "GITPOD_WORKSPACE_ID") then Gitpod
    else if IsSet(env, "VSCODE_REMOTE_CONTAINERS") then Devcontainer
    else Local
  }

  /** `{ ...pkg.dependencies, ...pkg.devDependencies }` */
  function MergedDependencies(pkg: Json): map<string, Json>
  {
    Spread(Get(pkg, "dependencies")) + Spread(Get(pkg, "devDependencies"))
  }

  /** The classification of an existing `package.json`, parsed or not. */
  function ManifestType(manifest: Option<Json>): ProjectType
  {
    match manifest
    case None => Node             // reading or parsing threw
    case Some(Null) => Node       // `null.dependencies` threw
    case Some(pkg) =>
      var deps := MergedDependencies(pkg);
      if Truthy(Field(deps, "react")) || Truthy(Field(deps, "react-dom")) then React
      else if Truthy(Field(deps, "vue")) then Vue
      else if Truthy(Field(deps, "express")) || Truthy(Field(deps, "fastify")) || Truthy(Field(deps, "koa")) then Node
      else Node
  }

  function DetectProjectType(s: Snapshot): ProjectType
  {
    if Manifest in s.present then ManifestType(s.manifest)
    else if "requirements.txt" in s.present || "setup.py" in s.present || "pyproject.toml" in s.present then Python
    else if "go.mod" in s.present then Go
    else if "Cargo.toml" in s.present then Rust
    else if "pom.xml" in s.present || "build.gradle" in s.present then Java
    else Generic
  }

  /**
    A dependency as the merged object sees it: the `devDependencies` entry when
    there is one, otherwise the `dependencies` entry.
   */
  function Dependency(pkg: Json, name: string): Option<Json>
  {
    var dev := Chain(Get(pkg, "devDependencies"), name);
    if dev.Some? then dev else Chain(Get(pkg, "dependencies"), name)
  }

  // ---------------------------------------------------------------------------
  // Backup name

  /** `.replace(/:/g, '-')` */
  function ReplaceColons(s: string): (r: string)
    ensures |r| == |s|
    ensures forall i :: 0 <= i < |s| ==> r[i] == if s[i] == ':' then '-' else s[i]
  {
    if s == [] then [] else [if s[0] == ':' then '-' else s[0]] + ReplaceColons(s[1..])
  }

  /** `.split('.')[0]` */
  function BeforeFirstDot(s: string): (r: string)
    ensures r <= s
    ensures forall i :: 0 <= i < |r| ==> r[i] != '.'
    ensures |r| < |s| ==> s[|r|] == '.'
  {
    if s == [] || s[0] == '.' then [] else [s[0]] + BeforeFirstDot(s[1..])
  }

  /** The timestamp in the backup name, made from `new Date().toISOString()`. */
  function BackupTimestamp(iso: string): string
  {
    BeforeFirstDot(ReplaceColons(iso))
  }

  function BackupPath(iso: string): string
  {
    Target + ".backup." + BackupTimestamp(iso)
  }

  // ---------------------------------------------------------------------------
  // Candidate downloads

  const GenericUrl := RepoBase + "/CLAUDE.md"

  function TemplateUrl(t: ProjectType): string
  {
    RepoBase + "/templates/" + TypeName(t) + "/CLAUDE.md"
  }

  /** The locations tried, in order: the type's template, then the generic document. */
  function Candidates(t: ProjectType): seq<string>
  {
    if t == Generic then [GenericUrl] else [TemplateUrl(t), GenericUrl]
  }

  /** The candidates requested, and the first one that was both fetched and written, with its content. */
  datatype Attempt = Attempt(tried: seq<string>, fetched: Option<(string, string)>)

  /**
    Trying `cands` in order: a candidate wins when it downloads and the target
    can be written; otherwise the next one is requested.
   */
  function TryCandidates(cands: seq<string>, download: string -> Option<string>, writable: bool): (a: Attempt)
    ensures a.tried <= cands
    ensures a.fetched.None? ==> a.tried == cands
    ensures a.fetched.Some? ==>
              && writable && |a.tried| > 0
              && a.fetched.value.0 == a.tried[|a.tried| - 1]
              && download(a.fetched.value.0) == Some(a.fetched.value.1)
    ensures forall i :: 0 <= i < |a.tried| - (if a.fetched.Some? then 1 else 0) ==>
              !writable || download(a.tried[i]).None?
  {
    if cands == [] then Attempt([], None)
    else if writable && download(cands[0]).Some? then Attempt([cands[0]], Some((cands[0], download(cands[0]).value)))
    else
      var rest := TryCandidates(cands[1..], download, writable);
      Attempt([cands[0]] + rest.tried, rest.fetched)
  }

  /** Trying a single candidate. */
  lemma TryOne(only: string, download: string -> Option<string>, writable: bool)
    ensures TryCandidates([only], download, writable)
         == if writable && download(only).Some? then Attempt([only], Some((only, download(only).value)))
            else Attempt([only], None)
  {
    assert [only][1..] == [];
  }

  /** Trying two candidates: the first if it wins, else the second. */
  lemma TryTwo(first: string, second: string, download: string -> Option<string>, writable: bool)
    ensures TryCandidates([first, second], download, writable)
         == if writable && download(first).Some? then Attempt([first], Some((first, download(first).value)))
            else if writable && download(second).Some? then Attempt([first, second], Some((second, download(second).value)))
            else Attempt([first, second], None)
  {
    assert [first, second][1..] == [second];
    TryOne(second, download, writable);
  }

  // ---------------------------------------------------------------------------
  // The install run

  datatype Outcome =
    | Installed(environment: Environment, projectType: ProjectType, source: string)
    | BackupFailed      // `copyFileSync` threw outside any `try`
    | DownloadFailed    // caught by the outer `catch`, which calls `process.exit(1)`

  function ExitCode(o: Outcome): int
  {
    if o.Installed? then 0 else 1
  }

  /** The body of the `POST /install` request sent after a successful write. */
  datatype InstallReport = InstallReport(version: string, environment: string, projectType: string, timestamp: int)

  datatype Run = Run(outcome: Outcome, tried: seq<string>, files: map<string, string>)

  /**
    The reference meaning of an install run, stated over the candidate list
    rather than the nested `try`/`catch` of the script.
   */
  function Plan(files: map<string, string>, locked: set<string>, env: map<string, string>,
                parse: string -> Option<Json>, iso: string, download: string -> Option<string>): Run
  {
    var t := DetectProjectType(SnapshotOf(files, env, parse));
    if Target in files && BackupPath(iso) in locked then Run(BackupFailed, [], files)
    else
      var backedUp := if Target in files then files[BackupPath(iso) := files[Target]] else files;
      var a := TryCandidates(Candidates(t), download, Target !in locked);
      match a.fetched
      case None => Run(DownloadFailed, a.tried, backedUp)
      case Some((url, body)) => Run(Installed(DetectEnvironment(env), t, url), a.tried, backedUp[Target := body])
  }

  /**
    `install()`: `fs` is the file system, `parse` stands for `JSON.parse`,
    `iso` and `now` for the clock and `download` for `downloadFile`.
   */
  method Install(fs: FileStore, env: map<string, string>, parse: string -> Option<Json>,
                 iso: string, now: int, download: string -> Option<string>)
    returns (outcome: Outcome, tried: seq<string>, report: Option<InstallReport>)
    modifies fs
    ensures var run := Plan(old(fs.files), fs.locked, env, parse, iso, download);
            outcome == run.outcome && tried == run.tried && fs.files == run.files
    ensures report == if outcome.Installed?
                      then Some(InstallReport(Version, EnvironmentName(outcome.environment), TypeName(outcome.projectType), now))
                      else None
  {
    var environment := DetectEnvironment(env);
    var projectType := DetectProjectType(SnapshotOf(fs.files, env, parse));
    tried, report := [], None;

    if fs.Exists(Target) {
      var timestamp := BeforeFirstDot(ReplaceColons(iso));
      var copied := fs.Copy(Target, Target + ".backup." + timestamp);
      if !copied {
        assert BackupPath(iso) in fs.locked;
        outcome := BackupFailed;
        return;
      }
    }
    ghost var backedUp := fs.files;

    var claudeMdUrl := RepoBase + "/CLAUDE.md";
    var written := false;
    var source := claudeMdUrl;
    if projectType != Generic {
      var templateUrl := RepoBase + "/templates/" + TypeName(projectType) + "/CLAUDE.md";
      tried := [templateUrl];
      var templateContent := download(templateUrl);
      if templateContent.Some? {
        written := fs.Write(Target, templateContent.value);
        source := templateUrl;
      }
      if !written {
        // the `catch` falls back to the generic document
        tried := tried + [claudeMdUrl];
        var genericContent := download(claudeMdUrl);
        if genericContent.Some? {
          written := fs.Write(Target, genericContent.value);
          source := claudeMdUrl;
        }
      }
      assert Candidates(projectType) == [templateUrl, claudeMdUrl];
      TryTwo(templateUrl, claudeMdUrl, download, Target !in fs.locked);
    } else {
      tried := [claudeMdUrl];
      var content := download(claudeMdUrl);
      if content.Some? {
        written := fs.Write(Target, content.value);
      }
      assert Candidates(projectType) == [claudeMdUrl];
      TryOne(claudeMdUrl, download, Target !in fs.locked);
    }

    ghost var a := TryCandidates(Candidates(projectType), download, Target !in fs.locked);
    assert tried == a.tried;
    assert written <==> a.fetched.Some?;
    assert written ==> fs.files == backedUp[Target := a.fetched.value.1] && source == a.fetched.value.0;
    assert !written ==> fs.files == backedUp;
    if written {
      outcome := Installed(environment, projectType, source);
      report := Some(InstallReport(Version, EnvironmentName(environment), TypeName(projectType), now));
    } else {
      outcome := DownloadFailed;
    }
  }
}

/** What the installer's decisions promise, proved about the functions of module Installer. */
module InstallerProperties {
  import opened JsValue
  import opened Workspace
  import opened Installer

  // ---------------------------------------------------------------------------
  // Classification

  /** `detectEnvironment` is the first-match order of `EnvironmentRules`, defaulting to `local`. */
  lemma {:induction false} EnvironmentFollowsPriority(env: map<string, string>)
    ensures DetectEnvironment(env) == ByPriority(EnvironmentRules, VariableSet(env), Local)
  {
    var holds := VariableSet(env);
    var rules := EnvironmentRules;
    ByPriorityStep(rules, holds, Local);
    assert rules[1..][1..] == rules[2..];
    assert rules[2..][1..] == rules[3..] == [];
    ByPriorityStep(rules[1..], holds, Local);
    ByPriorityStep(rules[2..], holds, Local);
    ByPriorityEmpty(rules[3..], holds, Local);
  }

  /** Each environment, and exactly when it is chosen. */
  lemma EnvironmentCases(env: map<string, string>)
    ensures DetectEnvironment(env) == Codespaces <==> IsSet(env, "CODESPACES")
    ensures DetectEnvironment(env) == Gitpod <==> !IsSet(env, "CODESPACES") && IsSet(env, "GITPOD_WORKSPACE_ID")
    ensures DetectEnvironment(env) == Devcontainer <==>
              !IsSet(env, "CODESPACES") && !IsSet(env, "GITPOD_WORKSPACE_ID") && IsSet(env, "VSCODE_REMOTE_CONTAINERS")
    ensures DetectEnvironment(env) == Local <==>
              !IsSet(env, "CODESPACES") && !IsSet(env, "GITPOD_WORKSPACE_ID") && !IsSet(env, "VSCODE_REMOTE_CONTAINERS")
  {
  }

  /** Without `package.json`, the project type is the first-match order of `MarkerRules`, defaulting to `generic`. */
  lemma {:induction false} MarkersFollowPriority(s: Snapshot)
    requires Manifest !in s.present
    ensures DetectProjectType(s) == ByPriority(MarkerRules, MarkerPresent(s.present), Generic)
  {
    var holds := MarkerPresent(s.present);
    var rules := MarkerRules;
    var p := s.present;
    AnyPresentCases(p, "requirements.txt", "setup.py", "pyproject.toml");
    AnyPresentCases2(p, "pom.xml", "build.gradle");
    assert AnyPresent(p, ["go.mod"]) <==> "go.mod" in p by {
      if "go.mod" in p { assert ["go.mod"][0] in p; }
    }
    assert AnyPresent(p, ["Cargo.toml"]) <==> "Cargo.toml" in p by {
      if "Cargo.toml" in p { assert ["Cargo.toml"][0] in p; }
    }
    ByPriorityStep(rules, holds, Generic);
    assert rules[1..][1..] == rules[2..];
    assert rules[2..][1..] == rules[3..];
    assert rules[3..][1..] == rules[4..] == [];
    ByPriorityStep(rules[1..], holds, Generic);
    ByPriorityStep(rules[2..], holds, Generic);
    ByPriorityStep(rules[3..], holds, Generic);
    ByPriorityEmpty(rules[4..], holds, Generic);
  }

  lemma AnyPresentCases(p: set<string>, a: string, b: string, c: string)
    ensures AnyPresent(p, [a, b, c]) <==> a in p || b in p || c in p
  {
    var names := [a, b, c];
    if a in p { assert names[0] in p; }
    if b in p { assert names[1] in p; }
    if c in p { assert names[2] in p; }
  }

  lemma AnyPresentCases2(p: set<string>, a: string, b: string)
    ensures AnyPresent(p, [a, b]) <==> a in p || b in p
  {
    var names := [a, b];
    if a in p { assert names[0] in p; }
    if b in p { assert names[1] in p; }
  }

  /** With `package.json` present, no other marker matters: the type is react, vue or node. */
  lemma ManifestDecides(s: Snapshot)
    requires Manifest in s.present
    ensures DetectProjectType(s) == ManifestType(s.manifest)
    ensures DetectProjectType(s) in {React, Vue, Node}
  {
  }

  /**
    In the merged dependencies a named package is the `devDependencies` entry
    when there is one, otherwise the `dependencies` entry.
   */
  lemma DevDependenciesOverride(pkg: Json, name: string)
    requires !AllDigits(name)
    ensures Field(MergedDependencies(pkg), name) == Dependency(pkg, name)
  {
    SpreadNamedKey(Get(pkg, "dependencies"), name);
    SpreadNamedKey(Get(pkg, "devDependencies"), name);
  }

  /**
    A manifest that cannot be read or parsed (or parses to `null`) gives
    `node`; otherwise react or react-dom gives `react` even beside vue, then
    vue gives `vue`, and everything else `node`.
   */
  lemma ManifestClassification(manifest: Option<Json>)
    ensures manifest.None? || manifest == Some(Null) ==> ManifestType(manifest) == Node
    ensures manifest.Some? && manifest.value != Null ==>
              var pkg := manifest.value;
              && (ManifestType(manifest) == React <==>
                    Truthy(Dependency(pkg, "react")) || Truthy(Dependency(pkg, "react-dom")))
              && (ManifestType(manifest) == Vue <==>
                    !Truthy(Dependency(pkg, "react")) && !Truthy(Dependency(pkg, "react-dom"))
                    && Truthy(Dependency(pkg, "vue")))
              && (ManifestType(manifest) == Node <==>
                    !Truthy(Dependency(pkg, "react")) && !Truthy(Dependency(pkg, "react-dom"))
                    && !Truthy(Dependency(pkg, "vue")))
  {
    if manifest.Some? && manifest.value != Null {
      var pkg := manifest.value;
      assert !IsDigit("react"[0]) && !IsDigit("react-dom"[0]) && !IsDigit("vue"[0]);
      DevDependenciesOverride(pkg, "react");
      DevDependenciesOverride(pkg, "react-dom");
      DevDependenciesOverride(pkg, "vue");
    }
  }

  // ---------------------------------------------------------------------------
  // Backup name

  /**
    The backup timestamp is the ISO string up to its first `.`, with every
    `:` turned into `-`; so it holds neither a `:` nor a `.`.
   */
  lemma BackupTimestampShape(iso: string)
    ensures var ts := BackupTimestamp(iso);
            && |ts| <= |iso|
            && (forall i :: 0 <= i < |ts| ==> iso[i] != '.' && ts[i] == if iso[i] == ':' then '-' else iso[i])
            && (|ts| < |iso| ==> iso[|ts|] == '.')
            && (forall i :: 0 <= i < |ts| ==> ts[i] != ':' && ts[i] != '.')
  {
    var r := ReplaceColons(iso);
    var ts := BeforeFirstDot(r);
    assert forall i :: 0 <= i < |ts| ==> ts[i] == r[i];
  }

  /** The backup never lands on the document it preserves. */
  lemma BackupPathIsNotTarget(iso: string)
    ensures BackupPath(iso) != Target
  {
    assert |BackupPath(iso)| > |Target|;
  }

  // ---------------------------------------------------------------------------
  // Candidate order

  /**
    A non-generic type tries its own template first and the generic document
    second; `generic` tries only the generic document.
   */
  lemma CandidateOrder(t: ProjectType)
    ensures t == Generic ==> Candidates(t) == [GenericUrl]
    ensures t != Generic ==> |Candidates(t)| == 2 && Candidates(t)[0] == TemplateUrl(t) && Candidates(t)[1] == GenericUrl
    ensures TemplateUrl(t) != GenericUrl
  {
    assert |TemplateUrl(t)| > |GenericUrl|;
  }

  // ---------------------------------------------------------------------------
  // The install run

  function TypeOf(files: map<string, string>, env: map<string, string>, parse: string -> Option<Json>): ProjectType
  {
    DetectProjectType(SnapshotOf(files, env, parse))
  }

  /**
    The backup step: it fails exactly when CLAUDE.md exists and the backup
    path cannot be written, and then nothing is requested or changed;
    otherwise an existing CLAUDE.md is preserved unchanged at the backup path.
   */
  lemma PlanBackup(files: map<string, string>, locked: set<string>, env: map<string, string>,
                   parse: string -> Option<Json>, iso: string, download: string -> Option<string>)
    ensures var run := Plan(files, locked, env, parse, iso, download);
            && (run.outcome == BackupFailed <==> Target in files && BackupPath(iso) in locked)
            && (run.outcome == BackupFailed ==> run.files == files && run.tried == [])
            && (Target in files && run.outcome != BackupFailed ==>
                  BackupPath(iso) in run.files && run.files[BackupPath(iso)] == files[Target])
  {
    BackupPathIsNotTarget(iso);
  }

  /**
    Nothing but CLAUDE.md and, when CLAUDE.md existed, its backup ever
    changes.
   */
  lemma PlanFrame(files: map<string, string>, locked: set<string>, env: map<string, string>,
                  parse: string -> Option<Json>, iso: string, download: string -> Option<string>)
    ensures var run := Plan(files, locked, env, parse, iso, download);
            forall p :: p != Target && (p != BackupPath(iso) || Target !in files) ==>
              (p in run.files <==> p in files) && (p in files ==> run.files[p] == files[p])
  {
  }

  /** CLAUDE.md keeps its old state (present or absent) unless the run installed. */
  lemma PlanWritesOnlyOnSuccess(files: map<string, string>, locked: set<string>, env: map<string, string>,
                                parse: string -> Option<Json>, iso: string, download: string -> Option<string>)
    ensures var run := Plan(files, locked, env, parse, iso, download);
            !run.outcome.Installed? ==>
              (Target in run.files <==> Target in files) && (Target in files ==> run.files[Target] == files[Target])
  {
    BackupPathIsNotTarget(iso);
  }

  /**
    A successful run wrote the content of the first candidate that downloaded,
    after requesting the candidates before it in order, all of which failed.
   */
  lemma PlanInstalledContent(files: map<string, string>, locked: set<string>, env: map<string, string>,
                             parse: string -> Option<Json>, iso: string, download: string -> Option<string>)
    ensures var run := Plan(files, locked, env, parse, iso, download);
            var t := TypeOf(files, env, parse);
            run.outcome.Installed? ==>
              && run.outcome == Installed(DetectEnvironment(env), t, run.outcome.source)
              && Target !in locked
              && |run.tried| > 0 && run.tried <= Candidates(t)
              && run.outcome.source == run.tried[|run.tried| - 1]
              && Target in run.files && download(run.outcome.source) == Some(run.files[Target])
              && (forall i :: 0 <= i < |run.tried| - 1 ==> download(run.tried[i]).None?)
  {
  }

  /**
    The run fails after the backup exactly when CLAUDE.md cannot be written or
    no candidate downloads; it has then requested every candidate, and the
    exit code is non-zero exactly when the run did not install.
   */
  lemma PlanFailsIff(files: map<string, string>, locked: set<string>, env: map<string, string>,
                     parse: string -> Option<Json>, iso: string, download: string -> Option<string>)
    ensures var run := Plan(files, locked, env, parse, iso, download);
            var cands := Candidates(TypeOf(files, env, parse));
            && (run.outcome == DownloadFailed <==>
                  !(Target in files && BackupPath(iso) in locked)
                  && (Target in locked || forall i :: 0 <= i < |cands| ==> download(cands[i]).None?))
            && (run.outcome == DownloadFailed ==> run.tried == cands)
            && (ExitCode(run.outcome) == 0 <==> run.outcome.Installed?)
  {
    var run := Plan(files, locked, env, parse, iso, download);
    var cands := Candidates(TypeOf(files, env, parse));
    var a := TryCandidates(cands, download, Target !in locked);
    if a.fetched.Some? {
      assert a.tried[|a.tried| - 1] == cands[|a.tried| - 1];
    }
  }

  /** Every run past the backup requests the type's first candidate first, and only candidates, in order. */
  lemma PlanTriedOrder(files: map<string, string>, locked: set<string>, env: map<string, string>,
                       parse: string -> Option<Json>, iso: string, download: string -> Option<string>)
    ensures var run := Plan(files, locked, env, parse, iso, download);
            var cands := Candidates(TypeOf(files, env, parse));
            run.outcome != BackupFailed ==> |run.tried| > 0 && run.tried[0] == cands[0] && run.tried <= cands
  {
    var cands := Candidates(TypeOf(files, env, parse));
    var a := TryCandidates(cands, download, Target !in locked);
    assert a.fetched.None? ==> a.tried == cands;
  }

  // ---------------------------------------------------------------------------
  // Scenarios

  /** An empty directory and no variables: local, generic, one request, the content written verbatim. */
  lemma ScenarioEmptyDirectory(parse: string -> Option<Json>, iso: string, download: string -> Option<string>, body: string)
    requires download(GenericUrl) == Some(body)
    ensures Plan(map[], {}, map[], parse, iso, download)
         == Run(Installed(Local, Generic, GenericUrl), [GenericUrl], map[Target := body])
  {
    var t := TypeOf(map[], map[], parse);
    assert t == Generic;
    assert Candidates(t)[1..] == [];
  }

  /** Only `Cargo.toml`: the project is rust and the rust template is requested first. */
  lemma ScenarioCargoOnly(files: map<string, string>, locked: set<string>, parse: string -> Option<Json>,
                          iso: string, download: string -> Option<string>)
    requires files.Keys == {"Cargo.toml"}
    ensures var run := Plan(files, locked, map[], parse, iso, download);
            && TypeOf(files, map[], parse) == Rust
            && run.tried[0] == RepoBase + "/templates/rust/CLAUDE.md"
  {
    PlanTriedOrder(files, locked, map[], parse, iso, download);
  }

  /** CLAUDE.md holding "OLD": the backup holds "OLD" and CLAUDE.md the new content. */
  lemma ScenarioExistingDocument(parse: string -> Option<Json>, iso: string, download: string -> Option<string>, body: string)
    requires download(GenericUrl) == Some(body)
    ensures Plan(map[Target := "OLD"], {}, map[], parse, iso, download).files
         == map[Target := body, BackupPath(iso) := "OLD"]
  {
    var files := map[Target := "OLD"];
    var t := TypeOf(files, map[], parse);
    assert Manifest !in files;
    assert t == Generic;
    assert Candidates(t)[1..] == [];
    BackupPathIsNotTarget(iso);
  }
}
