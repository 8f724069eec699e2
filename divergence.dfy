/**
  How the telemetry script's copy of the classifiers differs from the
  installer's: no `devcontainer`, no `java`, `unknown` instead of `generic`,
  only `dependencies` consulted (and no `react-dom`), and only
  `requirements.txt` as a Python marker.
 */
module Divergence {
  import opened JsValue
  import opened Workspace
  import Installer
  import InstallerProperties
  import Analytics

  /** The environments agree except that the installer's `devcontainer` is `local` here. */
  lemma EnvironmentCopies(env: map<string, string>)
    ensures Analytics.DetectEnvironment(env)
         == if Installer.DetectEnvironment(env) == Devcontainer then Local else Installer.DetectEnvironment(env)
  {
  }

  /** Only VSCODE_REMOTE_CONTAINERS set: `devcontainer` for the installer, `local` for telemetry. */
  lemma DevcontainerOnly()
    ensures var env := map["VSCODE_REMOTE_CONTAINERS" := "true"];
            Installer.DetectEnvironment(env) == Devcontainer && Analytics.DetectEnvironment(env) == Local
  {
  }

  /** Neither copy produces the other's fallback, and only the installer has `java`. */
  lemma ProjectTypeRanges(s: Snapshot)
    ensures Analytics.DetectProjectType(s) !in {Java, Generic}
    ensures Installer.DetectProjectType(s) != Unknown
  {
  }

  /** The analytics copy's answer for what the installer calls java or generic. */
  function Collapse(t: ProjectType): ProjectType
  {
    if t == Java || t == Generic then Unknown else t
  }

  /**
    Without `package.json` the two copies agree up to the analytics fallback
    exactly when `requirements.txt` is present or neither `setup.py` nor
    `pyproject.toml` is: those two are Python markers only for the installer.
   */
  lemma MarkerCopies(s: Snapshot)
    requires Manifest !in s.present
    ensures Analytics.DetectProjectType(s) == Collapse(Installer.DetectProjectType(s))
        <==> "requirements.txt" in s.present || ("setup.py" !in s.present && "pyproject.toml" !in s.present)
  {
  }

  lemma SetupPyAlone()
    ensures var s := Snapshot(map[], {"setup.py"}, None);
            Installer.DetectProjectType(s) == Python && Analytics.DetectProjectType(s) == Unknown
  {
  }

  /** Only `pom.xml` present: `java` for the installer, `unknown` for telemetry. */
  lemma PomOnly()
    ensures var s := Snapshot(map[], {"pom.xml"}, None);
            Installer.DetectProjectType(s) == Java && Analytics.DetectProjectType(s) == Unknown
  {
  }

  /** An empty directory: `generic` for the installer, `unknown` for telemetry. */
  lemma EmptyDirectory()
    ensures var s := Snapshot(map[], {}, None);
            Installer.DetectProjectType(s) == Generic && Analytics.DetectProjectType(s) == Unknown
  {
  }

  /**
    On a parsed, non-null manifest the copies agree exactly when the installer's
    react test (react or react-dom, `devDependencies` winning) matches the
    telemetry's (`dependencies.react` alone), and, when neither says react,
    their vue tests match too.
   */
  lemma ManifestCopies(pkg: Json)
    requires pkg != Null
    ensures var ri := Truthy(Installer.Dependency(pkg, "react")) || Truthy(Installer.Dependency(pkg, "react-dom"));
            var vi := Truthy(Installer.Dependency(pkg, "vue"));
            var ra := Truthy(Chain(Get(pkg, "dependencies"), "react"));
            var va := Truthy(Chain(Get(pkg, "dependencies"), "vue"));
            (Installer.ManifestType(Some(pkg)) == Analytics.ManifestType(Some(pkg)) <==> ri == ra && (ri || vi == va))
  {
    InstallerProperties.ManifestClassification(Some(pkg));
  }

  /** React declared only as a development dependency: the installer says react, the telemetry node. */
  lemma DevDependencyOnly()
    ensures var pkg := Obj(map["devDependencies" := Obj(map["react" := Str("^18.2.0")])]);
            Installer.ManifestType(Some(pkg)) == React && Analytics.ManifestType(Some(pkg)) == Node
  {
    var pkg := Obj(map["devDependencies" := Obj(map["react" := Str("^18.2.0")])]);
    InstallerProperties.ManifestClassification(Some(pkg));
    assert Installer.Dependency(pkg, "react") == Some(Str("^18.2.0"));
  }

  /** Only `react-dom` in `dependencies`: the installer says react, the telemetry node. */
  lemma ReactDomOnly()
    ensures var pkg := Obj(map["dependencies" := Obj(map["react-dom" := Str("^18.2.0")])]);
            Installer.ManifestType(Some(pkg)) == React && Analytics.ManifestType(Some(pkg)) == Node
  {
    var pkg := Obj(map["dependencies" := Obj(map["react-dom" := Str("^18.2.0")])]);
    InstallerProperties.ManifestClassification(Some(pkg));
    assert Installer.Dependency(pkg, "react-dom") == Some(Str("^18.2.0"));
  }
}
