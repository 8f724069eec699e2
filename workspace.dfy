/**
  What both scripts classify: where the process runs and what kind of project
  the working directory holds, the snapshot of process state they classify
  from, and the first-match-wins priority order both classifications follow.
 */
module Workspace {
  import opened JsValue

  datatype Environment = Codespaces | Gitpod | Devcontainer | Local

  datatype ProjectType = React | Vue | Node | Python | Go | Rust | Java | Generic | Unknown

  /** The string each script returns for a project type. */
  function TypeName(t: ProjectType): string
  {
    match t
    case React => "react"
    case Vue => "vue"
    case Node => "node"
    case Python => "python"
    case Go => "go"
    case Rust => "rust"
    case Java => "java"
    case Generic => "generic"
    case Unknown => "unknown"
  }

  /** The string each script returns for an environment. */
  function EnvironmentName(e: Environment): string
  {
    match e
    case Codespaces => "codespaces"
    case Gitpod => "gitpod"
    case Devcontainer => "devcontainer"
    case Local => "local"
  }

  /** `process.env[name]` is truthy: present and not the empty string. */
  predicate IsSet(env: map<string, string>, name: string)
  {
    name in env && env[name] != ""
  }

  /** `fs.existsSync` holds for at least one of `names`. */
  predicate AnyPresent(present: set<string>, names: seq<string>)
  {
    exists i :: 0 <= i < |names| && names[i] in present
  }

  /** The guard of an environment rule: the variable is set in `env`. */
  function VariableSet(env: map<string, string>): string -> bool
  {
    name => IsSet(env, name)
  }

  /** The guard of a marker-file rule: one of the names exists among `present`. */
  function MarkerPresent(present: set<string>): seq<string> -> bool
  {
    names => AnyPresent(present, names)
  }

  const Manifest := "package.json"

  /**
    What the classifiers look at: the environment variables, the names that
    exist in the working directory, and `package.json` as parsed (`None` when
    reading or parsing it fails).
   */
  datatype Snapshot = Snapshot(env: map<string, string>, present: set<string>, manifest: Option<Json>)

  /** The snapshot a script sees over the file contents `files`, with `parse` standing for `JSON.parse`. */
  function SnapshotOf(files: map<string, string>, env: map<string, string>, parse: string -> Option<Json>): (s: Snapshot)
    ensures s.present == files.Keys && s.env == env
  {
    Snapshot(env, files.Keys, if Manifest in files then parse(files[Manifest]) else None)
  }

  /**
    The index of the first rule whose guard holds, or `|rules|` when none
    does: the reference meaning of a first-match-wins `if` chain.
   */
  function FirstHolding<G, R>(rules: seq<(G, R)>, holds: G -> bool): (k: nat)
    ensures k <= |rules|
    ensures forall j :: 0 <= j < k ==> !holds(rules[j].0)
    ensures k < |rules| ==> holds(rules[k].0)
  {
    if rules == [] then 0
    else if holds(rules[0].0) then 0
    else 1 + FirstHolding(rules[1..], holds)
  }

  /** The outcome of the first rule whose guard holds, else `fallback`. */
  function ByPriority<G, R>(rules: seq<(G, R)>, holds: G -> bool, fallback: R): R
  {
    var k := FirstHolding(rules, holds);
    if k < |rules| then rules[k].1 else fallback
  }

  /** The priority order unfolded one rule at a time. */
  lemma {:induction false} ByPriorityStep<G, R>(rules: seq<(G, R)>, holds: G -> bool, fallback: R)
    requires rules != []
    ensures ByPriority(rules, holds, fallback)
         == if holds(rules[0].0) then rules[0].1 else ByPriority(rules[1..], holds, fallback)
  {
    if !holds(rules[0].0) {
      var k := FirstHolding(rules[1..], holds);
      assert FirstHolding(rules, holds) == 1 + k;
      if k < |rules[1..]| {
        assert rules[1..][k] == rules[k + 1];
      }
    }
  }

  lemma ByPriorityEmpty<G, R>(rules: seq<(G, R)>, holds: G -> bool, fallback: R)
    requires rules == []
    ensures ByPriority(rules, holds, fallback) == fallback
  {
  }
}
