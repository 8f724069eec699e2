# Claude Code OS installer and telemetry: a verified model of the decision layer

Two Node scripts sit around one small layer of decisions, and that layer is
what this project models.

- `website/install.js` is the one-line web installer. It works out where it
  runs (`codespaces`, `gitpod`, `devcontainer` or `local`) and what kind of
  project the working directory holds (`react`, `vue`, `node`, `python`, `go`,
  `rust`, `java` or `generic`). If `CLAUDE.md` already exists, it copies it to
  `CLAUDE.md.backup.<timestamp>`. It then downloads the project type's
  template, falling back to the generic document, writes the download to
  `CLAUDE.md` and posts an install event.
- `scripts/analytics.js` is the telemetry script. It has its own, different
  copy of the two classifiers. It checks `.claude/settings.json` before doing
  anything, reads or creates an anonymous id in `$HOME/.claude-metrics.json`,
  and posts an event envelope. It also has a small command line (`report`,
  `track`).

The model is in six files:

- `jsvalue.dfy` (module `JsValue`): JSON values and the JavaScript semantics
  the scripts depend on. These are truthiness, `v.key`, `v?.key` and object
  spread, including the index keys that spreading an array or a string gives.
- `workspace.dfy` (module `Workspace`): the two classifications and the
  snapshot they are computed from. The snapshot holds the environment
  variables, the names in the working directory and the parsed
  `package.json`. The module also defines `FirstHolding` and `ByPriority`, the
  reference meaning of a first-match-wins chain of rules.
- `filesystem.dfy` (module `FileSystem`): class `FileStore`, the file system
  as a mutable `map<string, string>`. Writes or copies onto a path in `locked`
  throw.
- `installer.dfy` (modules `Installer` and `InstallerProperties`): the
  installer. Its classifiers are the source's `if` chains. Method `Install`
  mutates a `FileStore` step by step, following the script's nested
  `try`/`catch`. It is proved equal to `Plan`, a reference definition that
  tries a list of candidate URLs in order. The lemmas state the candidate
  order, the backup, the frame and the write-only-on-success rule.
- `analytics.dfy` (modules `Analytics` and `AnalyticsProperties`): the
  telemetry script. It covers the classifiers, the settings gate, the
  anonymous id (hex encoding with its inverse, read-or-generate-and-persist),
  the property merge, `trackEvent` and its two wrappers, and the command-line
  dispatch. The stateful operations are methods over a `FileStore`, each proved
  equal to a reference function.
- `divergence.dfy` (module `Divergence`): exactly how the two copies of the
  classifiers differ, the conditions for agreement stated as if-and-only-if, with a concrete input
  for each difference.

JSON parsing and serialisation, the clock, the random bytes and the download
are parameters. A parse result is an `Option<Json>`, where `None` means that
reading or parsing threw.

Where the code and the behaviour one would expect from its documentation
disagree, the model follows the code:

- The script's own comment ("Default to enabled if no settings",
  scripts/analytics.js:47) speaks of telemetry as on by default, which
  suggests it is skipped only when the analytics flag is explicitly false.
  The code returns early whenever the settings parse and
  `settings.analytics?.enabled` is not truthy, so a settings file without the
  flag also disables telemetry (`AnalyticsProperties.SettingsFlagDecides`).
- One might expect caller-supplied properties to win on collision. The code
  spreads them first, so `version`, `timestamp`, `environment` and
  `projectType` win (`Analytics.MergeProperties`).
- Both scripts could be expected to take the union of runtime and
  development dependencies. Only the installer copy merges them, with `devDependencies`
  overriding. The telemetry copy reads `dependencies` alone.

## Model

| member | source | states |
|---|---|---|
| `JsValue.SpreadNamedKey` | website/install.js:50 | a key that is not a digit string comes out of `{...v}` exactly when `v` is an object holding it, with that object's value; array and string spreads contribute only index keys |
| `Workspace.FirstHolding` | website/install.js:36-41 | the index of the first rule whose guard holds (or the rule count when none does): every earlier guard fails and the chosen one holds |
| `FileSystem.FileStore.Write` | website/install.js:123 | `writeFileSync` succeeds exactly when the path is writable, and then replaces only that path's content |
| `FileSystem.FileStore.Copy` | website/install.js:110 | `copyFileSync` succeeds exactly when the source exists and the destination is writable, and then copies the content byte for byte to that one path |
| `InstallerProperties.EnvironmentFollowsPriority` | website/install.js:36-41 | the installer's environment is the first set variable among CODESPACES, GITPOD_WORKSPACE_ID and VSCODE_REMOTE_CONTAINERS, else `local` |
| `InstallerProperties.EnvironmentCases` | website/install.js:36-41 | `codespaces` exactly when CODESPACES is set, whatever else is set; `gitpod`, `devcontainer` and `local` each exactly when all earlier variables are unset |
| `InstallerProperties.MarkersFollowPriority` | website/install.js:61-69 | without `package.json`: any Python marker gives `python`, then `go.mod` gives `go`, `Cargo.toml` gives `rust`, `pom.xml`/`build.gradle` gives `java`, else `generic` |
| `InstallerProperties.ManifestDecides` | website/install.js:47-59 | whenever `package.json` exists, the project type is react, vue or node, whatever other markers exist |
| `InstallerProperties.DevDependenciesOverride` | website/install.js:50 | in the merged dependencies a package is the `devDependencies` entry when there is one, otherwise the `dependencies` entry |
| `InstallerProperties.ManifestClassification` | website/install.js:47-59 | an unreadable, unparseable or null manifest gives `node`; otherwise a truthy react or react-dom gives `react` even beside vue, then a truthy vue gives `vue`, else `node` |
| `Installer.ReplaceColons` | website/install.js:109 | `.replace(/:/g, '-')`: same length, each `:` becomes `-` and every other character is kept |
| `Installer.BeforeFirstDot` | website/install.js:109 | `.split('.')[0]`: the longest prefix without a `.` |
| `InstallerProperties.BackupTimestampShape` | website/install.js:109 | the backup timestamp is the ISO string up to its first `.` with colons replaced, so it holds no `:` and no `.` |
| `InstallerProperties.BackupPathIsNotTarget` | website/install.js:110 | the backup name never equals `CLAUDE.md` |
| `InstallerProperties.CandidateOrder` | website/install.js:118-135 | a non-generic type requests `REPO_BASE/templates/<type>/CLAUDE.md` and then `REPO_BASE/CLAUDE.md`; `generic` requests only `REPO_BASE/CLAUDE.md`; the two URLs differ |
| `Installer.TryCandidates` | website/install.js:118-135 | candidates are requested in order; the winner is the first that downloads while the target is writable, and every candidate before it failed; with no winner, all were requested |
| `Installer.Install` | website/install.js:92-182 | the script's step-by-step install leaves the outcome, the requested URLs and the files that `Plan` gives, and posts the install report exactly when it installed |
| `InstallerProperties.PlanBackup` | website/install.js:104-111 | the backup fails exactly when CLAUDE.md exists and the backup path is unwritable, and then nothing is requested or changed; otherwise the old CLAUDE.md is copied unchanged to the backup path before any download |
| `InstallerProperties.PlanFrame` | website/install.js:104-135 | no file other than CLAUDE.md and, when CLAUDE.md existed, its backup ever changes |
| `InstallerProperties.PlanWritesOnlyOnSuccess` | website/install.js:121-133 | unless the run installed, CLAUDE.md is left exactly as it was, present or absent |
| `InstallerProperties.PlanInstalledContent` | website/install.js:118-135 | after a successful run, CLAUDE.md holds the content of the first candidate that downloaded, and every candidate requested before it failed |
| `InstallerProperties.PlanFailsIff` | website/install.js:176-181 | past the backup, the run fails exactly when CLAUDE.md is unwritable or no candidate downloads; it has then requested every candidate, and the exit code is non-zero exactly when it did not install |
| `InstallerProperties.PlanTriedOrder` | website/install.js:118-135 | every run past the backup requests the type's first candidate first and only candidates, in order |
| `InstallerProperties.ScenarioEmptyDirectory` | website/install.js:36-70 | an empty directory with no variables set gives `local` and `generic`, requests only the generic URL and writes its content verbatim |
| `InstallerProperties.ScenarioCargoOnly` | website/install.js:66 | a directory holding only `Cargo.toml` is `rust` and requests the rust template first |
| `InstallerProperties.ScenarioExistingDocument` | website/install.js:104-133 | with CLAUDE.md holding "OLD", the backup holds "OLD" and CLAUDE.md the new content, and nothing else exists |
| `AnalyticsProperties.EnvironmentFollowsPriority` | scripts/analytics.js:87-91 | the telemetry environment is the first set variable among CODESPACES and GITPOD_WORKSPACE_ID, else `local` |
| `AnalyticsProperties.EnvironmentCases` | scripts/analytics.js:87-91 | CODESPACES beats GITPOD_WORKSPACE_ID, every other case is `local`, and `devcontainer` never comes out |
| `AnalyticsProperties.MarkersFollowPriority` | scripts/analytics.js:108-112 | without `package.json`: `requirements.txt` gives `python`, then `go.mod` gives `go`, then `Cargo.toml` gives `rust`, else `unknown` |
| `AnalyticsProperties.ManifestDecides` | scripts/analytics.js:96-106 | whenever `package.json` exists it alone decides the type, whatever other markers exist, and the type is react, vue or node |
| `AnalyticsProperties.ManifestClassification` | scripts/analytics.js:97-106 | an unreadable, unparseable or null one gives `node`; otherwise a truthy `dependencies.react` gives `react`, then a truthy `dependencies.vue` gives `vue`, else `node` |
| `AnalyticsProperties.DevDependenciesIgnored` | scripts/analytics.js:100-101 | replacing `devDependencies` never changes the telemetry project type |
| `Analytics.MergeProperties` | scripts/analytics.js:50-59 | the sent properties are the caller's keys plus the four derived keys; the derived values win on collision and every other caller key keeps its value |
| `AnalyticsProperties.TrackGate` | scripts/analytics.js:43-60 | nothing is built, sent or written exactly when the settings parse to a non-null value whose `analytics.enabled` is not truthy; otherwise the envelope carries the caller's event and the merged properties |
| `AnalyticsProperties.SettingsFailureTracks` | scripts/analytics.js:46-48 | missing, unreadable, malformed or null settings never stop tracking |
| `AnalyticsProperties.SettingsFlagDecides` | scripts/analytics.js:45 | for a settings object with any other keys: `analytics.enabled: false` stops tracking, `true` allows it, and a missing or non-object `analytics` or a missing flag stops it too |
| `Analytics.Hex` | scripts/analytics.js:25 | hex encoding gives two lowercase hex digits per byte |
| `AnalyticsProperties.HexRoundTrip` | scripts/analytics.js:25 | reading the hex id back gives the random bytes it was made from |
| `AnalyticsProperties.HexInjective` | scripts/analytics.js:25 | different random bytes give different ids |
| `Analytics.GetAnonymousId` | scripts/analytics.js:18-36 | returns the id and leaves the files that `AnonymousId` gives: the stored id, or a fresh one whose record is written unless the write throws |
| `AnalyticsProperties.StoredIdIsReadOnly` | scripts/analytics.js:19-22 | when the metrics file reads and parses (and is not null), its `anonymousId` is returned and nothing is written |
| `AnalyticsProperties.FreshIdShape` | scripts/analytics.js:23-35 | otherwise the id is 32 lowercase hex characters spelling the random bytes; `{anonymousId, created}` is stored unless the write throws, and the id is returned either way |
| `AnalyticsProperties.SecondCallReusesId` | scripts/analytics.js:18-36 | once a fresh id has been stored, the next call returns the same id and writes nothing, whatever its own random bytes and clock |
| `Analytics.TrackEvent` | scripts/analytics.js:41-82 | the script's `trackEvent` sends and writes what `Track` gives: the settings gate, then the merged properties and the anonymous id |
| `Analytics.TrackPatternEffectiveness` | scripts/analytics.js:118-124 | tracks `pattern_effectiveness` with pattern, effectiveness and the telemetry project type as context |
| `Analytics.TrackCommandUsage` | scripts/analytics.js:129-134 | tracks `command_usage` with the command and `success: true` |
| `AnalyticsProperties.CommandDispatch` | scripts/analytics.js:167-183 | `report` shows the report; `track` tracks `argv[3]` with `argv[4]` parsed, or `{}` when it is missing or empty; anything else prints the usage |
| `Analytics.RunCli` | scripts/analytics.js:167-183 | only the `track` command touches the files or sends; unparseable `track` properties end the process before anything is tracked |
| `Divergence.EnvironmentCopies` | scripts/analytics.js:87-91 | the copies' environments agree, except that the installer's `devcontainer` is `local` for telemetry |
| `Divergence.ProjectTypeRanges` | scripts/analytics.js:96-113 | the telemetry copy never gives `java` or `generic`, and the installer never gives `unknown` |
| `Divergence.MarkerCopies` | scripts/analytics.js:108-112 | without `package.json`, the telemetry type is the installer's (with `java` and `generic` read as `unknown`) exactly when `requirements.txt` is present or neither `setup.py` nor `pyproject.toml` is |
| `Divergence.DevcontainerOnly` | scripts/analytics.js:87-91 | with only VSCODE_REMOTE_CONTAINERS set, the installer says `devcontainer` and telemetry `local` |
| `Divergence.PomOnly` | scripts/analytics.js:108-112 | `pom.xml` alone is `java` for the installer and `unknown` for telemetry |
| `Divergence.EmptyDirectory` | scripts/analytics.js:108-113 | an empty directory is `generic` for the installer and `unknown` for telemetry |
| `Divergence.SetupPyAlone` | website/install.js:61 | `setup.py` alone is `python` for the installer and `unknown` for telemetry |
| `Divergence.ManifestCopies` | scripts/analytics.js:97-105 | on a parsed non-null manifest the copies agree exactly when the installer's react test (react or react-dom, `devDependencies` winning) equals the telemetry's `dependencies.react` test and, when neither says react, the two vue tests agree too |
| `Divergence.DevDependencyOnly` | website/install.js:50-52 | react declared only in `devDependencies` is `react` for the installer and `node` for telemetry |
| `Divergence.ReactDomOnly` | website/install.js:52 | only `react-dom` in `dependencies` is `react` for the installer and `node` for telemetry |

## Left out

- The HTTPS transport is not modelled: `downloadFile`, `https.get` and `https.request`. A download is an oracle from URL to `Option<string>`, where `None` means a non-200 status or a transport error. The two fire-and-forget POSTs are returned as values (`InstallReport`, `Envelope`) instead of sent, and their responses and errors are never used.
- `JSON.parse` and `JSON.stringify` are parameters. The model keeps no key order in objects, and its numbers are integers (no fractions, NaN or -0).
- The clock is a parameter: `toISOString()` is an input string and `Date.now()` an integer. Analytics.Track takes both `Date.now()` readings in one `trackEvent` call (the envelope's timestamp and the metrics record's `created`) as the same instant.
- `crypto.randomBytes(16)` is a parameter of type `RandomBytes` (16 bytes).
- `METRICS_FILE` is a parameter (`Host.metricsPath`). Its resolution from HOME or USERPROFILE through `path.join`, and the throw when both are unset, are not modelled.
- The file store has no directories. A path that exists but cannot be read as text (such as a directory named `package.json`) appears as a parse result of `None`, which leads to the same branch.
- Console output, colours, the static text of `generateReport` (shown only as the `Reported` result), the `require.main` guards and the mechanics of `process.exit` are not modelled.
- Installer.Install: a failed backup copy throws outside any `try` inside an async function. The model reports it as `BackupFailed` with exit code 1, which is what Node 15 and later do with an unhandled rejection. Older Node versions only warn.
- Installer.Install: the install POST (website/install.js:169-171) has no `'error'` listener. A transport failure after a successful write would therefore raise an uncaught `'error'` event and end the process with a non-zero code. Transport is not modelled, so `ExitCode` gives 0 for every installed run.
- Installer.Install: `async`/`await` is flattened into sequential steps. A telemetry request still in flight when the process exits is not modelled.
- JsValue.Get looks up only an object's own fields. Every key the scripts read is an identifier that is not an array index or a built-in property, so on other values it is `undefined`.
- FileSystem.FileStore.Write: only a failure when the file is opened is modelled, and it leaves the old content. `writeFileSync` opens with flag `'w'`, which truncates, so a write that fails after opening (a full disk) leaves the target empty or partial; the model does not capture that state, and `InstallerProperties.PlanWritesOnlyOnSuccess` inherits the gap.
- FileSystem.FileStore.Copy: a source that exists but cannot be read (website/install.js:110) is not modelled; the copy fails only when the source is missing or the destination is locked, and `InstallerProperties.PlanBackup` inherits the gap.
- JsValue.Spread: a string is indexed by Unicode code points, while JavaScript spreads UTF-16 code units, so a character outside the Basic Multilingual Plane gives one index key in the model and two (the surrogate halves) in the script. This reaches `Analytics.MergeProperties` when the command line passes a JSON string as the properties (scripts/analytics.js:176-177).
