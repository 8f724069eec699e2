/**
  The decision layer of the telemetry script (scripts/analytics.js): its own
  copy of the classifiers, the settings gate, the anonymous id read from or
  persisted to the metrics file, the event envelope and the command line.
 */
module Analytics {
  import opened JsValue
  import opened Workspace
  import opened FileSystem

  const Version := "1.0.0"
  const SettingsPath := ".claude/settings.json"

  // ---------------------------------------------------------------------------
  // Classification (this file's own copy)

  /** The hosted-workspace variables, in the order this copy tests them. */
  const EnvironmentRules: seq<(string, Environment)> :=
    [("CODESPACES", Codespaces), ("GITPOD_WORKSPACE_ID", Gitpod)]

  /** The marker files tested when there is no `package.json`, in order. */
  const MarkerRules: seq<(seq<string>, ProjectType)> :=
    [(["requirements.txt"], Python), (["go.mod"], Go), (["Cargo.toml"], Rust)]

  function DetectEnvironment(env: map<string, string>): Environment
  {
    if IsSet(env, "CODESPACES") then Codespaces
    else if IsSet(env, "GITPOD_WORKSPACE_ID") then Gitpod
    else Local
  }

  /** The classification of an existing `package.json`, parsed or not. */
  function ManifestType(manifest: Option<Json>): ProjectType
  {
    match manifest
    case None => Node             // reading or parsing threw
    case Some(Null) => Node       // `null.dependencies` threw
    case Some(pkg) =>
      if Truthy(Chain(Get(pkg, "dependencies"), "react")) then React
      else if Truthy(Chain(Get(pkg, "dependencies"), "vue")) then Vue
      else Node
  }

  function DetectProjectType(s: Snapshot): ProjectType
  {
    if Manifest in s.present then ManifestType(s.manifest)
    else if "requirements.txt" in s.present then Python
    else if "go.mod" in s.present then Go
    else if "Cargo.toml" in s.present then Rust
    else Unknown
  }

  // ---------------------------------------------------------------------------
  // Settings gate

  /** `.claude/settings.json` as parsed; `None` when reading or parsing throws. */
  function SettingsOf(files: map<string, string>, parse: string -> Option<Json>): Option<Json>
  {
    if SettingsPath in files then parse(files[SettingsPath]) else None
  }

  /**
    Whether `trackEvent` goes past its settings check: it returns early when
    the settings parse and `settings.analytics?.enabled` is not truthy; a
    throw (no file, bad JSON, `null.analytics`) is caught and tracking goes on.
   */
  function TrackingEnabled(settings: Option<Json>): bool
  {
    match settings
    case None => true
    case Some(Null) => true
    case Some(v) => Truthy(Chain(Get(v, "analytics"), "enabled"))
  }

  // ---------------------------------------------------------------------------
  // Anonymous id

  newtype byte = x: int | 0 <= x < 256

  /** What `crypto.randomBytes(16)` returns. */
  type RandomBytes = b: seq<byte> | |b| == 16 witness seq(16, i => 0 as byte)

  predicate IsLowerHex(c: char)
  {
    '0' <= c <= '9' || 'a' <= c <= 'f'
  }

  function HexDigit(n: int): (c: char)
    requires 0 <= n < 16
    ensures IsLowerHex(c)
  {
    if n < 10 then ('0' as int + n) as char else ('a' as int + n - 10) as char
  }

  function DigitValue(c: char): (n: int)
    requires IsLowerHex(c)
    ensures 0 <= n < 16
  {
    if c <= '9' then c as int - '0' as int else c as int - 'a' as int + 10
  }

  /** `Buffer.toString('hex')`: two lowercase digits per byte, high nibble first. */
  function Hex(bytes: seq<byte>): (h: string)
    ensures |h| == 2 * |bytes|
    ensures forall i :: 0 <= i < |h| ==> IsLowerHex(h[i])
  {
    if bytes == [] then []
    else [HexDigit(bytes[0] as int / 16), HexDigit(bytes[0] as int % 16)] + Hex(bytes[1..])
  }

  /** Reading a lowercase hex string back into bytes. */
  function Unhex(h: string): seq<byte>
    requires |h| % 2 == 0
    requires forall i :: 0 <= i < |h| ==> IsLowerHex(h[i])
  {
    if h == [] then []
    else [(DigitValue(h[0]) * 16 + DigitValue(h[1])) as byte] + Unhex(h[2..])
  }

  /** The record `getAnonymousId` stores: `{ anonymousId, created }`. */
  function MetricsRecord(id: string, created: int): Json
  {
    Obj(map["anonymousId" := Str(id), "created" := Num(created)])
  }

  /**
    `metrics.anonymousId` read from the metrics file at `path`: `None` when
    reading, parsing or the property access (on `null`) throws, otherwise the
    property, which may be `undefined`.
   */
  function StoredId(files: map<string, string>, path: string, parse: string -> Option<Json>): Option<Option<Json>>
  {
    if path !in files then None
    else match parse(files[path])
      case None => None
      case Some(Null) => None
      case Some(metrics) => Some(Get(metrics, "anonymousId"))
  }

  /**
    The id `getAnonymousId` returns and the files it leaves: the stored id
    with nothing written, or else a fresh hex id whose record is written where
    the write does not throw.
   */
  function AnonymousId(files: map<string, string>, locked: set<string>, path: string,
                       parse: string -> Option<Json>, stringify: Json -> string,
                       random: RandomBytes, now: int): (Option<Json>, map<string, string>)
  {
    match StoredId(files, path, parse)
    case Some(stored) => (stored, files)
    case None =>
      var id := Hex(random);
      (Some(Str(id)), if path in locked then files else files[path := stringify(MetricsRecord(id, now))])
  }

  /**
    The process's context: the environment variables, the metrics file path
    (`$HOME/.claude-metrics.json`), the clock, the random bytes, and
    `JSON.parse`/`JSON.stringify`.
   */
  datatype Host = Host(env: map<string, string>, metricsPath: string, now: int, random: RandomBytes,
                       parse: string -> Option<Json>, stringify: Json -> string)

  method GetAnonymousId(fs: FileStore, host: Host) returns (id: Option<Json>)
    modifies fs
    ensures (id, fs.files) == AnonymousId(old(fs.files), fs.locked, host.metricsPath, host.parse,
                                          host.stringify, host.random, host.now)
  {
    var metrics := if fs.Exists(host.metricsPath) then host.parse(fs.files[host.metricsPath]) else None;
    if metrics.Some? && metrics.value != Null {
      id := Get(metrics.value, "anonymousId");
    } else {
      var generated := Hex(host.random);
      var persisted := fs.Write(host.metricsPath, host.stringify(MetricsRecord(generated, host.now)));
      // a failed write is ignored
      id := Some(Str(generated));
    }
  }

  // ---------------------------------------------------------------------------
  // Event envelope

  /** What `trackEvent` sends: `{ event, properties, anonymousId }`. */
  datatype Envelope = Envelope(event: Option<string>, properties: map<string, Json>, anonymousId: Option<Json>)

  const DerivedKeys: set<string> := {"version", "timestamp", "environment", "projectType"}

  /**
    `{ ...properties, version, timestamp, environment, projectType }`: the
    derived fields are set last, so they replace caller keys of the same name;
    every other caller key is kept as it was.
   */
  function MergeProperties(properties: Json, now: int, e: Environment, t: ProjectType): (m: map<string, Json>)
    ensures m.Keys == Spread(Some(properties)).Keys + DerivedKeys
    ensures m["version"] == Str(Version) && m["timestamp"] == Num(now)
    ensures m["environment"] == Str(EnvironmentName(e)) && m["projectType"] == Str(TypeName(t))
    ensures forall k :: k in Spread(Some(properties)) && k !in DerivedKeys ==> m[k] == Spread(Some(properties))[k]
  {
    Spread(Some(properties))
      + map["version" := Str(Version), "timestamp" := Num(now),
            "environment" := Str(EnvironmentName(e)), "projectType" := Str(TypeName(t))]
  }

  /** The reference meaning of `trackEvent`: what is sent (if anything) and the files it leaves. */
  function Track(files: map<string, string>, locked: set<string>, host: Host,
                 event: Option<string>, properties: Json): (Option<Envelope>, map<string, string>)
  {
    if !TrackingEnabled(SettingsOf(files, host.parse)) then (None, files)
    else
      var s := SnapshotOf(files, host.env, host.parse);
      var merged := MergeProperties(properties, host.now, DetectEnvironment(host.env), DetectProjectType(s));
      var (id, written) := AnonymousId(files, locked, host.metricsPath, host.parse, host.stringify, host.random, host.now);
      (Some(Envelope(event, merged, id)), written)
  }

  /** `trackEvent(event, properties)`; `sent` is the body of the fire-and-forget `POST /track`. */
  method TrackEvent(fs: FileStore, host: Host, event: Option<string>, properties: Json) returns (sent: Option<Envelope>)
    modifies fs
    ensures (sent, fs.files) == Track(old(fs.files), fs.locked, host, event, properties)
  {
    var settings := if fs.Exists(SettingsPath) then host.parse(fs.files[SettingsPath]) else None;
    if settings.Some? && settings.value != Null && !Truthy(Chain(Get(settings.value, "analytics"), "enabled")) {
      sent := None;
      return;
    }
    var environment := DetectEnvironment(host.env);
    var projectType := DetectProjectType(SnapshotOf(fs.files, host.env, host.parse));
    var merged := MergeProperties(properties, host.now, environment, projectType);
    var id := GetAnonymousId(fs, host);
    sent := Some(Envelope(event, merged, id));
  }

  /** `trackPatternEffectiveness(pattern, effectiveness)` */
  method TrackPatternEffectiveness(fs: FileStore, host: Host, pattern: Json, effectiveness: Json)
    returns (sent: Option<Envelope>)
    modifies fs
    ensures var context := Str(TypeName(DetectProjectType(SnapshotOf(old(fs.files), host.env, host.parse))));
            var properties := Obj(map["pattern" := pattern, "effectiveness" := effectiveness, "context" := context]);
            (sent, fs.files) == Track(old(fs.files), fs.locked, host, Some("pattern_effectiveness"), properties)
  {
    var context := Str(TypeName(DetectProjectType(SnapshotOf(fs.files, host.env, host.parse))));
    sent := TrackEvent(fs, host, Some("pattern_effectiveness"),
                       Obj(map["pattern" := pattern, "effectiveness" := effectiveness, "context" := context]));
  }

  /** `trackCommandUsage(command)` */
  method TrackCommandUsage(fs: FileStore, host: Host, command: Json) returns (sent: Option<Envelope>)
    modifies fs
    ensures (sent, fs.files)
         == Track(old(fs.files), fs.locked, host, Some("command_usage"), Obj(map["command" := command, "success" := Bool(true)]))
  {
    sent := TrackEvent(fs, host, Some("command_usage"), Obj(map["command" := command, "success" := Bool(true)]));
  }

  // ---------------------------------------------------------------------------
  // Command line

  datatype Command =
    | ShowReport
    | TrackCommand(event: Option<string>, properties: Json)
    | BadProperties     // `JSON.parse(argv[4])` threw, uncaught
    | ShowUsage

  /** The `switch (process.argv[2])` of the script run directly; `parse` stands for `JSON.parse`. */
  function ParseCommand(argv: seq<string>, parse: string -> Option<Json>): Command
  {
    if |argv| <= 2 then ShowUsage
    else if argv[2] == "report" then ShowReport
    else if argv[2] == "track" then
      var event := if |argv| > 3 then Some(argv[3]) else None;
      if |argv| > 4 && argv[4] != "" then
        match parse(argv[4])
        case None => BadProperties
        case Some(p) => TrackCommand(event, p)
      else TrackCommand(event, Obj(map[]))
    else ShowUsage
  }

  datatype CliResult = Reported | Tracked(sent: Option<Envelope>) | Crashed | PrintedUsage

  method RunCli(fs: FileStore, host: Host, argv: seq<string>) returns (result: CliResult)
    modifies fs
    ensures match ParseCommand(argv, host.parse)
            case ShowReport => result == Reported && fs.files == old(fs.files)
            case ShowUsage => result == PrintedUsage && fs.files == old(fs.files)
            case BadProperties => result == Crashed && fs.files == old(fs.files)
            case TrackCommand(event, properties) =>
              result.Tracked? && (result.sent, fs.files) == Track(old(fs.files), fs.locked, host, event, properties)
  {
    var command := ParseCommand(argv, host.parse);
    match command {
      case ShowReport =>
        result := Reported;
      case TrackCommand(event, properties) =>
        var sent := TrackEvent(fs, host, event, properties);
        result := Tracked(sent);
      case BadProperties =>
        result := Crashed;
      case ShowUsage =>
        result := PrintedUsage;
    }
  }
}

/** What the telemetry script's decisions promise, proved about the functions of module Analytics. */
module AnalyticsProperties {
  import opened JsValue
  import opened Workspace
  import opened Analytics

  // ---------------------------------------------------------------------------
  // Classification

  /** This copy's `detectEnvironment` is the first-match order of its two rules, defaulting to `local`. */
  lemma {:induction false} EnvironmentFollowsPriority(env: map<string, string>)
    ensures DetectEnvironment(env) == ByPriority(EnvironmentRules, VariableSet(env), Local)
  {
    var holds := VariableSet(env);
    var rules := EnvironmentRules;
    ByPriorityStep(rules, holds, Local);
    assert rules[1..][1..] == rules[2..] == [];
    ByPriorityStep(rules[1..], holds, Local);
    ByPriorityEmpty(rules[2..], holds, Local);
  }

  /** `codespaces` beats `gitpod`; every other case is `local`, never `devcontainer`. */
  lemma EnvironmentCases(env: map<string, string>)
    ensures DetectEnvironment(env) == Codespaces <==> IsSet(env, "CODESPACES")
    ensures DetectEnvironment(env) == Gitpod <==> !IsSet(env, "CODESPACES") && IsSet(env, "GITPOD_WORKSPACE_ID")
    ensures DetectEnvironment(env) == Local <==> !IsSet(env, "CODESPACES") && !IsSet(env, "GITPOD_WORKSPACE_ID")
    ensures DetectEnvironment(env) != Devcontainer
  {
  }

  /** Without `package.json`, this copy's project type is the first-match order of its three rules, defaulting to `unknown`. */
  lemma {:induction false} MarkersFollowPriority(s: Snapshot)
    requires Manifest !in s.present
    ensures DetectProjectType(s) == ByPriority(MarkerRules, MarkerPresent(s.present), Unknown)
  {
    var holds := MarkerPresent(s.present);
    var rules := MarkerRules;
    var p := s.present;
    SingleMarker(p, "requirements.txt");
    SingleMarker(p, "go.mod");
    SingleMarker(p, "Cargo.toml");
    ByPriorityStep(rules, holds, Unknown);
    assert rules[1..][1..] == rules[2..];
    assert rules[2..][1..] == rules[3..] == [];
    ByPriorityStep(rules[1..], holds, Unknown);
    ByPriorityStep(rules[2..], holds, Unknown);
    ByPriorityEmpty(rules[3..], holds, Unknown);
  }

  lemma SingleMarker(p: set<string>, name: string)
    ensures AnyPresent(p, [name]) <==> name in p
  {
    if name in p { assert [name][0] in p; }
  }

  /**
    A manifest that cannot be read or parsed (or parses to `null`) gives
    `node`; otherwise a truthy `dependencies.react` gives `react`, then a
    truthy `dependencies.vue` gives `vue`, and everything else `node`.
   */
  lemma ManifestClassification(manifest: Option<Json>)
    ensures manifest.None? || manifest == Some(Null) ==> ManifestType(manifest) == Node
    ensures manifest.Some? && manifest.value != Null ==>
              var deps := Get(manifest.value, "dependencies");
              && (ManifestType(manifest) == React <==> Truthy(Chain(deps, "react")))
              && (ManifestType(manifest) == Vue <==> !Truthy(Chain(deps, "react")) && Truthy(Chain(deps, "vue")))
              && (ManifestType(manifest) == Node <==> !Truthy(Chain(deps, "react")) && !Truthy(Chain(deps, "vue")))
  {
  }

  /**
    An existing `package.json` decides the type whatever marker files sit
    beside it, and the answer is always `react`, `vue` or `node`.
   */
  lemma ManifestDecides(s: Snapshot)
    requires Manifest in s.present
    ensures DetectProjectType(s) == ManifestType(s.manifest)
    ensures DetectProjectType(s) in {React, Vue, Node}
  {
  }

  /** `devDependencies` is never consulted: replacing it changes nothing. */
  lemma DevDependenciesIgnored(fields: map<string, Json>, dev: Json)
    ensures ManifestType(Some(Obj(fields["devDependencies" := dev]))) == ManifestType(Some(Obj(fields)))
  {
    assert Get(Obj(fields["devDependencies" := dev]), "dependencies") == Get(Obj(fields), "dependencies");
  }

  // ---------------------------------------------------------------------------
  // Settings gate

  /**
    Nothing is built, sent or written when the settings parse to a non-null
    value whose `analytics.enabled` is not truthy; otherwise an envelope with
    the caller's event and the merged properties is sent.
   */
  lemma TrackGate(files: map<string, string>, locked: set<string>, host: Host, event: Option<string>, properties: Json)
    ensures var settings := SettingsOf(files, host.parse);
            var (sent, after) := Track(files, locked, host, event, properties);
            && (sent.None? <==> settings.Some? && settings.value != Null
                                && !Truthy(Chain(Get(settings.value, "analytics"), "enabled")))
            && (sent.None? ==> after == files)
            && (sent.Some? ==>
                  && sent.value.event == event
                  && sent.value.properties
                     == MergeProperties(properties, host.now, DetectEnvironment(host.env),
                                        DetectProjectType(SnapshotOf(files, host.env, host.parse))))
  {
  }

  /** A settings file that is missing, unreadable, malformed or `null` never stops tracking. */
  lemma SettingsFailureTracks(settings: Option<Json>)
    requires settings.None? || settings == Some(Null)
    ensures TrackingEnabled(settings)
  {
  }

  /**
    Whatever else the settings object holds: `analytics.enabled: false` stops
    tracking, `true` allows it, and a missing `analytics` object (absent or not
    an object) or a missing `enabled` flag stops it too.
   */
  lemma SettingsFlagDecides(fields: map<string, Json>)
    ensures ("analytics" in fields && fields["analytics"].Obj? && "enabled" in fields["analytics"].fields
             && fields["analytics"].fields["enabled"] == Bool(false))
            ==> !TrackingEnabled(Some(Obj(fields)))
    ensures ("analytics" in fields && fields["analytics"].Obj? && "enabled" in fields["analytics"].fields
             && fields["analytics"].fields["enabled"] == Bool(true))
            ==> TrackingEnabled(Some(Obj(fields)))
    ensures ("analytics" !in fields || !fields["analytics"].Obj? || "enabled" !in fields["analytics"].fields)
            ==> !TrackingEnabled(Some(Obj(fields)))
  {
  }

  // ---------------------------------------------------------------------------
  // Anonymous id

  /** The hex encoding is undone by reading it back. */
  lemma {:induction false} HexRoundTrip(bytes: seq<byte>)
    ensures Unhex(Hex(bytes)) == bytes
  {
    if bytes != [] {
      var h := Hex(bytes);
      assert h[2..] == Hex(bytes[1..]);
      HexRoundTrip(bytes[1..]);
      var b := bytes[0] as int;
      assert DigitValue(HexDigit(b / 16)) == b / 16;
      assert DigitValue(HexDigit(b % 16)) == b % 16;
    }
  }

  /** Different random bytes give different ids. */
  lemma HexInjective(a: seq<byte>, b: seq<byte>)
    ensures Hex(a) == Hex(b) ==> a == b
  {
    if Hex(a) == Hex(b) {
      HexRoundTrip(a);
      HexRoundTrip(b);
    }
  }

  /** A stored id is returned as it is, and nothing is written. */
  lemma StoredIdIsReadOnly(files: map<string, string>, locked: set<string>, path: string,
                           parse: string -> Option<Json>, stringify: Json -> string, random: RandomBytes, now: int)
    requires StoredId(files, path, parse).Some?
    ensures AnonymousId(files, locked, path, parse, stringify, random, now)
         == (StoredId(files, path, parse).value, files)
  {
  }

  /**
    Without a usable metrics file the id is 32 lowercase hex characters that
    spell the random bytes; the record holding it is written unless the write
    throws, and the id is returned either way.
   */
  lemma FreshIdShape(files: map<string, string>, locked: set<string>, path: string,
                     parse: string -> Option<Json>, stringify: Json -> string, random: RandomBytes, now: int)
    requires StoredId(files, path, parse).None?
    ensures var (id, after) := AnonymousId(files, locked, path, parse, stringify, random, now);
            && id.Some? && id.value.Str?
            && |id.value.s| == 32
            && (forall i :: 0 <= i < 32 ==> IsLowerHex(id.value.s[i]))
            && Unhex(id.value.s) == random
            && after == if path in locked then files else files[path := stringify(MetricsRecord(id.value.s, now))]
  {
    HexRoundTrip(random);
  }

  /**
    Once a fresh id has been stored (the write did not throw and the stored
    text parses back to the record), the next call returns that id and writes
    nothing, whatever its own random bytes and clock.
   */
  lemma SecondCallReusesId(files: map<string, string>, locked: set<string>, path: string,
                           parse: string -> Option<Json>, stringify: Json -> string,
                           random: RandomBytes, now: int, random2: RandomBytes, now2: int)
    requires StoredId(files, path, parse).None?
    requires path !in locked
    requires parse(stringify(MetricsRecord(Hex(random), now))) == Some(MetricsRecord(Hex(random), now))
    ensures var (id, after) := AnonymousId(files, locked, path, parse, stringify, random, now);
            AnonymousId(after, locked, path, parse, stringify, random2, now2) == (id, after)
  {
  }

  // ---------------------------------------------------------------------------
  // Command line

  /**
    `report` shows the report, `track` tracks `argv[3]` with `argv[4]` parsed
    (or `{}` when it is missing or empty), and anything else prints the usage.
   */
  lemma CommandDispatch(argv: seq<string>, parse: string -> Option<Json>)
    ensures ParseCommand(argv, parse) == ShowReport <==> |argv| > 2 && argv[2] == "report"
    ensures ParseCommand(argv, parse) == ShowUsage <==> |argv| <= 2 || (argv[2] != "report" && argv[2] != "track")
    ensures ParseCommand(argv, parse).TrackCommand? ==>
              ParseCommand(argv, parse).event == (if |argv| > 3 then Some(argv[3]) else None)
    ensures |argv| > 2 && argv[2] == "track" && (|argv| <= 4 || argv[4] == "") ==>
              ParseCommand(argv, parse).TrackCommand? && ParseCommand(argv, parse).properties == Obj(map[])
    ensures |argv| > 4 && argv[2] == "track" && argv[4] != "" ==>
              ParseCommand(argv, parse)
              == if parse(argv[4]).None? then BadProperties else TrackCommand(Some(argv[3]), parse(argv[4]).value)
  {
  }
}
