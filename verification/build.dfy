/** `buildPackage`, `buildTsc` and `bunBuild`: clean, build, then optionally emit declarations. */
module Orchestrator {
  import opened Wrappers
  import opened Seqs
  import opened BuildOptions
  import opened Discovery
  import opened BundleConfig
  import OutputCleaner

  /** The `name` and `version` fields of package.json, when present. */
  datatype Manifest = Manifest(name: Option<string>, version: Option<string>)

  /** What the bundler reports: a success flag and its diagnostics. */
  datatype BundleResult = BundleResult(success: bool, logs: seq<string>)

  /** Everything the build reads from outside: file system, glob, path joining, manifest, bundler and tsc. */
  datatype World = World(
    outEntries: set<string>,                        // entries currently under the output directory
    listOutput: seq<string> -> seq<string>,         // fast-glob over the output directory
    findSources: (string, seq<string>) -> seq<string>, // fast-glob with `cwd` set to the source directory
    join: (string, string) -> string,               // path.join
    manifest: Manifest,
    bundler: BuildConfig -> BundleResult,
    tscExit: int,
    tscStdout: string,
    tscStderr: string)

  /** Why a run stopped. */
  datatype Failure =
    | InvalidMode(mode: string)   // thrown
    | NoSourceFiles               // process.exit(1)
    | MissingName                 // process.exit(1)
    | MissingVersion              // process.exit(1)
    | BundleFailed                // process.exit(1)
    | TscFailed(code: int)        // thrown

  /** Failures raised with `throw`, which `bunBuild`'s catch reports before exiting. */
  predicate Thrown(f: Failure)
  {
    f.InvalidMode? || f.TscFailed?
  }

  datatype Outcome = Success | Failed(reason: Failure)

  function ExitCode(o: Outcome): int
  {
    if o.Success? then 0 else 1
  }

  /** The external calls a run makes, in order. */
  datatype Call =
    | Clean(outDir: string)
    | Discover(cwd: string, patterns: seq<string>)
    | Bundle(config: BuildConfig)
    | Tsc(srcDir: string, outDir: string)

  /** What a run prints, one entry per console call. */
  datatype Line =
    | Cleared(outDir: string)
    | NoTsFiles
    | MissingNameField
    | MissingVersionField
    | BuildSucceeded(name: string, version: string)
    | BuildFailed(name: string, version: string)
    | BundlerLog(message: string)
    | BuildingTypeScript
    | TscStdout(text: string)
    | TscStderr(text: string)
    | TypeScriptCompleted
    | BuildFailedWith(error: Failure)

  /** A manifest field is usable when present and non-empty. */
  predicate Present(field: Option<string>)
  {
    field.Some? && field.value != ""
  }

  /** What the source glob finds for these options. */
  function Sources(opts: Options, w: World): seq<string>
  {
    w.findSources(opts.src, GlobPatterns(opts.ignore))
  }

  /** The configuration the bundler receives for these options. */
  function PackageConfig(opts: Options, w: World): BuildConfig
  {
    ConfigFor(Resolve(opts), Entrypoints(w.join, opts.src, Sources(opts, w)))
  }

  /** Every check before the bundler call passes. */
  predicate ReadyToBundle(opts: Options, w: World)
  {
    ValidMode(opts.mode) && Sources(opts, w) != [] &&
    Present(w.manifest.name) && Present(w.manifest.version)
  }

  predicate PackageBuilds(opts: Options, w: World)
  {
    ReadyToBundle(opts, w) && w.bundler(PackageConfig(opts, w)).success
  }

  /** The declaration-emission gate of `bunBuild`. */
  function ShouldBuildTsc(mode: Option<string>, tsc: Option<bool>): (run: bool)
    ensures tsc == Some(true) ==> run
    ensures tsc == Some(false) ==> !run
    ensures tsc.None? ==> (run <==> mode.Some?)
  {
    if mode.Some? then tsc != Some(false) else tsc == Some(true)
  }

  /** The whole run ends well: the package builds and tsc, when run, exits 0. */
  predicate RunSucceeds(opts: Options, w: World)
  {
    PackageBuilds(opts, w) && (ShouldBuildTsc(opts.mode, opts.tsc) ==> w.tscExit == 0)
  }

  // ---------------------------------------------------------------------------
  // What `buildPackage` does, step by step, as functions of the options and the world.

  /** The checks of `buildPackage`, in the order they run. */
  function PackageOutcome(opts: Options, w: World): Outcome
  {
    if !ValidMode(opts.mode) then Failed(InvalidMode(opts.mode.value))
    else if Sources(opts, w) == [] then Failed(NoSourceFiles)
    else if !Present(w.manifest.name) then Failed(MissingName)
    else if !Present(w.manifest.version) then Failed(MissingVersion)
    else if !w.bundler(PackageConfig(opts, w)).success then Failed(BundleFailed)
    else Success
  }

  /** The external calls of `buildPackage`: discovery once the mode is accepted, the bundler once every check passed. */
  function PackageCalls(opts: Options, w: World): seq<Call>
  {
    if !ValidMode(opts.mode) then []
    else if !ReadyToBundle(opts, w) then [Discover(opts.src, GlobPatterns(opts.ignore))]
    else [Discover(opts.src, GlobPatterns(opts.ignore)), Bundle(PackageConfig(opts, w))]
  }

  /** What `buildPackage` prints. */
  function PackageLog(opts: Options, w: World): seq<Line>
  {
    if !ValidMode(opts.mode) then []
    else if Sources(opts, w) == [] then [NoTsFiles]
    else if !Present(w.manifest.name) then [MissingNameField]
    else if !Present(w.manifest.version) then [MissingVersionField]
    else
      var result := w.bundler(PackageConfig(opts, w));
      if result.success then [BuildSucceeded(w.manifest.name.value, w.manifest.version.value)]
      else [BuildFailed(w.manifest.name.value, w.manifest.version.value)] + Map(m => BundlerLog(m), result.logs)
  }

  /** What `buildTsc` prints: its banner, tsc's non-empty output, and the completion line on exit code 0. */
  function TscLog(w: World): seq<Line>
  {
    [BuildingTypeScript]
    + (if w.tscStdout != "" then [TscStdout(w.tscStdout)] else [])
    + (if w.tscStderr != "" then [TscStderr(w.tscStderr)] else [])
    + (if w.tscExit == 0 then [TypeScriptCompleted] else [])
  }

  // ---------------------------------------------------------------------------
  // The whole of `bunBuild`.

  function RunOutcome(opts: Options, w: World): Outcome
  {
    if PackageOutcome(opts, w).Failed? then PackageOutcome(opts, w)
    else if ShouldBuildTsc(opts.mode, opts.tsc) && w.tscExit != 0 then Failed(TscFailed(w.tscExit))
    else Success
  }

  function RunCalls(opts: Options, w: World): seq<Call>
  {
    [Clean(opts.out)] + PackageCalls(opts, w)
    + (if PackageOutcome(opts, w) == Success && ShouldBuildTsc(opts.mode, opts.tsc) then [Tsc(opts.src, opts.out)] else [])
  }

  function RunLog(opts: Options, w: World): seq<Line>
  {
    var built := PackageOutcome(opts, w);
    [Cleared(opts.out)] + PackageLog(opts, w)
    + (if built.Failed? then (if Thrown(built.reason) then [BuildFailedWith(built.reason)] else [])
       else if !ShouldBuildTsc(opts.mode, opts.tsc) then []
       else TscLog(w) + (if w.tscExit != 0 then [BuildFailedWith(TscFailed(w.tscExit))] else []))
  }

  // ---------------------------------------------------------------------------
  // The methods, in the order the source runs them.

  /** `buildPackage`: validate, discover, read the manifest, configure and call the bundler. */
  method BuildPackage(opts: Options, w: World) returns (res: Outcome, calls: seq<Call>, log: seq<Line>)
    ensures res == PackageOutcome(opts, w)
    ensures calls == PackageCalls(opts, w)
    ensures log == PackageLog(opts, w)
  {
    var r := Resolve(opts);
    if r.mode.Some? && r.mode.value != "" && r.mode.value != "lib" && r.mode.value != "bundle" {
      return Failed(InvalidMode(r.mode.value)), [], [];
    }
    var ignorePatterns: seq<string> := [];
    var safeIgnore := SafeIgnore(r.ignore);
    if |safeIgnore| > 0 {
      ignorePatterns := Exclusions(r.ignore);
    }
    var patterns := BasePatterns + ignorePatterns;
    assert patterns == GlobPatterns(opts.ignore);
    var entrypoints := w.findSources(r.src, patterns);
    calls := [Discover(r.src, patterns)];
    if |entrypoints| == 0 {
      return Failed(NoSourceFiles), calls, [NoTsFiles];
    }
    var fullEntrypoints := Entrypoints(w.join, r.src, entrypoints);
    var packageName := w.manifest.name;
    if !Present(packageName) {
      return Failed(MissingName), calls, [MissingNameField];
    }
    var packageVersion := w.manifest.version;
    if !Present(packageVersion) {
      return Failed(MissingVersion), calls, [MissingVersionField];
    }
    var buildConfig := ConfigFor(r, fullEntrypoints);
    calls := calls + [Bundle(buildConfig)];
    var result := w.bundler(buildConfig);
    if result.success {
      return Success, calls, [BuildSucceeded(packageName.value, packageVersion.value)];
    }
    log := ReportBuildFailure(packageName.value, packageVersion.value, result.logs);
    res := Failed(BundleFailed);
  }

  /** The failure branch of `buildPackage`: the failure line, then every bundler message in order. */
  method ReportBuildFailure(name: string, version: string, logs: seq<string>) returns (log: seq<Line>)
    ensures log == [BuildFailed(name, version)] + Map(m => BundlerLog(m), logs)
  {
    log := [BuildFailed(name, version)];
    var i := 0;
    while i < |logs|
      invariant 0 <= i <= |logs|
      invariant log == [BuildFailed(name, version)] + Map(m => BundlerLog(m), logs[..i])
    {
      MapSnoc(m => BundlerLog(m), logs[..i], logs[i]);
      assert logs[..i + 1] == logs[..i] + [logs[i]];
      log := log + [BundlerLog(logs[i])];
      i := i + 1;
    }
    assert logs[..i] == logs;
  }

  /** `buildTsc`: runs tsc for declarations only, forwards its output and fails on a non-zero exit. */
  method BuildTsc(w: World) returns (err: Option<Failure>, log: seq<Line>)
    ensures err == if w.tscExit != 0 then Some(TscFailed(w.tscExit)) else None
    ensures log == TscLog(w)
  {
    log := [BuildingTypeScript];
    if w.tscStdout != "" {
      log := log + [TscStdout(w.tscStdout)];
    }
    if w.tscStderr != "" {
      log := log + [TscStderr(w.tscStderr)];
    }
    if w.tscExit != 0 {
      return Some(TscFailed(w.tscExit)), log;
    }
    log := log + [TypeScriptCompleted];
    err := None;
  }

  /**
   * `bunBuild`: clean the output directory, build the package, then emit
   * declarations if the gate allows; a thrown error is reported before the
   * process exits. `left` is the output directory after cleaning.
   */
  method BunBuild(opts: Options, w: World) returns (outcome: Outcome, calls: seq<Call>, log: seq<Line>, left: set<string>)
    ensures outcome == RunOutcome(opts, w)
    ensures calls == RunCalls(opts, w)
    ensures log == RunLog(opts, w)
    ensures left == w.outEntries - OutputCleaner.Swept(w.outEntries, w.listOutput(OutputCleaner.CleanPatterns(opts.out)))
  {
    calls := [Clean(opts.out)];
    var removed;
    left, removed := OutputCleaner.CleanDist(w.outEntries, w.listOutput(OutputCleaner.CleanPatterns(opts.out)));
    log := [Cleared(opts.out)];

    var res, packageCalls, packageLog := BuildPackage(opts, w);
    calls := calls + packageCalls;
    log := log + packageLog;
    if res.Failed? {
      if Thrown(res.reason) {
        log := log + [BuildFailedWith(res.reason)];
      }
      return res, calls, log, left;
    }

    var shouldBuildTsc := false;
    if opts.mode.Some? {
      // with a mode, declarations are emitted unless tsc is explicitly false
      shouldBuildTsc := opts.tsc != Some(false);
    } else {
      // without a mode, only an explicit true emits them
      shouldBuildTsc := opts.tsc == Some(true);
    }

    if shouldBuildTsc {
      calls := calls + [Tsc(opts.src, opts.out)];
      var err, tscLog := BuildTsc(w);
      log := log + tscLog;
      if err.Some? {
        log := log + [BuildFailedWith(err.value)];
        return Failed(err.value), calls, log, left;
      }
    }
    outcome := Success;
  }

  // ---------------------------------------------------------------------------
  // What a run promises.

  /** An unknown mode fails before anything but the clean step: no discovery, no bundler, no tsc. */
  lemma InvalidModeStopsEarly(opts: Options, w: World)
    requires !ValidMode(opts.mode)
    ensures RunOutcome(opts, w) == Failed(InvalidMode(opts.mode.value))
    ensures RunCalls(opts, w) == [Clean(opts.out)]
    ensures RunLog(opts, w) == [Cleared(opts.out), BuildFailedWith(InvalidMode(opts.mode.value))]
  {
  }

  /** The bundler is called exactly when every check passed, and then with the derived configuration. */
  lemma BundlerCalledOnlyWhenReady(opts: Options, w: World, c: BuildConfig)
    ensures Bundle(c) in RunCalls(opts, w) <==> ReadyToBundle(opts, w) && c == PackageConfig(opts, w)
  {
  }

  /** No source file found: the run fails and neither the bundler nor tsc runs. */
  lemma NoSourcesNoBundle(opts: Options, w: World)
    requires ValidMode(opts.mode) && Sources(opts, w) == []
    ensures RunOutcome(opts, w) == Failed(NoSourceFiles)
    ensures RunCalls(opts, w) == [Clean(opts.out), Discover(opts.src, GlobPatterns(opts.ignore))]
  {
  }

  /** A missing or empty manifest name or version fails the run before the bundler. */
  lemma ManifestChecked(opts: Options, w: World)
    requires ValidMode(opts.mode) && Sources(opts, w) != []
    requires !Present(w.manifest.name) || !Present(w.manifest.version)
    ensures RunOutcome(opts, w) == if !Present(w.manifest.name) then Failed(MissingName) else Failed(MissingVersion)
    ensures RunCalls(opts, w) == [Clean(opts.out), Discover(opts.src, GlobPatterns(opts.ignore))]
    ensures ExitCode(RunOutcome(opts, w)) == 1
  {
  }

  /** The package build succeeds exactly when every check passes and the bundler reports success. */
  lemma PackageOutcomeSuccess(opts: Options, w: World)
    ensures PackageOutcome(opts, w) == Success <==> PackageBuilds(opts, w)
  {
  }

  /** Declarations are emitted exactly when the package built and the gate is open. */
  lemma TscRunsWhenGated(opts: Options, w: World)
    ensures Tsc(opts.src, opts.out) in RunCalls(opts, w) <==> PackageBuilds(opts, w) && ShouldBuildTsc(opts.mode, opts.tsc)
  {
  }

  /** When tsc runs, it is the last call, after clean, discovery and the bundler. */
  lemma TscRunsLast(opts: Options, w: World)
    requires PackageBuilds(opts, w) && ShouldBuildTsc(opts.mode, opts.tsc)
    ensures RunCalls(opts, w) == [Clean(opts.out), Discover(opts.src, GlobPatterns(opts.ignore)),
                                  Bundle(PackageConfig(opts, w)), Tsc(opts.src, opts.out)]
  {
  }

  /** The run exits 0 exactly when the package builds and tsc, if it ran, exited 0; a failing tsc is reported with its code. */
  lemma RunExitCode(opts: Options, w: World)
    ensures ExitCode(RunOutcome(opts, w)) == 0 <==> RunSucceeds(opts, w)
    ensures PackageBuilds(opts, w) && ShouldBuildTsc(opts.mode, opts.tsc) && w.tscExit != 0 ==>
              RunOutcome(opts, w) == Failed(TscFailed(w.tscExit)) &&
              RunLog(opts, w)[|RunLog(opts, w)| - 1] == BuildFailedWith(TscFailed(w.tscExit))
  {
  }

  /** A successful run prints its success line exactly once. */
  lemma SuccessLoggedOnce(opts: Options, w: World)
    requires RunOutcome(opts, w) == Success
    ensures multiset(RunLog(opts, w))[BuildSucceeded(w.manifest.name.value, w.manifest.version.value)] == 1
  {
    var line := BuildSucceeded(w.manifest.name.value, w.manifest.version.value);
    var tail := if ShouldBuildTsc(opts.mode, opts.tsc) then TscLog(w) else [];
    assert PackageLog(opts, w) == [line];
    assert RunLog(opts, w) == [Cleared(opts.out)] + [line] + tail;
    assert line !in tail;
    OccursOnce([Cleared(opts.out)], line, tail);
  }

  /** A bundler failure prints the failure line and then every diagnostic, in order. */
  lemma BundleFailureLogged(opts: Options, w: World)
    requires ReadyToBundle(opts, w) && !PackageBuilds(opts, w)
    ensures RunOutcome(opts, w) == Failed(BundleFailed)
    ensures var logs := w.bundler(PackageConfig(opts, w)).logs;
            var log := RunLog(opts, w);
            |log| == 2 + |logs| &&
            log[1] == BuildFailed(w.manifest.name.value, w.manifest.version.value) &&
            forall k :: 0 <= k < |logs| ==> log[k + 2] == BundlerLog(logs[k])
  {
  }
}
