/** The command-line entry point: flags to `Options`, the help and conflict exits, then `bunBuild`. */
module Cli {
  import opened Wrappers
  import opened Seqs
  import opened BuildOptions
  import opened BundleConfig
  import opened Orchestrator

  /** The flags as the argument parser hands them over, every default already applied. */
  datatype Flags = Flags(
    help: bool,
    lib: bool,
    bundle: bool,
    target: string,
    src: string,
    ignore: Option<string>,
    out: string,
    tsc: bool,
    naming: string,
    format: string,
    splitting: bool,
    external: string,
    sourcemap: string,
    minify: bool)

  /** The parser's defaults: what a run with no recognised flag sees. */
  const Defaults := Flags(
    help := false, lib := false, bundle := false, target := "bun", src := "src",
    ignore := None, out := "out", tsc := true, naming := "[dir]/[name].mjs",
    format := "esm", splitting := true, external := "*", sourcemap := "none", minify := false)

  /** `--lib` wins, then `--bundle`; with neither there is no mode. */
  function DeriveMode(f: Flags): (mode: Option<string>)
    ensures mode == Some("lib") <==> f.lib
    ensures mode == Some("bundle") <==> !f.lib && f.bundle
    ensures mode.None? <==> !f.lib && !f.bundle
  {
    if f.lib then Some("lib") else if f.bundle then Some("bundle") else None
  }

  function IgnoreOption(ignore: Option<string>): Ignore
  {
    match ignore
    case None => Unset
    case Some(p) => One(p)
  }

  /** The `Options` literal built from the flags; `external` is wrapped into a one-element list. */
  function ToOptions(f: Flags): Options
  {
    Options(
      mode := DeriveMode(f), src := f.src, ignore := IgnoreOption(f.ignore), out := f.out,
      tsc := Some(f.tsc), target := Some(f.target), naming := Some(f.naming),
      format := Some(f.format), splitting := Some(f.splitting), external := Some([f.external]),
      sourcemap := Some(f.sourcemap), minify := Some(f.minify))
  }

  /** What the entry point prints. */
  datatype Printed = Usage | BothModesError | Report(line: Line) | BuildComplete

  /**
   * The `import.meta.main` block: `args` are the raw arguments, `parse` the
   * argument parser. Returns the exit code, the external calls and the output.
   */
  method RunCli(args: seq<string>, parse: seq<string> -> Flags, w: World)
    returns (code: int, calls: seq<Call>, printed: seq<Printed>)
    ensures args == [] ==> code == 0 && calls == [] && printed == [Usage]
    ensures args != [] && parse(args).help ==> code == 0 && calls == [] && printed == [Usage]
    ensures args != [] && !parse(args).help && parse(args).lib && parse(args).bundle ==>
              code == 1 && calls == [] && printed == [BothModesError]
    ensures args != [] && !parse(args).help && !(parse(args).lib && parse(args).bundle) ==>
              var opts := ToOptions(parse(args));
              calls == RunCalls(opts, w) &&
              code == ExitCode(RunOutcome(opts, w)) &&
              printed == Map(l => Report(l), RunLog(opts, w)) + (if code == 0 then [BuildComplete] else [])
  {
    if |args| == 0 {
      return 0, [], [Usage];
    }
    var options := parse(args);
    if options.help {
      return 0, [], [Usage];
    }
    if options.lib && options.bundle {
      // thrown outside any try block: the process ends with status 1
      return 1, [], [BothModesError];
    }
    var opts := ToOptions(options);
    var outcome, runCalls, log, left := BunBuild(opts, w);
    calls := runCalls;
    printed := Map(l => Report(l), log);
    if outcome.Failed? {
      // bunBuild has already exited the process with status 1
      return 1, calls, printed;
    }
    printed := printed + [BuildComplete];
    code := 0;
  }

  /** Every flag value reaches the resolved options unchanged: none of `buildPackage`'s defaults applies. */
  lemma FlagsResolveUnchanged(f: Flags)
    ensures var r := Resolve(ToOptions(f));
            r.mode == DeriveMode(f) && r.src == f.src && r.out == f.out &&
            r.target == f.target && r.naming == f.naming && r.format == f.format &&
            r.splitting == f.splitting && r.external == [f.external] &&
            r.sourcemap == f.sourcemap && r.minify == f.minify &&
            r.ignore == (if f.ignore.None? then Unset else One(f.ignore.value))
    ensures ToOptions(f).tsc == Some(f.tsc)
  {
  }

  /** The command line can never produce an invalid mode. */
  lemma CliModeValid(f: Flags)
    ensures ValidMode(ToOptions(f).mode)
  {
  }

  /** From the command line, declarations are emitted exactly when `--tsc` is on, whatever the mode. */
  lemma CliTscGate(f: Flags)
    ensures ShouldBuildTsc(ToOptions(f).mode, ToOptions(f).tsc) == f.tsc
  {
  }

  /**
   * With the parser's defaults there is no mode: the bundler gets target "bun",
   * no minification, and declarations are emitted.
   */
  lemma DefaultInvocation(entrypoints: seq<string>)
    ensures ToOptions(Defaults).mode.None?
    ensures ConfigFor(Resolve(ToOptions(Defaults)), entrypoints) ==
              BuildConfig(root := "src", entrypoints := entrypoints, outdir := "out",
                          naming := "[dir]/[name].mjs", external := ["*"], format := "esm",
                          splitting := true, sourcemap := "none", minify := false, target := Some("bun"))
    ensures ShouldBuildTsc(ToOptions(Defaults).mode, ToOptions(Defaults).tsc)
  {
  }
}
