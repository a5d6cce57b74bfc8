# bun-build-tools: option resolution and build orchestration

A model of the logic around the external calls of `bun-build-tools`, a small
command-line wrapper that builds a TypeScript package with Bun's bundler.
The wrapper:

- turns command-line flags into an `Options` record;
- fills the documented defaults and rejects an unknown `mode`;
- turns the `ignore` option into exclusion globs after three fixed patterns;
- maps the discovered source files to bundler entry points;
- checks that package.json has a `name` and a `version`;
- applies the `lib`/`bundle` presets to the bundler configuration;
- runs the three external steps in order: clean the output directory
  (longest paths first), bundle, and optionally emit declarations with `tsc`.

Everything outside the process is an input. The `World` record holds the
output directory's entries, the two glob queries, `path.join`, the manifest
fields, the bundler's answer, and tsc's exit code and output. A run returns
its outcome (and so its exit code), the ordered list of external calls, and
what it printed, as structured log lines.

Modules:

- `Wrappers`: `Option`, for values that may be `undefined`.
- `Seqs`: `Array.prototype.map` as `Map`, with its counting lemmas.
- `BuildOptions`: `Options`, the defaults and the mode check.
- `Discovery`: ignore normalisation, glob patterns, entry points.
- `BundleConfig`: `baseConfig` and the mode presets.
- `OutputCleaner`: `cleanDist`.
- `Orchestrator`: `buildPackage`, `buildTsc` and `bunBuild`. Each is a method
  proved against specification functions (`PackageOutcome`, `RunCalls`,
  `RunLog`, …), and lemmas state what those functions promise.
- `Cli`: the `import.meta.main` block of `src/index.ts`.

Where the code and its documentation disagree, the model follows the code:

- **No default mode.** The help text and the `lib` field's doc comment call
  library mode the default. But `lib` defaults to false, so a run with
  neither `--lib` nor `--bundle` has no mode. It builds with target `"bun"`
  and the `minify` flag (`Cli.DefaultInvocation`).
- **The tsc policy.** With a mode, declarations are emitted unless `tsc` is
  explicitly false. Without a mode, they are emitted only when `tsc` is
  explicitly true. From the command line `tsc` is always a boolean, so the
  gate reduces to the `--tsc` flag whatever the mode (`Cli.CliTscGate`).
- **An empty mode string.** It is falsy, so it passes the mode check and gets
  the no-preset configuration. It still counts as a defined mode for the tsc
  gate.

## Model

| member | source | states |
|---|---|---|
| `Seqs.Map` | src/build.ts:137 | `map` yields one image per element, in the same order and with the same length |
| `Seqs.MapCount` | src/build.ts:154 | an injective `map` neither drops nor duplicates: each image occurs exactly as often as its preimage |
| `Seqs.MapSnoc` | src/build.ts:212-214 | mapping one more element appends exactly its image (the diagnostics loop prints in order) |
| `BuildOptions.Resolve` | src/build.ts:109-121 | every option is the supplied value, or otherwise its documented default ("esm", "bun", "[dir]/[name].mjs", true, ["*"], "none", false); mode, src, out and ignore pass through |
| `BuildOptions.ValidMode` | src/build.ts:123 | the mode check: an absent or empty mode, "lib" and "bundle" pass and any other string is rejected; what rejection does is stated by `Orchestrator.InvalidModeStopsEarly` and `Cli.CliModeValid` |
| `Discovery.KeepNonEmpty` | src/build.ts:133-134 | `filter(Boolean)` leaves no empty entry and keeps every non-empty string exactly as often as it occurred |
| `Discovery.KeepNonEmptyAppend` | src/build.ts:133 | the filter keeps order: it distributes over concatenation |
| `Discovery.KeepNonEmptyIdentity` | src/build.ts:133 | a list without empty entries is kept unchanged |
| `Discovery.SafeIgnore` | src/build.ts:129-134 | undefined gives no pattern; a string gives itself if non-empty and nothing if empty; a list gives its non-empty entries |
| `Discovery.Exclusions` | src/build.ts:127-138 | one exclusion per kept ignore entry, in order, each the entry prefixed by a single '!' |
| `Discovery.ExclusionCount` | src/build.ts:136-138 | `"!" + x` occurs in the exclusions exactly as often as `x` among the kept entries |
| `Discovery.ListExclusions` | src/build.ts:129-138 | for a list, each non-empty pattern yields as many exclusions as it occurs and an empty one none |
| `Discovery.GlobPatterns` | src/build.ts:140-145 | the pattern list is the three fixed patterns followed by the exclusions; its length is 3 plus the number of kept entries |
| `Discovery.Entrypoints` | src/build.ts:154 | entry points have the discovered files' length and order, each joined onto `src` |
| `Discovery.EntrypointsCount` | src/build.ts:147-154 | when joining is injective, no discovered file is dropped or duplicated among the entry points |
| `BundleConfig.BaseConfig` | src/build.ts:173-183 | `baseConfig`: the resolved options and the entry points with no target; its fields are stated by `BundleConfig.ConfigFor` |
| `BundleConfig.ApplyMode` | src/build.ts:185-204 | "lib" forces minify off and target "node"; "bundle" forces minify on and target "browser"; otherwise the raw target is used; nothing but minify and target changes |
| `BundleConfig.ConfigFor` | src/build.ts:173-204 | root, entry points, outdir, naming, external, format, splitting and sourcemap come from the resolved options; minify and target follow the mode as above |
| `BundleConfig.PresetIgnoresFlags` | src/build.ts:187-198 | under "lib" or "bundle" the supplied minify and target make no difference to the configuration |
| `OutputCleaner.CleanPatterns` | src/build.ts:95 | the glob for the output directory: everything below it, hidden entries included, but not the directory itself; the listing it yields is a parameter of `Orchestrator.BunBuild` |
| `OutputCleaner.Utf16Length` | src/build.ts:101 | `length` counts UTF-16 code units: between one and two per character, two for a character outside the Basic Multilingual Plane |
| `OutputCleaner.Utf16LengthAppend` | src/build.ts:101 | the UTF-16 length of a concatenation is the sum of the lengths |
| `OutputCleaner.InsideIsLonger` | src/build.ts:101 | a path strictly below a directory has a larger UTF-16 length than the directory |
| `OutputCleaner.AstralPathSortsFirst` | src/build.ts:101 | "out/" followed by three emoji (ten code units) sorts before "out/abcde" (nine), as in JavaScript |
| `OutputCleaner.InsertByLength` | src/build.ts:101 | inserting into a list sorted by non-increasing UTF-16 length keeps it sorted and adds exactly one element |
| `OutputCleaner.SortByLengthDesc` | src/build.ts:101 | the sorted listing is a permutation of the listing, in non-increasing UTF-16 length order |
| `OutputCleaner.RmSweeps` | src/build.ts:102 | each recursive forced `rm` removes its target and everything below it, on top of what earlier ones removed |
| `OutputCleaner.SweptSameMembers` | src/build.ts:101-103 | what the deletions remove depends only on which paths were listed, not on their order |
| `OutputCleaner.InsideComesFirst` | src/build.ts:101 | in a listing sorted by non-increasing UTF-16 length, every path strictly below another comes before it |
| `OutputCleaner.RemoveEach` | src/build.ts:101-103 | the loop issues one `rm` per path in the given order, and what remains is exactly the entries none of them covers |
| `OutputCleaner.CleanDist` | src/build.ts:94-106 | paths are removed in sorted order, which is a permutation of the listing; anything inside a listed directory is removed before that directory; what remains is exactly the entries no listed path covers |
| `Orchestrator.ShouldBuildTsc` | src/build.ts:260-267 | an explicit `tsc: true` always emits declarations, an explicit false never does, and an absent `tsc` emits them exactly when a mode is given |
| `Orchestrator.BuildPackage` | src/build.ts:108-217 | the outcome, external calls and output are those of the check order: mode, discovery, name, version, then the bundler; on failure the bundler's logs are printed in order |
| `Orchestrator.ReportBuildFailure` | src/build.ts:210-215 | the failure branch prints the failure line and then one line per bundler message, in order |
| `Orchestrator.BuildTsc` | src/build.ts:219-242 | fails with the exit code exactly when tsc exits non-zero; prints tsc's non-empty output and reports completion only on exit code 0 |
| `Orchestrator.BunBuild` | src/build.ts:255-276 | runs clean, then the package build, then the gated tsc step; a thrown error is reported before exiting; the output directory after cleaning is as `cleanDist` promises |
| `Orchestrator.InvalidModeStopsEarly` | src/build.ts:123-125 | an unknown non-empty mode fails after the clean step only, with no discovery, bundler or tsc call, and the error is reported |
| `Orchestrator.BundlerCalledOnlyWhenReady` | src/build.ts:147-206 | the bundler is called exactly when every check passed, and then with the derived configuration |
| `Orchestrator.NoSourcesNoBundle` | src/build.ts:147-152 | with no discovered file the run fails and neither the bundler nor tsc is called |
| `Orchestrator.ManifestChecked` | src/build.ts:156-171 | a missing or empty name, or else version, fails the run with exit code 1 before the bundler |
| `Orchestrator.PackageOutcomeSuccess` | src/build.ts:123-216 | the package build succeeds exactly when the mode is accepted, files are found, name and version are present and the bundler reports success |
| `Orchestrator.TscRunsWhenGated` | src/build.ts:258-271 | tsc runs exactly when the package built and the gate is open |
| `Orchestrator.TscRunsLast` | src/build.ts:257-271 | when tsc runs, it is the last call, after clean, discovery and the bundler |
| `Orchestrator.RunExitCode` | src/build.ts:236-275 | the run exits 0 exactly when the package builds and tsc, if it ran, exited 0; a non-zero tsc exit fails the run and is reported last |
| `Orchestrator.SuccessLoggedOnce` | src/build.ts:208-209 | a successful run prints its "name vversion build successful" line exactly once |
| `Orchestrator.BundleFailureLogged` | src/build.ts:210-215 | a bundler failure prints the failure line and then every diagnostic, in order |
| `Cli.DeriveMode` | src/index.ts:69 | `--lib` gives "lib", otherwise `--bundle` gives "bundle", otherwise there is no mode (both directions) |
| `Cli.RunCli` | src/index.ts:30-94 | no arguments or `--help` print the usage and exit 0 without building; `--lib` with `--bundle` exits 1 without building; otherwise the run is `bunBuild`'s, with "Build complete." only on success |
| `Cli.ToOptions` | src/index.ts:71-84 | the `Options` literal built from the parsed flags; what it promises is stated by `Cli.FlagsResolveUnchanged` |
| `Cli.FlagsResolveUnchanged` | src/index.ts:71-84 | every flag reaches the options unchanged: mode is the derived mode, `--ignore` becomes a single pattern or stays unset, `tsc` is the flag itself, `external` is a one-element list, and no default of the build step applies |
| `Cli.CliModeValid` | src/index.ts:65-69 | the command line never produces a mode the build step rejects |
| `Cli.CliTscGate` | src/index.ts:76 | from the command line, declarations are emitted exactly when `--tsc` is on, whatever the mode |
| `Cli.DefaultInvocation` | src/index.ts:42-57 | with the parser defaults there is no mode, the bundler gets target "bun", no minification, naming "[dir]/[name].mjs", external ["*"], format "esm", splitting and no sourcemap, and declarations are emitted |

## Left out

- Glob matching. Both fast-glob queries are abstract functions in `World`:
  the output-directory listing and the source search. The model does not
  assume that the listing covers the directory's real entries.
- The external tools. The bundler, the `tsc` subprocess, `rm` and the
  package.json read are given results. The model has no bundler that
  throws, no `tsc` that cannot be spawned, no unreadable package.json, and
  no files that the bundler writes to the output directory.
- `path.join` is an uninterpreted parameter. Only what holds for every
  join, or for every injective join, is proved.
- Console text is a structured `Line` value, not the printed string. The
  help text itself is not modelled.
- Argument parsing. It is an abstract `parse` function to an already-typed
  `Flags` record. Repeated flags, and `minify`/`splitting` arriving as
  strings, belong to the parser library.
- Asynchrony. The awaited calls are plain sequential steps.
- The `src = "src"` and `out = "out"` defaults at src/build.ts:111,113.
  The `Options` interface requires both fields, so these defaults fire only
  for an untyped caller.
- `opts || {}` with a null argument.
- The `lib` and `bundle` fields of `Options`. The build step never reads them.
- The boolean form of `sourcemap`. It is kept as a string.
- A package.json `name` or `version` that is present but not a string.
- `OutputCleaner.SortByLengthDesc`: paths of equal length keep their listing
  order, as the stable built-in sort does. This tie order is not stated,
  because the deletion property does not depend on it.
- `Cli.RunCli`: the lib/bundle conflict is thrown outside any `try`. It is
  modelled as an exit with status 1 and an error report.
