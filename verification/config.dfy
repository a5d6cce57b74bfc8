/** The configuration handed to the bundler: `baseConfig` and the mode presets. */
module BundleConfig {
  import opened Wrappers
  import opened BuildOptions

  /** The bundler configuration; `target` is undefined in `baseConfig` and set by every preset. */
  datatype BuildConfig = BuildConfig(
    root: string,
    entrypoints: seq<string>,
    outdir: string,
    naming: string,
    external: seq<string>,
    format: string,
    splitting: bool,
    sourcemap: string,
    minify: bool,
    target: Option<string>)

  /** `baseConfig`: the resolved options and the entry points, with no target. */
  function BaseConfig(r: Resolved, entrypoints: seq<string>): BuildConfig
  {
    BuildConfig(r.src, entrypoints, r.out, r.naming, r.external, r.format,
                r.splitting, r.sourcemap, r.minify, None)
  }

  /**
   * The mode presets: "lib" forces an unminified node build, "bundle" a minified
   * browser build; any other mode keeps `minify` and uses the raw target.
   */
  function ApplyMode(mode: Option<string>, target: string, base: BuildConfig): (config: BuildConfig)
    ensures config.(minify := base.minify, target := base.target) == base
    ensures config.target.Some?
    ensures mode == Some("lib") ==> !config.minify && config.target == Some("node")
    ensures mode == Some("bundle") ==> config.minify && config.target == Some("browser")
    ensures mode != Some("lib") && mode != Some("bundle") ==>
              config.minify == base.minify && config.target == Some(target)
  {
    if mode == Some("lib") then base.(minify := false, target := Some("node"))
    else if mode == Some("bundle") then base.(minify := true, target := Some("browser"))
    else base.(target := Some(target))
  }

  /** The configuration `buildPackage` passes to the bundler. */
  function ConfigFor(r: Resolved, entrypoints: seq<string>): (config: BuildConfig)
    ensures config.root == r.src && config.outdir == r.out
    ensures config.entrypoints == entrypoints
    ensures config.naming == r.naming && config.external == r.external
    ensures config.format == r.format && config.splitting == r.splitting
    ensures config.sourcemap == r.sourcemap
    ensures r.mode == Some("lib") ==> !config.minify && config.target == Some("node")
    ensures r.mode == Some("bundle") ==> config.minify && config.target == Some("browser")
    ensures r.mode != Some("lib") && r.mode != Some("bundle") ==>
              config.minify == r.minify && config.target == Some(r.target)
  {
    ApplyMode(r.mode, r.target, BaseConfig(r, entrypoints))
  }

  /** Under a preset the supplied `minify` and `target` make no difference at all. */
  lemma PresetIgnoresFlags(r1: Resolved, r2: Resolved, entrypoints: seq<string>)
    requires r1.mode == Some("lib") || r1.mode == Some("bundle")
    requires r1.(minify := r2.minify, target := r2.target) == r2
    ensures ConfigFor(r1, entrypoints) == ConfigFor(r2, entrypoints)
  {
  }
}
