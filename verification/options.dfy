/** The `Options` record accepted by `bunBuild`, and the defaults `buildPackage` fills in. */
module BuildOptions {
  import opened Wrappers

  /** The `ignore` option: absent, a single pattern, or a list of patterns. */
  datatype Ignore = Unset | One(pattern: string) | Many(patterns: seq<string>)

  /**
   * Options as a caller passes them. `src` and `out` are required by the interface;
   * every other field may be left undefined. `mode` is kept as a string because the
   * value is only checked at run time.
   */
  datatype Options = Options(
    mode: Option<string>,
    src: string,
    ignore: Ignore,
    out: string,
    tsc: Option<bool>,
    target: Option<string>,
    naming: Option<string>,
    format: Option<string>,
    splitting: Option<bool>,
    external: Option<seq<string>>,
    sourcemap: Option<string>,
    minify: Option<bool>)

  /** Options after the defaults of `buildPackage` have been filled in. */
  datatype Resolved = Resolved(
    mode: Option<string>,
    src: string,
    ignore: Ignore,
    out: string,
    format: string,
    target: string,
    naming: string,
    splitting: bool,
    external: seq<string>,
    sourcemap: string,
    minify: bool)

  const DefaultFormat := "esm"
  const DefaultTarget := "bun"
  const DefaultNaming := "[dir]/[name].mjs"
  const DefaultSplitting := true
  const DefaultExternal: seq<string> := ["*"]
  const DefaultSourcemap := "none"
  const DefaultMinify := false

  function GetOr<T>(o: Option<T>, default: T): T
  {
    match o
    case Some(v) => v
    case None => default
  }

  /** `value` is what was supplied, or `default` when nothing was. */
  predicate Defaulted<T(==)>(given: Option<T>, value: T, default: T)
  {
    if given.Some? then value == given.value else value == default
  }

  /** The destructuring with defaults at the top of `buildPackage`. */
  function Resolve(opts: Options): (r: Resolved)
    ensures r.mode == opts.mode && r.ignore == opts.ignore
    ensures r.src == opts.src && r.out == opts.out
    ensures Defaulted(opts.format, r.format, DefaultFormat)
    ensures Defaulted(opts.target, r.target, DefaultTarget)
    ensures Defaulted(opts.naming, r.naming, DefaultNaming)
    ensures Defaulted(opts.splitting, r.splitting, DefaultSplitting)
    ensures Defaulted(opts.external, r.external, DefaultExternal)
    ensures Defaulted(opts.sourcemap, r.sourcemap, DefaultSourcemap)
    ensures Defaulted(opts.minify, r.minify, DefaultMinify)
  {
    Resolved(
      opts.mode, opts.src, opts.ignore, opts.out,
      GetOr(opts.format, DefaultFormat),
      GetOr(opts.target, DefaultTarget),
      GetOr(opts.naming, DefaultNaming),
      GetOr(opts.splitting, DefaultSplitting),
      GetOr(opts.external, DefaultExternal),
      GetOr(opts.sourcemap, DefaultSourcemap),
      GetOr(opts.minify, DefaultMinify))
  }

  /**
   * The mode check passes unless the mode is a non-empty string other than
   * "lib" and "bundle" (an empty string is falsy and is let through).
   */
  predicate ValidMode(mode: Option<string>)
  {
    mode.None? || mode.value == "" || mode.value == "lib" || mode.value == "bundle"
  }
}
