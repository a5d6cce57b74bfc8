/** From the `ignore` option to the glob patterns, and from matched files to entry points. */
module Discovery {
  import opened BuildOptions
  import opened Seqs

  /** Always searched for, and always excluded, before any user exclusion. */
  const BasePatterns: seq<string> := ["**/*.ts", "!**/node_modules/**", "!**/*.d.ts"]

  /** `filter(Boolean)` on strings: drops the empty (falsy) entries. */
  function KeepNonEmpty(xs: seq<string>): (ys: seq<string>)
    ensures |ys| <= |xs|
    ensures forall i :: 0 <= i < |ys| ==> ys[i] != ""
    ensures forall x :: x != "" ==> multiset(ys)[x] == multiset(xs)[x]
  {
    if xs == [] then []
    else
      assert xs == [xs[0]] + xs[1..];
      (if xs[0] == "" then [] else [xs[0]]) + KeepNonEmpty(xs[1..])
  }

  /** Filtering keeps order: it distributes over concatenation. */
  lemma {:induction false} KeepNonEmptyAppend(a: seq<string>, b: seq<string>)
    ensures KeepNonEmpty(a + b) == KeepNonEmpty(a) + KeepNonEmpty(b)
  {
    if a == [] {
      assert a + b == b;
    } else {
      assert (a + b)[1..] == a[1..] + b;
      KeepNonEmptyAppend(a[1..], b);
    }
  }

  /** A list without empty entries is kept as it is. */
  lemma {:induction false} KeepNonEmptyIdentity(xs: seq<string>)
    requires forall i :: 0 <= i < |xs| ==> xs[i] != ""
    ensures KeepNonEmpty(xs) == xs
  {
    if xs != [] {
      KeepNonEmptyIdentity(xs[1..]);
    }
  }

  /** `safeIgnore`: the ignore option as a list of non-empty patterns. */
  function SafeIgnore(ignore: Ignore): (kept: seq<string>)
    ensures ignore.Unset? ==> kept == []
    ensures ignore.One? ==> kept == if ignore.pattern == "" then [] else [ignore.pattern]
    ensures ignore.Many? ==> kept == KeepNonEmpty(ignore.patterns)
  {
    match ignore
    case Unset => []
    case One(p) =>
      assert [p][1..] == [];
      KeepNonEmpty([p])
    case Many(ps) => KeepNonEmpty(ps)
  }

  function Negate(pattern: string): string
  {
    "!" + pattern
  }

  lemma NegateInjective()
    ensures forall a, b :: Negate(a) == Negate(b) ==> a == b
  {
    forall a, b | Negate(a) == Negate(b) ensures a == b {
      assert a == Negate(a)[1..];
      assert b == Negate(b)[1..];
    }
  }

  /** `ignorePatterns`: each kept ignore entry turned into an exclusion glob. */
  function Exclusions(ignore: Ignore): (excl: seq<string>)
    ensures |excl| == |SafeIgnore(ignore)|
    ensures forall i :: 0 <= i < |excl| ==> excl[i] == "!" + SafeIgnore(ignore)[i]
  {
    var kept := SafeIgnore(ignore);
    if |kept| > 0 then Map(Negate, kept) else []
  }

  /** Every kept entry yields exactly as many exclusions as it occurs, each prefixed by one '!'. */
  lemma ExclusionCount(ignore: Ignore, x: string)
    ensures multiset(Exclusions(ignore))["!" + x] == multiset(SafeIgnore(ignore))[x]
  {
    var kept := SafeIgnore(ignore);
    if |kept| > 0 {
      NegateInjective();
      MapCount(Negate, kept, x);
    }
  }

  /** A list of ignore patterns yields one exclusion per non-empty occurrence, and none for an empty one. */
  lemma ListExclusions(patterns: seq<string>, x: string)
    ensures multiset(Exclusions(Many(patterns)))["!" + x] == if x == "" then 0 else multiset(patterns)[x]
    ensures Exclusions(Many(patterns)) == Map(Negate, KeepNonEmpty(patterns))
  {
    ExclusionCount(Many(patterns), x);
  }

  /** `patterns`: the three fixed patterns followed by the exclusions, in order. */
  function GlobPatterns(ignore: Ignore): (patterns: seq<string>)
    ensures |patterns| == 3 + |SafeIgnore(ignore)|
    ensures patterns[..3] == BasePatterns
    ensures forall i :: 0 <= i < |SafeIgnore(ignore)| ==> patterns[3 + i] == "!" + SafeIgnore(ignore)[i]
  {
    BasePatterns + Exclusions(ignore)
  }

  /** `fullEntrypoints`: every discovered file joined onto the source directory. */
  function Entrypoints(join: (string, string) -> string, src: string, files: seq<string>): (full: seq<string>)
    ensures |full| == |files|
    ensures forall i :: 0 <= i < |files| ==> full[i] == join(src, files[i])
  {
    Map(f => join(src, f), files)
  }

  /** When joining onto `src` is injective, no entry point is dropped or duplicated. */
  lemma EntrypointsCount(join: (string, string) -> string, src: string, files: seq<string>, f: string)
    requires forall a, b :: join(src, a) == join(src, b) ==> a == b
    ensures multiset(Entrypoints(join, src, files))[join(src, f)] == multiset(files)[f]
  {
    MapCount(g => join(src, g), files, f);
  }
}
