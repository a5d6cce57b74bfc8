/** `cleanDist`: the output directory's entries removed longest path first. */
module OutputCleaner {

  /**
   * The glob patterns listing everything under the output directory, hidden
   * entries included, but not the directory itself.
   */
  function CleanPatterns(outDir: string): seq<string>
  {
    [outDir + "/**/*", outDir + "/**/.*", "!" + outDir]
  }

  /** Directories are listed with a trailing '/'. */
  predicate IsDir(p: string)
  {
    |p| > 0 && p[|p| - 1] == '/'
  }

  /** `p` lies strictly below `dir`. */
  predicate IsInside(p: string, dir: string)
  {
    |dir| < |p| && p[..|dir|] == dir
  }

  /** A recursive `rm` of `target` removes `p`. */
  predicate Removes(target: string, p: string)
  {
    p == target || (IsDir(target) && IsInside(p, target))
  }

  /** One forced recursive `rm`: missing targets are not an error. */
  function Rm(entries: set<string>, target: string): set<string>
  {
    set p | p in entries && !Removes(target, p)
  }

  /** The entries that some listed path removes. */
  function Swept(entries: set<string>, listing: seq<string>): set<string>
  {
    set p | p in entries && exists t :: t in listing && Removes(t, p)
  }

  /**
   * A string's `length` in UTF-16 code units: a character outside the Basic
   * Multilingual Plane is a surrogate pair and counts twice.
   */
  function Utf16Length(s: string): (n: nat)
    ensures |s| <= n <= 2 * |s|
  {
    if s == [] then 0
    else (if s[0] as int >= 0x1_0000 then 2 else 1) + Utf16Length(s[1..])
  }

  /** UTF-16 length adds up over concatenation. */
  lemma {:induction false} Utf16LengthAppend(a: string, b: string)
    ensures Utf16Length(a + b) == Utf16Length(a) + Utf16Length(b)
  {
    if a == [] {
      assert a + b == b;
    } else {
      assert (a + b)[0] == a[0] && (a + b)[1..] == a[1..] + b;
      Utf16LengthAppend(a[1..], b);
    }
  }

  /** A path strictly below a directory is longer in UTF-16 units too. */
  lemma InsideIsLonger(p: string, dir: string)
    requires IsInside(p, dir)
    ensures Utf16Length(dir) < Utf16Length(p)
  {
    assert p == dir + p[|dir|..];
    Utf16LengthAppend(dir, p[|dir|..]);
  }

  predicate NonIncreasing(s: seq<string>)
  {
    forall i, j :: 0 <= i < j < |s| ==> Utf16Length(s[i]) >= Utf16Length(s[j])
  }

  /** Putting an entry at least as long as the head in front keeps the order. */
  lemma ConsNonIncreasing(a: string, t: seq<string>)
    requires NonIncreasing(t)
    requires t != [] ==> Utf16Length(t[0]) <= Utf16Length(a)
    ensures NonIncreasing([a] + t)
  {
  }

  /** Inserts `x` before the first entry no longer than it. */
  function InsertByLength(x: string, s: seq<string>): (r: seq<string>)
    requires NonIncreasing(s)
    ensures NonIncreasing(r)
    ensures multiset(r) == multiset(s) + multiset{x}
    ensures |r| == |s| + 1 && (r[0] == x || (s != [] && r[0] == s[0]))
  {
    if s == [] || Utf16Length(s[0]) <= Utf16Length(x) then
      ConsNonIncreasing(x, s);
      [x] + s
    else
      assert s == [s[0]] + s[1..];
      var rest := InsertByLength(x, s[1..]);
      assert |s| > 1 ==> Utf16Length(s[1]) <= Utf16Length(s[0]);
      ConsNonIncreasing(s[0], rest);
      [s[0]] + rest
  }

  /** `files.sort((a, b) => b.length - a.length)`. */
  function SortByLengthDesc(s: seq<string>): (r: seq<string>)
    ensures NonIncreasing(r)
    ensures multiset(r) == multiset(s)
  {
    if s == [] then []
    else
      assert s == [s[0]] + s[1..];
      InsertByLength(s[0], SortByLengthDesc(s[1..]))
  }

  /**
   * Lengths are compared as JavaScript does: three emoji after "out/" make ten
   * code units, so that path goes before "out/abcde" (nine).
   */
  lemma AstralPathSortsFirst()
    ensures SortByLengthDesc(["out/abcde", "out/\U{1F600}\U{1F600}\U{1F600}"])[0] == "out/\U{1F600}\U{1F600}\U{1F600}"
  {
  }

  /** One more `rm` sweeps what it removes on top of what was swept before. */
  lemma RmSweeps(entries: set<string>, done: seq<string>, t: string)
    ensures Rm(entries - Swept(entries, done), t) == entries - Swept(entries, done + [t])
  {
  }

  /** Only which paths are listed matters, not their order. */
  lemma SweptSameMembers(entries: set<string>, a: seq<string>, b: seq<string>)
    requires multiset(a) == multiset(b)
    ensures Swept(entries, a) == Swept(entries, b)
  {
    forall t ensures t in a <==> t in b {
      assert t in a <==> t in multiset(a);
      assert t in b <==> t in multiset(b);
    }
  }

  /** In a list sorted by non-increasing length, anything strictly below a path comes before it. */
  lemma InsideComesFirst(s: seq<string>)
    requires NonIncreasing(s)
    ensures forall i, j :: 0 <= i < |s| && 0 <= j < |s| && IsInside(s[i], s[j]) ==> i < j
  {
    forall i, j | 0 <= i < |s| && 0 <= j < |s| && IsInside(s[i], s[j])
      ensures i < j
    {
      InsideIsLonger(s[i], s[j]);
    }
  }

  /** The deletion loop: one forced recursive `rm` per path, in the given order. */
  method RemoveEach(entries: set<string>, files: seq<string>) returns (left: set<string>, removed: seq<string>)
    ensures removed == files
    ensures left == entries - Swept(entries, files)
  {
    left := entries;
    removed := [];
    assert Swept(entries, []) == {};
    var i := 0;
    while i < |files|
      invariant 0 <= i <= |files|
      invariant removed == files[..i]
      invariant left == entries - Swept(entries, removed)
    {
      RmSweeps(entries, removed, files[i]);
      left := Rm(left, files[i]);
      removed := removed + [files[i]];
      i := i + 1;
      assert removed == files[..i];
    }
    assert removed == files;
  }

  /**
   * `cleanDist`: deletes every listed path in order of decreasing length.
   * `entries` is the state of the output directory, `listing` what the glob
   * returned for it.
   */
  method CleanDist(entries: set<string>, listing: seq<string>) returns (left: set<string>, removed: seq<string>)
    ensures removed == SortByLengthDesc(listing)
    ensures multiset(removed) == multiset(listing)
    ensures forall i, j :: 0 <= i < |removed| && 0 <= j < |removed| && IsInside(removed[i], removed[j]) ==> i < j
    ensures left == entries - Swept(entries, listing)
  {
    var files := SortByLengthDesc(listing);
    InsideComesFirst(files);
    left, removed := RemoveEach(entries, files);
    SweptSameMembers(entries, files, listing);
  }
}
