/** Texts split at a separator, overlay paths and exclusion patterns. */
module Paths {
  import opened Collections

  /** One more element in front of split parts. */
  function Extend<T(==)>(e: T, c: T, parts: seq<seq<T>>): (r: seq<seq<T>>)
    requires |parts| >= 1
    ensures |r| >= 1
  {
    if e == c then [[]] + parts else [[e] + parts[0]] + parts[1..]
  }

  /** Python's `s.split(c)` for a separator of one element. */
  function SplitOn<T(==)>(s: seq<T>, c: T): (r: seq<seq<T>>)
    ensures |r| >= 1
  {
    if s == [] then [[]] else Extend(s[0], c, SplitOn(s[1..], c))
  }

  lemma ExtendAppend<T>(e: T, c: T, x: seq<seq<T>>, y: seq<seq<T>>)
    requires |x| >= 1
    ensures Extend(e, c, x + y) == Extend(e, c, x) + y
  {
    if e != c {
      assert (x + y)[1..] == x[1..] + y;
    }
  }

  lemma {:induction false} SplitClean<T>(s: seq<T>, c: T)
    requires c !in s
    ensures SplitOn(s, c) == [s]
  {
    if s != [] {
      SplitClean(s[1..], c);
      assert s == [s[0]] + s[1..];
    }
  }

  /** Splitting at a separator in the middle splits both sides. */
  lemma {:induction false} SplitJoin<T>(a: seq<T>, c: T, b: seq<T>)
    ensures SplitOn(a + [c] + b, c) == SplitOn(a, c) + SplitOn(b, c)
  {
    var s := a + [c] + b;
    if a == [] {
      assert s[1..] == b && s[0] == c;
    } else {
      SplitJoin(a[1..], c, b);
      assert s[1..] == a[1..] + [c] + b && s[0] == a[0];
      ExtendAppend(a[0], c, SplitOn(a[1..], c), SplitOn(b, c));
    }
  }

  /** Every part followed by the separator. */
  function Terminate<T>(parts: seq<seq<T>>, c: T): seq<T> {
    if parts == [] then [] else parts[0] + [c] + Terminate(parts[1..], c)
  }

  /** Splitting what was terminated gives the parts back. */
  lemma {:induction false} SplitTerminated<T>(parts: seq<seq<T>>, c: T)
    requires forall x :: x in parts ==> c !in x
    ensures SplitOn(Terminate(parts, c), c) == parts + [[]]
  {
    if parts != [] {
      SplitJoin(parts[0], c, Terminate(parts[1..], c));
      SplitClean(parts[0], c);
      SplitTerminated(parts[1..], c);
      assert [parts[0]] + (parts[1..] + [[]]) == parts + [[]];
    }
  }

  const NUL := '\0'

  /** Repository-relative POSIX paths without empty, `.` or `..` components. */
  predicate ValidPath(p: string) {
    && p != "" && p[0] != '/'
    && NUL !in p && '\n' !in p && '\r' !in p
    && forall c :: c in SplitOn(p, '/') ==> c != "" && c != "." && c != ".."
  }

  /** Walking down from a directory: empty and `.` components stay, `..` goes up but not out. */
  function Walk(cs: seq<string>, below: seq<string>): seq<string> {
    if cs == [] then below
    else if cs[0] == "" || cs[0] == "." then Walk(cs[1..], below)
    else if cs[0] == ".." then Walk(cs[1..], if below == [] then [] else below[..|below| - 1])
    else Walk(cs[1..], below + [cs[0]])
  }

  predicate Plain(c: string) {
    c != "" && c != "." && c != ".."
  }

  lemma {:induction false} WalkPlain(cs: seq<string>, below: seq<string>)
    ensures |Walk(cs, below)| <= |below| + |cs|
    ensures (forall c :: c in cs ==> Plain(c)) ==> Walk(cs, below) == below + cs
    ensures (exists c :: c in cs && !Plain(c)) ==> |Walk(cs, below)| < |below| + |cs|
    decreases |cs|
  {
    if cs != [] {
      assert cs == [cs[0]] + cs[1..];
      WalkPlain(cs[1..], if Plain(cs[0]) then below + [cs[0]] else if cs[0] == ".." && below != [] then below[..|below| - 1] else below);
      assert (below + [cs[0]]) + cs[1..] == below + cs;
    } else {
      assert below + cs == below;
    }
  }

  /** A path is valid exactly when it has no NUL or line break and walking along it passes through
      exactly its own components: it leads below the directory, to nowhere else. */
  lemma ValidStaysBelow(p: string)
    ensures ValidPath(p) <==>
            '\0' !in p && '\n' !in p && '\r' !in p && Walk(SplitOn(p, '/'), []) == SplitOn(p, '/')
  {
    var cs := SplitOn(p, '/');
    WalkPlain(cs, []);
    assert [] + cs == cs;
    assert cs[0] in cs;
    if p == "" || p[0] == '/' {
      assert cs[0] == "";
    }
  }

  function StripSlashes(p: string): string {
    if p != "" && p[|p| - 1] == '/' then StripSlashes(p[..|p| - 1]) else p
  }

  predicate StartsWith(s: string, t: string) {
    |t| <= |s| && s[..|t|] == t
  }

  /** One exclusion pattern against one path; `glob` is the library's `fnmatchcase`. */
  predicate Matches(path: string, pattern: string, glob: (string, string) -> bool) {
    var normalized := StripSlashes(pattern);
    if '/' in normalized then
      glob(path, normalized)
      || (pattern != "" && pattern[|pattern| - 1] == '/' && StartsWith(path, normalized + "/"))
    else
      exists c :: c in SplitOn(path, '/') && glob(c, normalized)
  }

  predicate IsExcluded(path: string, patterns: seq<string>, glob: (string, string) -> bool) {
    exists p :: p in patterns && Matches(path, p, glob)
  }

  /** Patterns without an inner slash exclude whole subtrees. */
  lemma ExcludedSubtree(path: string, below: string, patterns: seq<string>, glob: (string, string) -> bool)
    requires IsExcluded(path, patterns, glob)
    requires forall p :: p in patterns ==> '/' !in StripSlashes(p)
    ensures IsExcluded(path + "/" + below, patterns, glob)
  {
    var p :| p in patterns && Matches(path, p, glob);
    var c :| c in SplitOn(path, '/') && glob(c, StripSlashes(p));
    assert path + "/" + below == path + ['/'] + below;
    SplitJoin(path, '/', below);
    assert c in SplitOn(path + "/" + below, '/');
    assert Matches(path + "/" + below, p, glob);
  }

  /** A pattern with an inner slash is matched against the whole path, and with a final slash it also
      covers everything below; one without is matched against every component, final slash or not. */
  lemma PatternKinds(path: string, d: string, glob: (string, string) -> bool)
    requires d != "" && d[|d| - 1] != '/'
    ensures '/' in d ==> (Matches(path, d, glob) <==> glob(path, d))
    ensures '/' in d ==> (Matches(path, d + "/", glob) <==> glob(path, d) || StartsWith(path, d + "/"))
    ensures '/' !in d ==> (Matches(path, d, glob) <==> exists c :: c in SplitOn(path, '/') && glob(c, d))
    ensures '/' !in d ==> (Matches(path, d + "/", glob) <==> Matches(path, d, glob))
  {
    assert (d + "/")[..|d + "/"| - 1] == d;
    assert StripSlashes(d + "/") == StripSlashes(d) == d;
  }
}
