/** Rebuilding a worktree on the server: reset to the commit, delete, then transfer. */
module Workspace {
  import opened Collections
  import opened Paths
  import opened Overlay

  /** A directory as a flat map from paths to file contents. */
  type Tree = map<string, string>

  /** A local worktree as Git sees it: the committed tree, the tracked paths, the files on
      disk and the ignored paths. */
  datatype Worktree = Worktree(head: Tree, index: set<string>, files: Tree, ignored: set<string>)

  /** Committed paths that are no longer tracked and present. */
  function Missing(w: Worktree): set<string> {
    set p | p in w.head && !(p in w.index && p in w.files)
  }

  /** Tracked files whose content is not the committed one. */
  function Changed(w: Worktree): set<string> {
    set p | p in w.files && p in w.index && (p !in w.head || w.head[p] != w.files[p])
  }

  function Tracked(w: Worktree): set<string> {
    set p | p in w.files && p in w.index
  }

  function Untracked(w: Worktree): set<string> {
    set p | p in w.files && p !in w.index && p !in w.ignored
  }

  /** One entry of `git diff --name-status HEAD`. */
  datatype Entry =
    | Deleted(path: string)
    | Renamed(path: string, to: string, score: string)
    | Copied(path: string, to: string, score: string)
    | Touched(path: string, letter: char)

  /** The status and the paths that Git prints for an entry. */
  function Printed(e: Entry): Change {
    match e
    case Deleted(p) => Change("D", p, None)
    case Renamed(p, q, score) => Change("R" + score, p, Some(q))
    case Copied(p, q, score) => Change("C" + score, p, Some(q))
    case Touched(p, letter) => Change([letter], p, None)
  }

  function Changes(es: seq<Entry>): (cs: seq<Change>)
    ensures |cs| == |es| && forall i :: 0 <= i < |es| ==> cs[i] == Printed(es[i])
  {
    seq(|es|, i requires 0 <= i < |es| => Printed(es[i]))
  }

  predicate Clean(s: string) {
    NUL !in s && '\t' !in s
  }

  /** The entry is true of the worktree: what it says is gone is gone, what it says is there is tracked
      and there. A touched path may differ in its mode only. */
  predicate Fits(e: Entry, w: Worktree) {
    && NUL !in e.path
    && match e
       case Deleted(p) => p in Missing(w)
       case Renamed(p, q, score) => p in Missing(w) && q in Tracked(w) && q !in w.head && NUL !in q && Clean(score)
       case Copied(p, q, score) => p in w.head && q in Tracked(w) && q !in w.head && NUL !in q && Clean(score)
       case Touched(p, letter) => p in Tracked(w) && letter == if p in w.head then 'M' else 'A'
  }

  predicate SaysGone(e: Entry, p: string) {
    (e.Deleted? || e.Renamed?) && e.path == p
  }

  predicate SaysChanged(e: Entry, p: string) {
    match e
    case Deleted(_) => false
    case Renamed(_, q, _) => q == p
    case Copied(_, q, _) => q == p
    case Touched(q, _) => q == p
  }

  /** `git diff HEAD`: some list of true entries, with renames and copies paired in any way, in which
      every missing path is said to be gone and every changed one to have changed. */
  ghost predicate DiffOf(es: seq<Entry>, w: Worktree) {
    && (forall e :: e in es ==> Fits(e, w))
    && (forall p :: p in Missing(w) ==> exists e :: e in es && SaysGone(e, p))
    && (forall p :: p in Changed(w) ==> exists e :: e in es && SaysChanged(e, p))
  }

  /** What a list of changes says in terms of the sets that its reader collects. */
  ghost predicate Denotes(cs: seq<Change>, w: Worktree) {
    && (forall c :: c in cs ==> Printable(c))
    && (forall p :: p in Missing(w) <==> exists c :: c in cs && p in Removed(c))
    && (forall p :: p in Changed(w) ==> exists c :: c in cs && p in Altered(c))
    && (forall c, p :: c in cs && p in Altered(c) ==> p in w.files && p in w.index)
  }

  lemma EntryDenotes(e: Entry, w: Worktree)
    requires Fits(e, w)
    ensures Printable(Printed(e))
    ensures forall p :: p in Removed(Printed(e)) <==> SaysGone(e, p)
    ensures forall p :: p in Altered(Printed(e)) <==> SaysChanged(e, p)
  {
  }

  lemma EntriesDenote(es: seq<Entry>, w: Worktree)
    requires DiffOf(es, w)
    ensures Denotes(Changes(es), w)
  {
    var cs := Changes(es);
    forall i | 0 <= i < |es|
      ensures Fits(es[i], w) && cs[i] == Printed(es[i]) && Printable(cs[i])
      ensures forall p :: p in Removed(cs[i]) <==> SaysGone(es[i], p)
      ensures forall p :: p in Altered(cs[i]) <==> SaysChanged(es[i], p)
    {
      assert es[i] in es;
      EntryDenotes(es[i], w);
    }
    forall p | p in Missing(w)
      ensures exists c :: c in cs && p in Removed(c)
    {
      var i :| 0 <= i < |es| && SaysGone(es[i], p);
      assert cs[i] in cs;
    }
    forall p | p in Changed(w)
      ensures exists c :: c in cs && p in Altered(c)
    {
      var i :| 0 <= i < |es| && SaysChanged(es[i], p);
      assert cs[i] in cs;
    }
  }

  /** `git ls-files --others`: the untracked paths in some order. */
  ghost predicate ListOf(names: seq<string>, w: Worktree) {
    forall p :: p in names <==> p in Untracked(w)
  }

  function ApplyDeletions(t: Tree, delete: set<string>): Tree {
    t - delete
  }

  /** The transfer copies the current local content of every listed path. */
  function Transfer(t: Tree, transfer: set<string>, files: Tree): Tree {
    t + (map p | p in transfer && p in files :: files[p])
  }

  /** The server's tree after preparation and synchronization. */
  function Receive(head: Tree, m: Manifest, files: Tree): Tree {
    Transfer(ApplyDeletions(head, m.delete), m.transfer, files)
  }

  /** What the command should find: the local file, except that ignored untracked files stay
      behind, and the committed file at every excluded path. */
  function Expected(w: Worktree, excluded: string -> bool): Tree {
    map p | p in w.head.Keys + w.files.Keys
            && (if excluded(p) then p in w.head else p in w.files && (p in w.index || p !in w.ignored))
      :: if excluded(p) then w.head[p] else w.files[p]
  }

  lemma {:induction false} AddUntrackedSet(f: seq<string>, filters: Filters, m: Manifest)
    ensures var r := AddUntracked(f, filters, m);
            && (r.Success? <==> forall p :: p in f && p != "" ==> ValidPath(p))
            && (r.Success? ==> r.value.delete == m.delete
                               && r.value.transfer == m.transfer + (set p | p in f && p != "" && !filters.excluded(p)))
  {
    if f != [] {
      AddUntrackedSet(f[1..], filters, if f[0] == "" || filters.excluded(f[0]) then m else m.(transfer := m.transfer + {f[0]}));
      assert forall p :: p in f <==> p == f[0] || p in f[1..];
    }
  }

  /** The manifest deletes exactly the missing paths, transfers every path that differs, and nothing
      that is not tracked or untracked, all outside the exclusions. */
  ghost predicate Covers(m: Manifest, w: Worktree, excluded: string -> bool) {
    && m.delete == (set p | p in Missing(w) && !excluded(p))
    && (forall p :: p in Changed(w) + Untracked(w) && !excluded(p) ==> p in m.transfer)
    && (forall p :: p in m.transfer ==> p in Tracked(w) + Untracked(w) && !excluded(p))
  }

  /** Both paths of an entry are valid, and neither is a submodule. */
  predicate GoodEntry(e: Entry, filters: Filters) {
    && ValidPath(e.path) && !filters.submodule(e.path)
    && (e.Renamed? || e.Copied? ==> ValidPath(e.to) && !filters.submodule(e.to))
  }

  lemma EntriesGood(es: seq<Entry>, filters: Filters)
    ensures AllGood(Changes(es), filters) <==> forall e :: e in es ==> GoodEntry(e, filters)
  {
    var cs := Changes(es);
    if AllGood(cs, filters) {
      forall e | e in es
        ensures GoodEntry(e, filters)
      {
        var i :| 0 <= i < |es| && es[i] == e;
        assert cs[i] in cs && e.path in PathsOf(cs[i]);
        assert e.Renamed? || e.Copied? ==> e.to in PathsOf(cs[i]);
      }
    }
    if forall e :: e in es ==> GoodEntry(e, filters) {
      forall c, p | c in cs && p in PathsOf(c)
        ensures ValidPath(p) && !filters.submodule(p)
      {
        var i :| 0 <= i < |cs| && cs[i] == c;
        assert es[i] in es;
      }
    }
  }

  /** A local worktree together with the entries and the untracked paths that Git prints for it; the
      entries at the positions in `tabbed` are printed with status and path in one field. */
  datatype Checkout = Checkout(worktree: Worktree, entries: seq<Entry>, tabbed: set<nat>, names: seq<string>)

  function ChangesOf(c: Checkout): string {
    Print(Changes(c.entries), seq(|c.entries|, i => i in c.tabbed))
  }

  function UntrackedOf(c: Checkout): string {
    Terminate(c.names, NUL)
  }

  function DiscoverIn(c: Checkout, filters: Filters): Result<Manifest, Error> {
    Discover(ChangesOf(c), UntrackedOf(c), filters)
  }

  /** What Git prints describes the worktree. */
  ghost predicate Described(c: Checkout) {
    DiffOf(c.entries, c.worktree) && ListOf(c.names, c.worktree) && forall p :: p in c.names ==> NUL !in p && p != ""
  }

  /** A discovered manifest covers the worktree, for whatever list Git prints; discovery fails exactly
      on an invalid path or a submodule. */
  lemma ManifestOf(c: Checkout, filters: Filters)
    requires Described(c)
    ensures var r := DiscoverIn(c, filters);
            && (r.Success? ==> Covers(r.value, c.worktree, filters.excluded) && forall p :: p in r.value.delete ==> ValidPath(p))
            && (r.Success? <==> (forall e :: e in c.entries ==> GoodEntry(e, filters)) && forall p :: p in c.names ==> ValidPath(p))
  {
    var cs, names := Changes(c.entries), c.names;
    EntriesDenote(c.entries, c.worktree);
    EntriesGood(c.entries, filters);
    ReaderUndoesPrinter(cs, seq(|cs|, i => i in c.tabbed), filters);
    SplitTerminated(names, NUL);
    AddUntrackedSet(names + [""], filters, Selected(cs, filters));
    assert forall p :: p in names + [""] <==> p in names || p == "";
    SelectedCovers(c.worktree, cs, filters);
    if AllGood(cs, filters) {
      SelectedValid(cs, filters);
    }
  }

  lemma SelectedCovers(w: Worktree, cs: seq<Change>, filters: Filters)
    requires Denotes(cs, w)
    ensures var m := Selected(cs, filters);
            && m.delete == (set p | p in Missing(w) && !filters.excluded(p))
            && (forall p :: p in Changed(w) && !filters.excluded(p) ==> p in m.transfer)
            && (forall p :: p in m.transfer ==> p in Tracked(w) && !filters.excluded(p))
  {
  }

  lemma SelectedValid(cs: seq<Change>, filters: Filters)
    requires AllGood(cs, filters)
    ensures forall p :: p in Selected(cs, filters).delete ==> ValidPath(p)
  {
    forall p | p in Selected(cs, filters).delete
      ensures ValidPath(p)
    {
      var c :| c in cs && p in Removed(c);
      assert p in PathsOf(c);
    }
  }

  /** The rebuilt tree is exactly the expected one, even when a path is in both sets. */
  lemma RebuildIsExact(w: Worktree, m: Manifest, excluded: string -> bool)
    requires Covers(m, w, excluded)
    ensures Receive(w.head, m, w.files) == Expected(w, excluded)
  {
    var got, want := Receive(w.head, m, w.files), Expected(w, excluded);
    forall p
      ensures p in got <==> p in want
      ensures p in got && p in want ==> got[p] == want[p]
    {
      if p in w.files && !excluded(p) && p in w.head && p in w.index && w.head[p] == w.files[p] {
        assert p !in m.delete;
      }
    }
  }

  /** Overlay preserves meaning: whatever Git prints for the worktree, a successful discovery makes
      the server rebuild the worktree exactly, and its deletions never fail. */
  lemma OverlayPreservesMeaning(c: Checkout, filters: Filters)
    requires Described(c) && WellFormed(c.worktree.head)
    ensures var r := DiscoverIn(c, filters);
            r.Success? ==> && Receive(c.worktree.head, r.value, c.worktree.files) == Expected(c.worktree, filters.excluded)
                           && forall p :: p in r.value.delete ==> Deletable(c.worktree.head, p)
  {
    ManifestOf(c, filters);
    var r := DiscoverIn(c, filters);
    if r.Success? {
      RebuildIsExact(c.worktree, r.value, filters.excluded);
    }
  }

  // ---------------------------------------------------------------- every pairing can be printed

  /** Git can print the paths: none holds a NUL. */
  predicate Nameable(w: Worktree) {
    forall p :: p in w.head.Keys + w.files.Keys ==> NUL !in p && p != ""
  }

  lemma Listed(s: set<string>) returns (q: seq<string>)
    ensures forall p :: p in q <==> p in s
  {
    if s == {} {
      q := [];
    } else {
      var p :| p in s;
      var rest := Listed(s - {p});
      q := [p] + rest;
    }
  }

  /** A missing path and a new tracked one that Git may print as a rename. */
  predicate Pairable(w: Worktree, pair: (string, string)) {
    pair.0 in Missing(w) && pair.1 in Tracked(w) && pair.1 !in w.head
  }

  /** The list that prints the given pairs as renames and every other missing or changed path by itself. */
  function PairedList(w: Worktree, pairs: seq<(string, string)>, gone: seq<string>, changed: seq<string>): (es: seq<Entry>) {
    seq(|pairs|, i requires 0 <= i < |pairs| => Renamed(pairs[i].0, pairs[i].1, "100"))
    + seq(|gone|, i requires 0 <= i < |gone| => Deleted(gone[i]))
    + seq(|changed|, i requires 0 <= i < |changed| => Touched(changed[i], if changed[i] in w.head then 'M' else 'A'))
  }

  lemma PairedEntries(w: Worktree, pairs: seq<(string, string)>, gone: seq<string>, changed: seq<string>, e: Entry)
    ensures e in PairedList(w, pairs, gone, changed) <==>
            || (exists pair :: pair in pairs && e == Renamed(pair.0, pair.1, "100"))
            || (e.Deleted? && e.path in gone)
            || (e.Touched? && e.path in changed && e.letter == if e.path in w.head then 'M' else 'A')
  {
    var es := PairedList(w, pairs, gone, changed);
    if pair :| pair in pairs && e == Renamed(pair.0, pair.1, "100") {
      var i :| 0 <= i < |pairs| && pairs[i] == pair;
      assert es[i] == e;
    }
    forall i | 0 <= i < |pairs|
      ensures es[i] == Renamed(pairs[i].0, pairs[i].1, "100") && pairs[i] in pairs
    {
    }
    if e.Deleted? && e.path in gone {
      var i :| 0 <= i < |gone| && gone[i] == e.path;
      assert es[|pairs| + i] == e;
    }
    if e.Touched? && e.path in changed && e.letter == if e.path in w.head then 'M' else 'A' {
      var i :| 0 <= i < |changed| && changed[i] == e.path;
      assert es[|pairs| + |gone| + i] == e;
    }
  }

  predicate Renames100(es: seq<Entry>, pair: (string, string)) {
    Renamed(pair.0, pair.1, "100") in es
  }

  lemma PairedDiff(w: Worktree, pairs: seq<(string, string)>, gone: seq<string>, changed: seq<string>)
    requires Nameable(w) && forall pair :: pair in pairs ==> Pairable(w, pair)
    requires forall p :: p in gone <==> p in Missing(w) && forall pair :: pair in pairs ==> pair.0 != p
    requires forall p :: p in changed <==> p in Changed(w) && forall pair :: pair in pairs ==> pair.1 != p
    ensures DiffOf(PairedList(w, pairs, gone, changed), w)
  {
    var es := PairedList(w, pairs, gone, changed);
    PairedRenames(w, pairs, gone, changed);
    forall e | e in es
      ensures Fits(e, w)
    {
      PairedEntries(w, pairs, gone, changed, e);
    }
    forall p | p in Missing(w)
      ensures exists e :: e in es && SaysGone(e, p)
    {
      if pair :| pair in pairs && pair.0 == p {
        assert Renames100(es, pair) && SaysGone(Renamed(pair.0, pair.1, "100"), p);
      } else {
        PairedEntries(w, pairs, gone, changed, Deleted(p));
        assert SaysGone(Deleted(p), p);
      }
    }
    forall p | p in Changed(w)
      ensures exists e :: e in es && SaysChanged(e, p)
    {
      if pair :| pair in pairs && pair.1 == p {
        assert Renames100(es, pair) && SaysChanged(Renamed(pair.0, pair.1, "100"), p);
      } else {
        var e := Touched(p, if p in w.head then 'M' else 'A');
        PairedEntries(w, pairs, gone, changed, e);
        assert SaysChanged(e, p);
      }
    }
  }

  /** Every rename in a described list deletes its old path and transfers its new one, unless excluded;
      a copy transfers its new path and deletes nothing, a deletion deletes. */
  lemma EntriesAreFollowed(c: Checkout, filters: Filters, e: Entry)
    requires Described(c) && e in c.entries && DiscoverIn(c, filters).Success?
    ensures var m := DiscoverIn(c, filters).value;
            && (e.Deleted? || e.Renamed? ==> (e.path in m.delete <==> !filters.excluded(e.path)))
            && (e.Renamed? || e.Copied? ==> (e.to in m.transfer <==> !filters.excluded(e.to)) && e.to !in m.delete)
            && (e.Touched? && e.letter == 'A' ==> (e.path in m.transfer <==> !filters.excluded(e.path)))
            && (e.Touched? ==> e.path !in m.delete)
  {
    ManifestOf(c, filters);
    assert Fits(e, c.worktree);
  }

  lemma PairedDescribed(w: Worktree, pairs: seq<(string, string)>, gone: seq<string>, changed: seq<string>, names: seq<string>)
    requires Nameable(w) && forall pair :: pair in pairs ==> Pairable(w, pair)
    requires forall p :: p in gone <==> p in Missing(w) && forall pair :: pair in pairs ==> pair.0 != p
    requires forall p :: p in changed <==> p in Changed(w) && forall pair :: pair in pairs ==> pair.1 != p
    requires forall p :: p in names <==> p in Untracked(w)
    ensures Described(Checkout(w, PairedList(w, pairs, gone, changed), {}, names))
  {
    PairedDiff(w, pairs, gone, changed);
    forall p | p in names
      ensures NUL !in p && p != ""
    {
      assert p in Untracked(w) && p in w.head.Keys + w.files.Keys;
    }
  }

  /** Any pairing of missing paths with new tracked ones can be printed as renames: there is a list with
      exactly these renames that describes the worktree, and its discovery succeeds exactly when every
      missing, changed and untracked path is valid and no submodule is among the first two. */
  lemma AnyPairingIsDescribed(w: Worktree, pairs: seq<(string, string)>, filters: Filters) returns (c: Checkout)
    requires Nameable(w) && forall pair :: pair in pairs ==> Pairable(w, pair)
    ensures Described(c) && c.worktree == w && forall pair :: pair in pairs ==> Renames100(c.entries, pair)
    ensures forall e :: e in c.entries && e.Renamed? ==> (e.path, e.to) in pairs
    ensures DiscoverIn(c, filters).Success? <==>
              && (forall p :: p in Missing(w) + Changed(w) ==> ValidPath(p) && !filters.submodule(p))
              && forall p :: p in Untracked(w) ==> ValidPath(p)
  {
    var gone := Listed(set p | p in Missing(w) && forall pair :: pair in pairs ==> pair.0 != p);
    var changed := Listed(set p | p in Changed(w) && forall pair :: pair in pairs ==> pair.1 != p);
    var names := Listed(Untracked(w));
    var es := PairedList(w, pairs, gone, changed);
    c := Checkout(w, es, {}, names);
    PairedDescribed(w, pairs, gone, changed, names);
    PairedRenames(w, pairs, gone, changed);
    PairedGood(w, pairs, gone, changed, filters);
    ManifestOf(c, filters);
  }

  lemma PairedRenames(w: Worktree, pairs: seq<(string, string)>, gone: seq<string>, changed: seq<string>)
    ensures forall pair :: pair in pairs ==> Renames100(PairedList(w, pairs, gone, changed), pair)
    ensures forall e :: e in PairedList(w, pairs, gone, changed) && e.Renamed? ==> (e.path, e.to) in pairs
  {
    forall pair | pair in pairs
      ensures Renames100(PairedList(w, pairs, gone, changed), pair)
    {
      PairedEntries(w, pairs, gone, changed, Renamed(pair.0, pair.1, "100"));
    }
    forall e | e in PairedList(w, pairs, gone, changed) && e.Renamed?
      ensures (e.path, e.to) in pairs
    {
      PairedEntries(w, pairs, gone, changed, e);
      var pair :| pair in pairs && e == Renamed(pair.0, pair.1, "100");
      assert pair == (e.path, e.to);
    }
  }

  lemma PairedGood(w: Worktree, pairs: seq<(string, string)>, gone: seq<string>, changed: seq<string>, filters: Filters)
    requires forall pair :: pair in pairs ==> Pairable(w, pair)
    requires forall p :: p in gone <==> p in Missing(w) && forall pair :: pair in pairs ==> pair.0 != p
    requires forall p :: p in changed <==> p in Changed(w) && forall pair :: pair in pairs ==> pair.1 != p
    ensures (forall e :: e in PairedList(w, pairs, gone, changed) ==> GoodEntry(e, filters))
            <==> forall p :: p in Missing(w) + Changed(w) ==> ValidPath(p) && !filters.submodule(p)
  {
    var es := PairedList(w, pairs, gone, changed);
    if forall p :: p in Missing(w) + Changed(w) ==> ValidPath(p) && !filters.submodule(p) {
      forall e | e in es
        ensures GoodEntry(e, filters)
      {
        PairedEntries(w, pairs, gone, changed, e);
      }
    }
    if forall e :: e in es ==> GoodEntry(e, filters) {
      forall p | p in Missing(w) + Changed(w)
        ensures ValidPath(p) && !filters.submodule(p)
      {
        PairedEntries(w, pairs, gone, changed, Deleted(p));
        PairedEntries(w, pairs, gone, changed, Touched(p, if p in w.head then 'M' else 'A'));
        if pair :| pair in pairs && (pair.0 == p || pair.1 == p) {
          PairedEntries(w, pairs, gone, changed, Renamed(pair.0, pair.1, "100"));
        }
      }
    }
  }

  /** Files lie below the path. */
  predicate IsDirectory(t: Tree, p: string) {
    exists q :: q in t && StartsWith(q, p + "/")
  }

  /** No path is both a file and a directory. */
  predicate WellFormed(t: Tree) {
    forall p :: p in t ==> !IsDirectory(t, p)
  }

  predicate Deletable(t: Tree, p: string) {
    ValidPath(p) && !IsDirectory(t, p)
  }

  /** A deletion is refused exactly for an invalid path and for one below which the tree holds a file. */
  lemma DeletableExactly(t: Tree, p: string)
    ensures Deletable(t, p) <==> ValidPath(p) && forall x: string :: p + "/" + x !in t
  {
    forall q | q in t && StartsWith(q, p + "/")
      ensures p + "/" + q[|p| + 1..] in t
    {
      assert q == p + "/" + q[|p| + 1..];
    }
    forall x: string | p + "/" + x in t
      ensures IsDirectory(t, p)
    {
      assert (p + "/" + x)[..|p| + 1] == p + "/";
    }
  }

  /** Deleting after the transfer instead gives the same tree exactly when no path is in both sets. */
  lemma OrderMatters(t: Tree, m: Manifest, files: Tree)
    requires forall p :: p in m.transfer ==> p in files
    ensures Receive(t, m, files) == ApplyDeletions(Transfer(t, m.transfer, files), m.delete) <==> m.transfer !! m.delete
  {
    var late := ApplyDeletions(Transfer(t, m.transfer, files), m.delete);
    if p :| p in m.transfer && p in m.delete {
      assert p in Receive(t, m, files) && p !in late;
    } else {
      assert m.transfer !! m.delete;
      assert Receive(t, m, files) == late;
    }
  }

  // ---------------------------------------------------------------- the server's side

  /** The reserved part of a job that preparation reads. */
  datatype Reserved = Reserved(
    job: string, repository: string, includes: map<string, string>,
    workspaces: map<string, string>, commits: map<string, string>, deletions: map<string, seq<string>>)

  function Elements(q: seq<string>): set<string> {
    set p | p in q
  }

  function DeletionsOf(r: Reserved, role: string): seq<string> {
    if role in r.deletions then r.deletions[role] else []
  }

  function RepositoryOf(r: Reserved, role: string): Option<string> {
    if role == "primary" then Some(r.repository)
    else if role in r.includes then Some(r.includes[role]) else None
  }

  /** A path with components appended one by one. */
  function Under(path: string, parts: seq<string>): string
    decreases |parts|
  {
    if parts == [] then path else Under(path + "/" + parts[0], parts[1..])
  }

  /** The reservation that the client asks for: `names` has the repository of every role. */
  function ReservedFor(job: string, names: map<string, string>, commits: map<string, string>, remote: string): Reserved
    requires "primary" in names
  {
    Reserved(job, names["primary"], map role | role in names && role != "primary" :: names[role],
             map role | role in names :: Under(remote, ["workspaces", names[role], job, role]), commits, map[])
  }

  /** One manifest for each role, and its deletions as a list. */
  method DiscoverAll(roles: seq<string>, local: map<string, Checkout>, filters: Filters)
    returns (r: Option<(map<string, Manifest>, map<string, seq<string>>)>)
    requires forall role :: role in roles ==> role in local
    ensures r.Some? <==> forall role :: role in roles ==> DiscoverIn(local[role], filters).Success?
    ensures r.Some? ==> forall role :: role in roles ==>
              && role in r.value.0 && role in r.value.1
              && DiscoverIn(local[role], filters) == Success(r.value.0[role]) && Elements(r.value.1[role]) == r.value.0[role].delete
  {
    var manifests: map<string, Manifest> := map[];
    var deletions: map<string, seq<string>> := map[];
    var i := 0;
    while i < |roles|
      invariant 0 <= i <= |roles|
      invariant forall role :: role in roles[..i] ==>
                  && role in manifests && role in deletions
                  && DiscoverIn(local[role], filters) == Success(manifests[role]) && Elements(deletions[role]) == manifests[role].delete
    {
      assert roles[..i + 1] == roles[..i] + [roles[i]];
      var found := DiscoverOverlay(ChangesOf(local[roles[i]]), UntrackedOf(local[roles[i]]), filters);
      if found.Failure? {
        return None;
      }
      var listed := Listing(found.value.delete);
      manifests := manifests[roles[i] := found.value];
      deletions := deletions[roles[i] := listed];
      i := i + 1;
    }
    assert roles[..i] == roles;
    r := Some((manifests, deletions));
  }

  /** A set listed in some order. */
  method Listing(s: set<string>) returns (q: seq<string>)
    ensures Elements(q) == s && NoDuplicates(q)
  {
    q := [];
    var left := s;
    while left != {}
      invariant left <= s && Elements(q) == s - left && NoDuplicates(q)
    {
      var p :| p in left;
      assert p !in Elements(q) && Elements(q + [p]) == Elements(q) + {p};
      assert forall i :: 0 <= i < |q| ==> q[i] in Elements(q);
      q := q + [p];
      left := left - {p};
    }
  }

  /** What the connection to the server lets through: the reservation, the preparation, and each
      role's push and copy. */
  datatype Link = Link(reserves: bool, prepares: bool, unpushed: set<string>, uncopied: set<string>)

  /** How far a submission came: not even reserved, reserved and then cancelled, or to its start. */
  datatype Submission = Unreserved | Withdrawn | Submitted

  class Server {
    const root: string
    /** The tree of each commit a repository's mirror holds. */
    const mirrors: map<(string, string), Tree>
    /** The workspace of each role of one job. */
    var workspaces: map<string, Tree>

    constructor (root: string, mirrors: map<(string, string), Tree>)
      requires forall k :: k in mirrors ==> WellFormed(mirrors[k])
      ensures Valid() && workspaces == map[] && this.mirrors == mirrors && this.root == root
    {
      workspaces := map[];
      this.root := root;
      this.mirrors := mirrors;
    }

    ghost predicate Valid() {
      forall k :: k in mirrors ==> WellFormed(mirrors[k])
    }

    function PathFor(repository: string, job: string, role: string): string {
      root + "/" + repository + "/" + job + "/" + role
    }

    lemma FourBelow(path: string, a: string, b: string, c: string, d: string)
      ensures Under(path, [a, b, c, d]) == path + "/" + a + "/" + b + "/" + c + "/" + d
    {
      var q := path + "/" + a;
      assert [a, b, c, d][1..] == [b, c, d] && [b, c, d][1..] == [c, d] && [c, d][1..] == [d] && [d][1..] == [];
      assert Under(path, [a, b, c, d]) == Under(q, [b, c, d]) == Under(q + "/" + b, [c, d]);
      assert Under(q + "/" + b, [c, d]) == Under(q + "/" + b + "/" + c, [d]);
    }

    /** What the client reserves is what the server prepares: each role has the repository of its local
        worktree, and its path is the server's exactly when both mean the same root. */
    lemma ReservedAsPrepared(job: string, names: map<string, string>, commits: map<string, string>, remote: string, role: string)
      requires "primary" in names && role in names
      ensures var spec := ReservedFor(job, names, commits, remote);
              && RepositoryOf(spec, role) == Some(names[role])
              && (Placed(spec, role) <==> root == remote + "/workspaces")
    {
      var tail := "/" + names[role] + "/" + job + "/" + role;
      FourBelow(remote, "workspaces", names[role], job, role);
      var theirs, ours := Under(remote, ["workspaces", names[role], job, role]), PathFor(names[role], job, role);
      assert theirs == (remote + "/workspaces") + tail && ours == root + tail;
      if theirs == ours {
        assert |root| == |remote + "/workspaces"|;
        assert theirs[..|root|] == remote + "/workspaces" && ours[..|root|] == root;
      }
    }

    /** No two roles, jobs or repositories share a workspace path: their names hold no slash. */
    lemma PathsAreSeparate(repository: string, job: string, role: string, repository': string, job': string, role': string)
      requires forall x :: x in [repository, job, role, repository', job', role'] ==> '/' !in x
      ensures PathFor(repository, job, role) == PathFor(repository', job', role')
              ==> repository == repository' && job == job' && role == role'
    {
      var a, b := [repository, job, role], [repository', job', role'];
      PathEnds(repository, job, role);
      PathEnds(repository', job', role');
      if PathFor(repository, job, role) == PathFor(repository', job', role') {
        assert (PathFor(repository, job, role) + "/")[|root| + 1..] == Terminate(a, '/');
        assert (PathFor(repository', job', role') + "/")[|root| + 1..] == Terminate(b, '/');
        SplitTerminated(a, '/');
        SplitTerminated(b, '/');
        assert (a + [[]])[0] == (b + [[]])[0] && (a + [[]])[1] == (b + [[]])[1] && (a + [[]])[2] == (b + [[]])[2];
      }
    }

    lemma PathEnds(repository: string, job: string, role: string)
      ensures PathFor(repository, job, role) + "/" == root + "/" + Terminate([repository, job, role], '/')
    {
      assert [repository, job, role][1..] == [job, role] && [job, role][1..] == [role] && [role][1..] == [];
      assert Terminate([role], '/') == role + ['/'] + [];
      assert Terminate([job, role], '/') == job + ['/'] + Terminate([role], '/');
    }

    /** `apply_overlay_deletions`: stops at the first path that is invalid or a directory; unlinking
        a file leaves its directory in place. */
    method DeleteAll(role: string, paths: seq<string>) returns (ok: bool)
      requires role in workspaces && WellFormed(workspaces[role])
      modifies this
      ensures workspaces.Keys == old(workspaces).Keys
      ensures forall r :: r in workspaces && r != role ==> workspaces[r] == old(workspaces)[r]
      ensures ok <==> forall p :: p in paths ==> Deletable(old(workspaces)[role], p)
      ensures ok ==> workspaces[role] == ApplyDeletions(old(workspaces)[role], Elements(paths))
    {
      var was := workspaces[role];
      var i := 0;
      while i < |paths|
        invariant 0 <= i <= |paths| && role in workspaces
        invariant workspaces.Keys == old(workspaces).Keys
        invariant forall r :: r in workspaces && r != role ==> workspaces[r] == old(workspaces)[r]
        invariant workspaces[role] == ApplyDeletions(was, Elements(paths[..i]))
        invariant forall p :: p in paths[..i] ==> Deletable(was, p)
      {
        assert paths[..i + 1] == paths[..i] + [paths[i]];
        if !ValidPath(paths[i]) {
          assert !Deletable(was, paths[i]) && paths[i] in paths;
          return false;
        }
        if paths[i] in workspaces[role] {
          workspaces := workspaces[role := workspaces[role] - {paths[i]}];
        } else if IsDirectory(was, paths[i]) {
          assert !Deletable(was, paths[i]) && paths[i] in paths;
          return false;
        }
        i := i + 1;
      }
      assert paths[..i] == paths;
      ok := true;
    }

    ghost predicate Preparable(spec: Reserved, role: string) {
      && role in spec.commits && role in spec.workspaces && RepositoryOf(spec, role).Some?
      && (RepositoryOf(spec, role).value, spec.commits[role]) in mirrors
      && PathFor(RepositoryOf(spec, role).value, spec.job, role) == spec.workspaces[role]
      && forall p :: p in DeletionsOf(spec, role) ==>
           Deletable(mirrors[(RepositoryOf(spec, role).value, spec.commits[role])], p)
    }

    ghost function Prepared(spec: Reserved, role: string): Tree
      requires Preparable(spec, role)
    {
      ApplyDeletions(mirrors[(RepositoryOf(spec, role).value, spec.commits[role])], Elements(DeletionsOf(spec, role)))
    }

    /** One role: reset to its commit, compare the path with the reserved one, then delete. */
    method PrepareRole(spec: Reserved, role: string) returns (ok: bool)
      requires Valid() && role in spec.commits && role in spec.workspaces
      modifies this
      ensures ok <==> Preparable(spec, role)
      ensures ok ==> role in workspaces && workspaces[role] == Prepared(spec, role)
      ensures forall r :: r != role ==> (r in workspaces <==> r in old(workspaces))
      ensures forall r :: r != role && r in workspaces ==> workspaces[r] == old(workspaces)[r]
    {
      var repository := RepositoryOf(spec, role);
      if repository.None? || (repository.value, spec.commits[role]) !in mirrors {
        return false;
      }
      workspaces := workspaces[role := mirrors[(repository.value, spec.commits[role])]];
      if PathFor(repository.value, spec.job, role) != spec.workspaces[role] {
        return false;
      }
      ok := DeleteAll(role, DeletionsOf(spec, role));
    }

    /** `prepare_all_workspaces`: every role is reset to its commit and loses its deletions. */
    method PrepareAll(spec: Reserved, roles: seq<string>) returns (ok: bool)
      requires Valid() && Elements(roles) == spec.workspaces.Keys && NoDuplicates(roles)
      modifies this
      ensures ok <==> spec.commits.Keys == spec.workspaces.Keys && forall r :: r in roles ==> Preparable(spec, r)
      ensures ok ==> forall r :: r in roles ==> r in workspaces && workspaces[r] == Prepared(spec, r)
      ensures forall r :: r !in roles ==> (r in workspaces <==> r in old(workspaces))
      ensures forall r :: r !in roles && r in workspaces ==> workspaces[r] == old(workspaces)[r]
    {
      if spec.commits.Keys != spec.workspaces.Keys {
        return false;
      }
      assert forall r :: r in roles ==> r in Elements(roles);
      var i := 0;
      while i < |roles|
        invariant 0 <= i <= |roles|
        invariant forall r :: r in roles[..i] ==> Preparable(spec, r) && r in workspaces && workspaces[r] == Prepared(spec, r)
        invariant forall r :: r !in roles ==> (r in workspaces <==> r in old(workspaces))
        invariant forall r :: r !in roles && r in workspaces ==> workspaces[r] == old(workspaces)[r]
      {
        assert roles[..i + 1] == roles[..i] + [roles[i]] && roles[i] !in roles[..i];
        var prepared := PrepareRole(spec, roles[i]);
        if !prepared {
          return false;
        }
        i := i + 1;
      }
      assert roles[..i] == roles;
      ok := true;
    }

    /** `sync_overlay`: copies the listed local files into one workspace. */
    method SyncOverlay(role: string, transfer: set<string>, files: Tree)
      requires role in workspaces
      modifies this
      ensures workspaces == old(workspaces)[role := Transfer(old(workspaces)[role], transfer, files)]
    {
      workspaces := workspaces[role := Transfer(workspaces[role], transfer, files)];
    }

    /** The overlays of all roles are copied one after the other, up to the first that fails. */
    method SyncAll(roles: seq<string>, manifests: map<string, Manifest>, local: map<string, Checkout>, link: Link) returns (ok: bool)
      requires NoDuplicates(roles) && forall r :: r in roles ==> r in workspaces && r in manifests && r in local
      modifies this
      ensures workspaces.Keys == old(workspaces).Keys
      ensures ok <==> forall r :: r in roles ==> r !in link.uncopied
      ensures ok ==> forall r :: r in roles ==>
                r in workspaces && workspaces[r] == Transfer(old(workspaces)[r], manifests[r].transfer, local[r].worktree.files)
    {
      var i := 0;
      while i < |roles|
        invariant 0 <= i <= |roles| && workspaces.Keys == old(workspaces).Keys
        invariant forall r :: r in roles && r !in roles[..i] ==> workspaces[r] == old(workspaces)[r]
        invariant forall r :: r in roles[..i] ==> r !in link.uncopied
        invariant forall r :: r in roles[..i] ==>
                    workspaces[r] == Transfer(old(workspaces)[r], manifests[r].transfer, local[r].worktree.files)
      {
        assert roles[..i + 1] == roles[..i] + [roles[i]] && roles[i] !in roles[..i];
        if roles[i] in link.uncopied {
          return false;
        }
        SyncOverlay(roles[i], manifests[roles[i]].transfer, local[roles[i]].worktree.files);
        i := i + 1;
      }
      assert roles[..i] == roles;
      ok := true;
    }

    /** Every role's commit is pushed, up to the first push that fails. */
    method PushAll(roles: seq<string>, link: Link) returns (ok: bool)
      ensures ok <==> forall r :: r in roles ==> r !in link.unpushed
    {
      var i := 0;
      while i < |roles|
        invariant 0 <= i <= |roles| && forall r :: r in roles[..i] ==> r !in link.unpushed
      {
        assert roles[..i + 1] == roles[..i] + [roles[i]];
        if roles[i] in link.unpushed {
          return false;
        }
        i := i + 1;
      }
      assert roles[..i] == roles;
      ok := true;
    }

    /** The commit a role names is the head of its local worktree and has been pushed, and Git's
        outputs describe that worktree. */
    ghost predicate Pushed(spec: Reserved, role: string, c: Checkout) {
      && role in spec.commits && role in spec.workspaces && RepositoryOf(spec, role).Some?
      && (RepositoryOf(spec, role).value, spec.commits[role]) in mirrors
      && mirrors[(RepositoryOf(spec, role).value, spec.commits[role])] == c.worktree.head
      && Described(c)
    }

    /** The server prepared the reserved workspace path. */
    predicate Placed(spec: Reserved, role: string) {
      && role in spec.workspaces && RepositoryOf(spec, role).Some?
      && PathFor(RepositoryOf(spec, role).value, spec.job, role) == spec.workspaces[role]
    }

    /** With the discovered deletions a pushed role is prepared exactly when its path is the reserved
        one, and after the copy its workspace is the local worktree. */
    lemma RoleIsRebuilt(spec: Reserved, role: string, c: Checkout, filters: Filters, m: Manifest)
      requires Valid() && Pushed(spec, role, c)
      requires DiscoverIn(c, filters) == Success(m) && Elements(DeletionsOf(spec, role)) == m.delete
      ensures Preparable(spec, role) <==> Placed(spec, role)
      ensures Preparable(spec, role) ==>
                Transfer(Prepared(spec, role), m.transfer, c.worktree.files) == Expected(c.worktree, filters.excluded)
    {
      OverlayPreservesMeaning(c, filters);
      assert forall p :: p in DeletionsOf(spec, role) ==> p in Elements(DeletionsOf(spec, role));
    }

    lemma RolesAreRebuilt(spec: Reserved, reserved: Reserved, roles: seq<string>, local: map<string, Checkout>, filters: Filters,
                          manifests: map<string, Manifest>)
      requires Valid() && reserved == spec.(deletions := reserved.deletions)
      requires forall r :: r in roles ==> r in local && r in manifests && r in reserved.deletions && Pushed(spec, r, local[r])
      requires forall r :: r in roles ==>
                 DiscoverIn(local[r], filters) == Success(manifests[r]) && Elements(reserved.deletions[r]) == manifests[r].delete
      ensures forall r :: r in roles ==> (Preparable(reserved, r) <==> Placed(spec, r))
      ensures forall r :: r in roles && Preparable(reserved, r) ==>
                Transfer(Prepared(reserved, r), manifests[r].transfer, local[r].worktree.files)
                == Expected(local[r].worktree, filters.excluded)
    {
      forall r | r in roles
        ensures Preparable(reserved, r) <==> Placed(spec, r)
        ensures Preparable(reserved, r) ==>
                  Transfer(Prepared(reserved, r), manifests[r].transfer, local[r].worktree.files)
                  == Expected(local[r].worktree, filters.excluded)
      {
        assert Pushed(reserved, r, local[r]);
        RoleIsRebuilt(reserved, r, local[r], filters, manifests[r]);
      }
    }

    /** What has to go well for a submission to reach the start of its command. */
    ghost predicate Submittable(spec: Reserved, roles: seq<string>, local: map<string, Checkout>, filters: Filters, link: Link)
      requires forall r :: r in roles ==> r in local
    {
      && link.reserves && link.prepares
      && forall r :: r in roles ==>
           DiscoverIn(local[r], filters).Success? && Placed(spec, r) && r !in link.unpushed && r !in link.uncopied
    }

    /** Every role has a local worktree, and its push fails or delivers what the role names. */
    ghost predicate Delivered(spec: Reserved, roles: seq<string>, local: map<string, Checkout>, link: Link) {
      forall r :: r in roles ==> r in local && (r in link.unpushed || Pushed(spec, r, local[r]))
    }

    /** After the pushes: prepare every role, then copy every overlay. */
    method Transmit(spec: Reserved, roles: seq<string>, local: map<string, Checkout>, filters: Filters, link: Link,
                    manifests: map<string, Manifest>, deletions: map<string, seq<string>>) returns (ok: bool)
      requires Valid() && Elements(roles) == spec.workspaces.Keys == spec.commits.Keys && NoDuplicates(roles)
      requires Delivered(spec, roles, local, link) && forall r :: r in roles ==> r !in link.unpushed
      requires forall r :: r in roles ==>
                 && r in manifests && r in deletions
                 && DiscoverIn(local[r], filters) == Success(manifests[r]) && Elements(deletions[r]) == manifests[r].delete
      modifies this
      ensures ok <==> link.prepares && forall r :: r in roles ==> Placed(spec, r) && r !in link.uncopied
      ensures ok ==> forall r :: r in roles ==> r in workspaces && workspaces[r] == Expected(local[r].worktree, filters.excluded)
    {
      if !link.prepares {
        return false;
      }
      var reserved := spec.(deletions := deletions);
      RolesAreRebuilt(spec, reserved, roles, local, filters, manifests);
      ok := PrepareAll(reserved, roles);
      if ok {
        ok := SyncAll(roles, manifests, local, link);
      }
    }

    /** `run_worktrees` up to the start of the command: discover every overlay, reserve it, push every
        commit, prepare every role and copy. It submits exactly when everything goes well, and then
        every workspace is its local worktree. What fails after the reservation cancels the job, and no
        workspace is touched before every commit has been pushed. */
    method RunWorktrees(spec: Reserved, roles: seq<string>, local: map<string, Checkout>, filters: Filters, link: Link)
      returns (r: Submission)
      requires Valid() && Elements(roles) == spec.workspaces.Keys == spec.commits.Keys && NoDuplicates(roles)
      requires Delivered(spec, roles, local, link)
      modifies this
      ensures r.Submitted? <==> Submittable(spec, roles, local, filters, link)
      ensures r.Submitted? ==> forall role :: role in roles ==>
                role in workspaces && workspaces[role] == Expected(local[role].worktree, filters.excluded)
      ensures r.Unreserved? <==> !link.reserves || exists role :: role in roles && DiscoverIn(local[role], filters).Failure?
      ensures r.Unreserved? || (exists role :: role in roles && role in link.unpushed) ==> workspaces == old(workspaces)
    {
      var found := DiscoverAll(roles, local, filters);
      if found.None? || !link.reserves {
        return Unreserved;
      }
      var pushed := PushAll(roles, link);
      if !pushed {
        return Withdrawn;
      }
      var ok := Transmit(spec, roles, local, filters, link, found.value.0, found.value.1);
      r := if ok then Submitted else Withdrawn;
    }
  }
}
