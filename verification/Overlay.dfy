/** The sparse overlay of a worktree: reading Git's change list, and what it denotes. */
module Overlay {
  import opened Collections
  import opened Paths

  /** What the discovery asks of Git and of the exclude file. */
  datatype Filters = Filters(submodule: string -> bool, excluded: string -> bool)

  datatype Manifest = Manifest(transfer: set<string>, delete: set<string>)

  datatype Error = Truncated | InvalidPath(path: string) | SubmoduleChange(path: string)

  /** One entry of `git diff --name-status`; a rename or copy has a second path. */
  datatype Change = Change(status: string, path: string, second: Option<string>)

  predicate Renames(status: string) {
    status != "" && status[0] == 'R'
  }

  predicate Copies(status: string) {
    status != "" && status[0] == 'C'
  }

  predicate Deletes(status: string) {
    status != "" && status[0] == 'D'
  }

  predicate TwoPaths(status: string) {
    Renames(status) || Copies(status)
  }

  function PathsOf(c: Change): set<string> {
    {c.path} + if c.second.Some? then {c.second.value} else {}
  }

  /** The paths a change removes from the committed tree. */
  function Removed(c: Change): set<string> {
    if Renames(c.status) || Deletes(c.status) then {c.path} else {}
  }

  /** The paths whose worktree content differs from the committed tree. */
  function Altered(c: Change): set<string> {
    if TwoPaths(c.status) then (if c.second.Some? then {c.second.value} else {})
    else if Deletes(c.status) then {} else {c.path}
  }

  // ---------------------------------------------------------------- the -z stream

  /** `output.split(b"\0")` without its empty last field. */
  function Fields(stream: string): seq<string> {
    var f := SplitOn(stream, NUL);
    if f[|f| - 1] == "" then f[..|f| - 1] else f
  }

  function FirstTab(s: string): (i: nat)
    ensures i <= |s| && '\t' !in s[..i] && (i < |s| ==> s[i] == '\t')
  {
    if s == "" || s[0] == '\t' then 0
    else
      var i := 1 + FirstTab(s[1..]);
      assert s[..i] == [s[0]] + s[1..][..i - 1];
      i
  }

  /** Reads one change from the front of the fields; paths are checked as they are read. */
  function ReadChange(f: seq<string>): (r: Result<(Change, seq<string>), Error>)
    requires f != []
    ensures r.Success? ==> |r.value.1| < |f|
  {
    var tab := FirstTab(f[0]);
    if tab == |f[0]| && |f| == 1 then Failure(Truncated)
    else
      var status := f[0][..tab];
      var path := if tab < |f[0]| then f[0][tab + 1..] else f[1];
      var rest := if tab < |f[0]| then f[1..] else f[2..];
      if !ValidPath(path) then Failure(InvalidPath(path))
      else if !TwoPaths(status) then Success((Change(status, path, None), rest))
      else if rest == [] then Failure(Truncated)
      else if !ValidPath(rest[0]) then Failure(InvalidPath(rest[0]))
      else Success((Change(status, path, Some(rest[0])), rest[1..]))
  }

  function Include(m: Manifest, c: Change, filters: Filters): Manifest {
    Manifest(m.transfer + (set p | p in Altered(c) && !filters.excluded(p)),
             m.delete + (set p | p in Removed(c) && !filters.excluded(p)))
  }

  function SubmoduleIn(c: Change, filters: Filters): Option<string> {
    if filters.submodule(c.path) then Some(c.path)
    else if c.second.Some? && filters.submodule(c.second.value) then c.second
    else None
  }

  function ReadAll(f: seq<string>, filters: Filters, m: Manifest): Result<Manifest, Error>
    decreases |f|
  {
    if f == [] then Success(m)
    else match ReadChange(f)
      case Failure(e) => Failure(e)
      case Success((c, rest)) =>
        match SubmoduleIn(c, filters)
        case Some(p) => Failure(SubmoduleChange(p))
        case None => ReadAll(rest, filters, Include(m, c, filters))
  }

  function AddUntracked(f: seq<string>, filters: Filters, m: Manifest): Result<Manifest, Error> {
    if f == [] then Success(m)
    else if f[0] == "" then AddUntracked(f[1..], filters, m)
    else if !ValidPath(f[0]) then Failure(InvalidPath(f[0]))
    else AddUntracked(f[1..], filters, if filters.excluded(f[0]) then m else m.(transfer := m.transfer + {f[0]}))
  }

  const EMPTY := Manifest({}, {})

  function Discover(changes: string, untracked: string, filters: Filters): Result<Manifest, Error> {
    match ReadAll(Fields(changes), filters, EMPTY)
    case Failure(e) => Failure(e)
    case Success(m) => AddUntracked(SplitOn(untracked, NUL), filters, m)
  }

  /** `discover_overlay`: the index loop over the change fields, then the untracked files. */
  method DiscoverOverlay(changes: string, untracked: string, filters: Filters) returns (r: Result<Manifest, Error>)
    ensures r == Discover(changes, untracked, filters)
  {
    var transfer, delete: set<string> := {}, {};
    var fields := Fields(changes);
    var index := 0;
    while index < |fields|
      invariant 0 <= index <= |fields|
      invariant ReadAll(fields, filters, EMPTY) == ReadAll(fields[index..], filters, Manifest(transfer, delete))
    {
      var read := ReadAt(fields, index);
      if read.Failure? {
        return Failure(read.error);
      }
      var (status, first, second, next) := read.value;
      assert ReadChange(fields[index..]) == Success((Change(status, first, second), fields[next..]));
      if filters.submodule(first) {
        return Failure(SubmoduleChange(first));
      }
      if second.Some? && filters.submodule(second.value) {
        return Failure(SubmoduleChange(second.value));
      }
      index := next;
      transfer, delete := Sort(transfer, delete, status, first, second, filters);
    }
    assert fields[index..] == [];
    r := CollectUntracked(SplitOn(untracked, NUL), transfer, delete, filters);
  }

  /** The part of the loop body that advances the index over one change. */
  method ReadAt(fields: seq<string>, start: nat) returns (r: Result<(string, string, Option<string>, nat), Error>)
    requires start < |fields|
    ensures match r
            case Failure(e) => ReadChange(fields[start..]) == Failure(e)
            case Success((status, first, second, next)) =>
              && start < next <= |fields| && (TwoPaths(status) <==> second.Some?)
              && ReadChange(fields[start..]) == Success((Change(status, first, second), fields[next..]))
  {
    ghost var f := fields[start..];
    var status, first, index := fields[start], "", start + 1;
    var tab := FirstTab(status);
    if tab < |status| {
      status, first := status[..tab], status[tab + 1..];
    } else {
      if index == |fields| {
        return Failure(Truncated);
      }
      first := fields[index];
      index := index + 1;
      assert f[1] == first && status[..tab] == status;
    }
    if !ValidPath(first) {
      return Failure(InvalidPath(first));
    }
    ghost var rest := fields[index..];
    assert rest == f[index - start..] && (index < |fields| ==> rest != [] && rest[0] == fields[index]);
    assert rest == if tab < |f[0]| then f[1..] else f[2..];
    var second := None;
    if TwoPaths(status) {
      if index == |fields| {
        return Failure(Truncated);
      }
      if !ValidPath(fields[index]) {
        return Failure(InvalidPath(fields[index]));
      }
      second := Some(fields[index]);
      index := index + 1;
      assert rest[1..] == fields[index..];
    }
    r := Success((status, first, second, index));
  }

  /** The loop over the untracked files. */
  method CollectUntracked(raw: seq<string>, t: set<string>, d: set<string>, filters: Filters) returns (r: Result<Manifest, Error>)
    ensures r == AddUntracked(raw, filters, Manifest(t, d))
  {
    var transfer := t;
    var k := 0;
    while k < |raw|
      invariant 0 <= k <= |raw|
      invariant AddUntracked(raw, filters, Manifest(t, d)) == AddUntracked(raw[k..], filters, Manifest(transfer, d))
    {
      if raw[k] != "" {
        if !ValidPath(raw[k]) {
          return Failure(InvalidPath(raw[k]));
        }
        if !filters.excluded(raw[k]) {
          transfer := transfer + {raw[k]};
        }
      }
      k := k + 1;
    }
    assert raw[k..] == [];
    r := Success(Manifest(transfer, d));
  }

  /** The branches that file the paths of one change. */
  method Sort(t: set<string>, d: set<string>, status: string, first: string, second: Option<string>, filters: Filters)
    returns (transfer: set<string>, delete: set<string>)
    requires TwoPaths(status) <==> second.Some?
    ensures Manifest(transfer, delete) == Include(Manifest(t, d), Change(status, first, second), filters)
  {
    transfer, delete := t, d;
    if Renames(status) {
      if !filters.excluded(first) {
        delete := delete + {first};
      }
      if !filters.excluded(second.value) {
        transfer := transfer + {second.value};
      }
    } else if Copies(status) {
      if !filters.excluded(second.value) {
        transfer := transfer + {second.value};
      }
    } else if Deletes(status) {
      if !filters.excluded(first) {
        delete := delete + {first};
      }
    } else if !filters.excluded(first) {
      transfer := transfer + {first};
    }
  }

  // ---------------------------------------------------------------- printing and reading back

  /** A change as Git can print it; `tabbed` puts status and path into one field. */
  predicate Printable(c: Change) {
    && (TwoPaths(c.status) <==> c.second.Some?)
    && NUL !in c.status && '\t' !in c.status && NUL !in c.path && (c.second.Some? ==> NUL !in c.second.value)
  }

  function FieldsOf(c: Change, tabbed: bool): seq<string> {
    (if tabbed then [c.status + "\t" + c.path] else [c.status, c.path]) + if c.second.Some? then [c.second.value] else []
  }

  function AllFields(cs: seq<Change>, tabbed: seq<bool>): seq<string>
    requires |tabbed| == |cs|
  {
    if cs == [] then [] else FieldsOf(cs[0], tabbed[0]) + AllFields(cs[1..], tabbed[1..])
  }

  function Print(cs: seq<Change>, tabbed: seq<bool>): string
    requires |tabbed| == |cs|
  {
    Terminate(AllFields(cs, tabbed), NUL)
  }

  /** The changes before the first bad path, or all of them. */
  predicate AllGood(cs: seq<Change>, filters: Filters) {
    forall c :: c in cs ==> forall p :: p in PathsOf(c) ==> ValidPath(p) && !filters.submodule(p)
  }

  function Selected(cs: seq<Change>, filters: Filters): Manifest {
    Manifest(set c, p | c in cs && p in Altered(c) && !filters.excluded(p) :: p,
             set c, p | c in cs && p in Removed(c) && !filters.excluded(p) :: p)
  }

  lemma {:induction false} AllFieldsClean(cs: seq<Change>, tabbed: seq<bool>)
    requires |tabbed| == |cs| && forall c :: c in cs ==> Printable(c)
    ensures forall x :: x in AllFields(cs, tabbed) ==> NUL !in x
  {
    if cs != [] {
      AllFieldsClean(cs[1..], tabbed[1..]);
      assert Printable(cs[0]);
    }
  }

  lemma {:induction false} FirstTabAt(s: string, t: string)
    requires '\t' !in s
    ensures FirstTab(s + "\t" + t) == |s| && FirstTab(s) == |s|
  {
    if s != "" {
      FirstTabAt(s[1..], t);
      assert (s + "\t" + t)[1..] == s[1..] + "\t" + t;
    }
  }

  lemma ReadPrinted(c: Change, tabbed: bool, rest: seq<string>)
    requires Printable(c)
    ensures var f := FieldsOf(c, tabbed) + rest;
            if (forall p :: p in PathsOf(c) ==> ValidPath(p)) then ReadChange(f) == Success((c, rest)) else ReadChange(f).Failure?
  {
    var f := FieldsOf(c, tabbed) + rest;
    FirstTabAt(c.status, c.path);
    if tabbed {
      assert f[0] == c.status + "\t" + c.path;
      assert f[0][..|c.status|] == c.status && f[0][|c.status| + 1..] == c.path;
      assert f[1..] == (if c.second.Some? then [c.second.value] else []) + rest;
    } else {
      assert f[0] == c.status && f[0][..|c.status|] == c.status && f[1] == c.path;
      assert f[2..] == (if c.second.Some? then [c.second.value] else []) + rest;
    }
    if c.second.Some? {
      assert ([c.second.value] + rest)[1..] == rest;
      assert c.second.value in PathsOf(c);
    } else {
      assert [] + rest == rest;
    }
    assert c.path in PathsOf(c);
  }

  function Union(a: Manifest, b: Manifest): Manifest {
    Manifest(a.transfer + b.transfer, a.delete + b.delete)
  }

  lemma SelectedCons(c: Change, cs: seq<Change>, filters: Filters, m: Manifest)
    ensures Union(Include(m, c, filters), Selected(cs, filters)) == Union(m, Selected([c] + cs, filters))
    ensures AllGood([c] + cs, filters) <==> (forall p :: p in PathsOf(c) ==> ValidPath(p) && !filters.submodule(p)) && AllGood(cs, filters)
  {
    var all := [c] + cs;
    assert forall x :: x in all <==> x == c || x in cs;
    assert Selected(all, filters).transfer == (set p | p in Altered(c) && !filters.excluded(p)) + Selected(cs, filters).transfer;
    assert Selected(all, filters).delete == (set p | p in Removed(c) && !filters.excluded(p)) + Selected(cs, filters).delete;
  }

  lemma {:induction false} ReadAllPrinted(cs: seq<Change>, tabbed: seq<bool>, filters: Filters, m: Manifest)
    requires |tabbed| == |cs| && forall c :: c in cs ==> Printable(c)
    ensures var r := ReadAll(AllFields(cs, tabbed), filters, m);
            if AllGood(cs, filters) then r == Success(Union(m, Selected(cs, filters))) else r.Failure?
  {
    if cs == [] {
      assert Union(m, Selected(cs, filters)) == m;
    } else {
      var c, rest := cs[0], AllFields(cs[1..], tabbed[1..]);
      assert c in cs && cs == [c] + cs[1..];
      ReadPrinted(c, tabbed[0], rest);
      SelectedCons(c, cs[1..], filters, m);
      assert c.path in PathsOf(c) && (c.second.Some? ==> c.second.value in PathsOf(c));
      ReadAllPrinted(cs[1..], tabbed[1..], filters, Include(m, c, filters));
    }
  }

  /** The reader undoes the printer: for every list of changes, printed either way, it consumes
      the whole stream and yields exactly the sets the changes denote, or fails exactly when a
      path is invalid or a submodule. */
  lemma ReaderUndoesPrinter(cs: seq<Change>, tabbed: seq<bool>, filters: Filters)
    requires |tabbed| == |cs| && forall c :: c in cs ==> Printable(c)
    ensures var r := ReadAll(Fields(Print(cs, tabbed)), filters, EMPTY);
            && (r.Success? <==> AllGood(cs, filters))
            && (r.Success? ==> r.value == Selected(cs, filters))
  {
    var f := AllFields(cs, tabbed);
    AllFieldsClean(cs, tabbed);
    SplitTerminated(f, NUL);
    assert (f + [""])[..|f|] == f;
    ReadAllPrinted(cs, tabbed, filters, EMPTY);
    assert AllGood(cs, filters) ==> Union(EMPTY, Selected(cs, filters)) == Selected(cs, filters);
  }
}
