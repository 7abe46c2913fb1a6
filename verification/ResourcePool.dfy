/** The critical sections of the permit pool, as they change the directory and the slot files. */
module ResourcePool {
  import opened Collections
  import opened Order
  import opened TicketNames
  import opened Lifecycle
  import opened Queue
  import opened Slots

  /** The slot-file texts of the locked slots, in slot order. */
  function HolderTexts(locks: Locks, notes: seq<string>, i: nat): (r: seq<string>)
    requires |notes| == |locks| && i <= |locks|
    decreases |locks| - i
  {
    if i == |locks| then [] else TextAt(locks, notes, i) + HolderTexts(locks, notes, i + 1)
  }

  function TextAt(locks: Locks, notes: seq<string>, i: nat): seq<string>
    requires |notes| == |locks| && i < |locks|
  {
    if locks[i].Some? && notes[i] != "" then [notes[i]] else []
  }

  lemma TextsNext(locks: Locks, notes: seq<string>, i: nat, holders: seq<string>)
    requires |notes| == |locks| && i < |locks|
    ensures holders + HolderTexts(locks, notes, i) == (holders + TextAt(locks, notes, i)) + HolderTexts(locks, notes, i + 1)
  {
    Associate(holders, TextAt(locks, notes, i), HolderTexts(locks, notes, i + 1));
  }

  /** The waiter's part of a status report. */
  datatype Waiter = Waiter(position: nat, permits: nat, blockedBy: seq<string>)

  datatype Report = Report(held: int, available: nat, queued: nat, exclusiveWaiting: bool, waiter: Option<Waiter>)

  /** `dict.fromkeys`: the first occurrence of each value, in order. */
  function Distinct(q: seq<string>): (r: seq<string>)
    ensures forall x :: x in r <==> x in q
    ensures NoDuplicates(r)
  {
    if q == [] then [] else
      var rest := Distinct(q[..|q| - 1]);
      var last := q[|q| - 1];
      assert q == q[..|q| - 1] + [last];
      if last in rest then rest else rest + [last]
  }

  function Position(q: seq<Ticket>, job: string): (r: Option<nat>)
    ensures r.Some? ==> r.value < |q| && q[r.value].job == job && forall i :: 0 <= i < r.value ==> q[i].job != job
    ensures r.None? ==> forall i :: 0 <= i < |q| ==> q[i].job != job
  {
    if q == [] then None
    else if q[0].job == job then Some(0)
    else match Position(q[1..], job)
      case None => None
      case Some(i) => Some(i + 1)
  }

  function WaiterReport(q: seq<Ticket>, job: string, holders: seq<string>): Option<Waiter> {
    match Position(q, job)
    case None => None
    case Some(i) => Some(Waiter(i + 1, q[i].permits, Distinct(Owners(q[..i]) + holders)))
  }

  predicate ExclusiveWaiting(q: seq<Ticket>, capacity: nat) {
    exists t :: t in q && t.permits == capacity
  }

  function Snapshot(capacity: nat, q: seq<Ticket>, locks: Locks, notes: seq<string>, job: string): Report
    requires |notes| == |locks|
  {
    var available := FreeFrom(locks, 0);
    Report(capacity - available, available, |q|, ExclusiveWaiting(q, capacity),
           WaiterReport(q, job, HolderTexts(locks, notes, 0)))
  }

  lemma {:induction false} TextsAgree(locks: Locks, a: seq<string>, b: seq<string>, i: nat)
    requires |a| == |b| == |locks| && i <= |locks| && forall k :: 0 <= k < |locks| && locks[k].Some? ==> a[k] == b[k]
    ensures HolderTexts(locks, a, i) == HolderTexts(locks, b, i)
    decreases |locks| - i
  {
    if i < |locks| {
      TextsAgree(locks, a, b, i + 1);
    }
  }

  /** What an unlocked slot file says does not matter to a report. */
  lemma UnlockedTextsDoNotMatter(capacity: nat, q: seq<Ticket>, locks: Locks, a: seq<string>, b: seq<string>, job: string)
    requires |a| == |b| == |locks| && forall k :: 0 <= k < |locks| && locks[k].Some? ==> a[k] == b[k]
    ensures Snapshot(capacity, q, locks, a, job) == Snapshot(capacity, q, locks, b, job)
  {
    TextsAgree(locks, a, b, 0);
  }

  /** Removing the listed file with a given name. */
  function Unlink(q: seq<Ticket>, name: string): seq<Ticket> {
    if q == [] then []
    else if Name(q[0]) == name then q[1..]
    else [q[0]] + Unlink(q[1..], name)
  }

  lemma {:induction false} UnlinkAt(a: seq<Ticket>, t: Ticket, b: seq<Ticket>, q: seq<Ticket>)
    requires q == a + [t] + b && forall u :: u in a ==> Name(u) != Name(t)
    ensures Unlink(q, Name(t)) == a + b
  {
    if a == [] {
      assert q[1..] == b && a + b == b;
    } else {
      UnlinkAt(a[1..], t, b, q[1..]);
      assert a + b == [a[0]] + (a[1..] + b);
    }
  }

  lemma SortedDistinct(q: seq<Ticket>, i: nat, j: nat)
    requires Sorted(q) && i < j < |q|
    ensures Name(q[i]) != Name(q[j])
  {
    PrecedesIsTotal(CharRank, Name(q[i]), Name(q[i]));
  }

  lemma FilterNext<T>(q: seq<T>, keep: T -> bool, i: nat)
    requires i < |q|
    ensures Filter(q[..i + 1], keep) == Filter(q[..i], keep) + (if keep(q[i]) then [q[i]] else [])
    ensures Filter(q[..i], keep) + q[i..] == Filter(q[..i], keep) + [q[i]] + q[i + 1..]
  {
    assert q[..i + 1] == q[..i] + [q[i]];
    FilterConcat(q[..i], [q[i]], keep);
    assert [q[i]] + [] == [q[i]];
    FilterCons(q[i], [], keep);
    assert q[i..] == [q[i]] + q[i + 1..];
    Associate(Filter(q[..i], keep), [q[i]], q[i + 1..]);
  }

  lemma KeptDiffer(q: seq<Ticket>, keep: Ticket -> bool, i: nat)
    requires i < |q| && Sorted(q)
    ensures forall u :: u in Filter(q[..i], keep) ==> Name(u) != Name(q[i])
  {
    forall u | u in Filter(q[..i], keep)
      ensures Name(u) != Name(q[i])
    {
      var k :| 0 <= k < i && q[..i][k] == u;
      SortedDistinct(q, k, i);
    }
  }

  /** One round of a directory loop: the listed ticket is either kept or unlinked. */
  lemma DirectoryRound(q: seq<Ticket>, keep: Ticket -> bool, i: nat, kept: seq<Ticket>, listing: seq<Ticket>)
    requires i < |q| && Sorted(q)
    requires kept == Filter(q[..i], keep) && listing == kept + q[i..]
    ensures keep(q[i]) ==> listing == Filter(q[..i + 1], keep) + q[i + 1..]
    ensures !keep(q[i]) ==> Unlink(listing, Name(q[i])) == Filter(q[..i + 1], keep) + q[i + 1..]
  {
    FilterNext(q, keep, i);
    KeptDiffer(q, keep, i);
    assert q[i..] == [q[i]] + q[i + 1..];
    RoundShape(kept, q[i], q[i + 1..], listing);
  }

  lemma RoundShape(kept: seq<Ticket>, t: Ticket, rest: seq<Ticket>, listing: seq<Ticket>)
    requires listing == kept + ([t] + rest) && forall u :: u in kept ==> Name(u) != Name(t)
    ensures listing == (kept + [t]) + rest
    ensures Unlink(listing, Name(t)) == (kept + []) + rest
  {
    Associate(kept, [t], rest);
    UnlinkAt(kept, t, rest, listing);
    assert kept + [] == kept;
  }

  lemma EarlierDiffer(q: seq<Ticket>, i: nat)
    requires Sorted(q) && i < |q|
    ensures forall u :: u in q[..i] ==> Name(u) != Name(q[i])
  {
    forall u | u in q[..i]
      ensures Name(u) != Name(q[i])
    {
      var k :| 0 <= k < i && q[k] == u;
      SortedDistinct(q, k, i);
    }
  }

  lemma UnlinkFirst(q: seq<Ticket>, i: nat)
    requires i < |q| && forall u :: u in q[..i] ==> Name(u) != Name(q[i])
    ensures Unlink(q, Name(q[i])) == q[..i] + q[i + 1..]
  {
    SplitAt(q, i);
    UnlinkAt(q[..i], q[i], q[i + 1..], q);
  }

  /** Unlinking a listed file by its name removes exactly that entry. */
  lemma UnlinkEntry(q: seq<Ticket>, i: nat)
    requires Sorted(q) && i < |q|
    ensures Unlink(q, Name(q[i])) == q[..i] + q[i + 1..]
  {
    EarlierDiffer(q, i);
    UnlinkFirst(q, i);
  }

  lemma RemoveSorted(q: seq<Ticket>, job: string)
    requires Sorted(q)
    ensures Sorted(Remove(q, job))
  {
  }

  lemma VictimsNext(q: seq<Ticket>, i: nat, job: string, session: Option<string>,
                    records: map<string, Record>, dead: set<string>)
    requires i < |q|
    ensures Victims(q[..i + 1], job, session, records, dead)
            == Victims(q[..i], job, session, records, dead)
               + if q[i].intact && Superseded(q[i], job, session) && !Stale(records, dead, q[i].job) then {q[i].job} else {}
  {
    assert q[..i + 1] == q[..i] + [q[i]];
  }

  lemma ConsSorted(t: Ticket, rest: seq<Ticket>)
    requires Sorted(rest) && forall u :: u in rest ==> Less(Name(t), Name(u))
    ensures Sorted([t] + rest)
  {
    assert forall i :: 0 <= i < |rest| ==> rest[i] in rest;
  }

  lemma FirstIsLeast(q: seq<Ticket>)
    requires Sorted(q) && q != []
    ensures Sorted(q[1..]) && forall u :: u in q[1..] ==> Less(Name(q[0]), Name(u))
  {
    forall u | u in q[1..]
      ensures Less(Name(q[0]), Name(u))
    {
      var k :| 0 <= k < |q[1..]| && q[1..][k] == u;
      assert q[k + 1] == u;
    }
  }

  lemma {:induction false} FilterSorted(q: seq<Ticket>, keep: Ticket -> bool)
    requires Sorted(q)
    ensures Sorted(Filter(q, keep))
  {
    if q != [] {
      FirstIsLeast(q);
      FilterSorted(q[1..], keep);
      ConsSorted(q[0], Filter(q[1..], keep));
    }
  }

  lemma {:induction false} InsertSorted(q: seq<Ticket>, t: Ticket)
    requires Sorted(q)
    ensures Sorted(Insert(q, t))
    ensures forall u :: u in Insert(q, t) ==> u == t || u in q
  {
    if q == [] {
    } else {
      FirstIsLeast(q);
      if Less(Name(t), Name(q[0])) {
        LessThanAll(t, q);
        ConsSorted(t, q);
      } else if Name(t) == Name(q[0]) {
        ConsSorted(t, q[1..]);
      } else {
        InsertSorted(q[1..], t);
        PrecedesIsTotal(CharRank, Name(t), Name(q[0]));
        ConsSorted(q[0], Insert(q[1..], t));
      }
    }
  }

  lemma LessThanAll(t: Ticket, q: seq<Ticket>)
    requires q != [] && Less(Name(t), Name(q[0])) && forall u :: u in q[1..] ==> Less(Name(q[0]), Name(u))
    ensures forall u :: u in q ==> Less(Name(t), Name(u))
  {
    forall u | u in q
      ensures Less(Name(t), Name(u))
    {
      if u != q[0] {
        assert u in q[1..];
        PrecedesIsTransitive(CharRank, Name(t), Name(q[0]), Name(u));
      }
    }
  }

  /** Releases by others keep the scan invariant. */
  lemma InterfereScanning(locks: Locks, job: string, requested: nat, freed: set<nat>, i: nat, acquired: seq<nat>)
    requires Scanning(locks, job, requested, i, acquired)
    ensures Scanning(Interfere(locks, job, freed), job, requested, i, acquired)
  {
    assert Held(Interfere(locks, job, freed), job) == Held(locks, job);
  }

  class ResourcePool {
    const capacity: nat
    const store: JobStore
    var queue: seq<Ticket>
    const locks: array<Option<string>>
    const notes: array<string>

    /** The directory listing is sorted, and the text of a locked slot file names its holder. */
    ghost predicate Valid()
      reads this, locks, notes
    {
      && capacity >= 1 && Sorted(queue)
      && locks.Length == notes.Length && locks.Length >= capacity
      && forall i :: 0 <= i < locks.Length && locks[i].Some? ==> notes[i] == locks[i].value
    }

    /** Creates the missing slot files; files beyond the capacity stay. */
    constructor (capacity: nat, store: JobStore, existing: nat)
      requires capacity >= 1
      ensures Valid() && queue == [] && this.capacity == capacity && this.store == store
      ensures locks.Length == (if existing > capacity then existing else capacity)
      ensures fresh(locks) && fresh(notes) && forall i :: 0 <= i < locks.Length ==> locks[i] == None
    {
      var files := if existing > capacity then existing else capacity;
      this.capacity := capacity;
      this.store := store;
      queue := [];
      locks := new Option<string>[files](_ => None);
      notes := new string[files](_ => "");
    }

    method PruneStaleTickets(dead: set<string>)
      requires Valid()
      modifies this`queue
      ensures Valid() && queue == Prune(old(queue), store.records, dead)
      ensures forall t :: t in queue <==>
                && t in old(queue) && t.intact && t.job in store.records && t.job !in dead
                && !Final(store.records[t.job].state)
    {
      var paths := queue;
      ghost var keep := Fresh(store.records, dead);
      var i := 0;
      while i < |paths|
        invariant 0 <= i <= |paths|
        invariant queue == Filter(paths[..i], keep) + paths[i..]
      {
        DirectoryRound(paths, keep, i, Filter(paths[..i], keep), queue);
        if !paths[i].intact || Stale(store.records, dead, paths[i].job) {
          queue := Unlink(queue, Name(paths[i]));
        }
        i := i + 1;
      }
      assert paths[..i] == paths;
      FilterSorted(paths, keep);
      PruneExactly(paths, store.records, dead);
    }

    /** The round of the supersession loop for the ticket listed at `i`. */
    method SupersedeTicket(paths: seq<Ticket>, i: nat, job: string, session: Option<string>, dead: set<string>, ghost asked: set<string>)
      requires session.Some? && i < |paths| && Sorted(paths) && queue == Filter(paths[..i], Kept(job, session)) + paths[i..]
      requires store.cancels == asked + Victims(paths[..i], job, session, store.records, dead)
      modifies this`queue, store`cancels
      ensures queue == Filter(paths[..i + 1], Kept(job, session)) + paths[i + 1..]
      ensures store.cancels == asked + Victims(paths[..i + 1], job, session, store.records, dead)
    {
      DirectoryRound(paths, Kept(job, session), i, Filter(paths[..i], Kept(job, session)), queue);
      VictimsNext(paths, i, job, session, store.records, dead);
      if !paths[i].intact {
        queue := Unlink(queue, Name(paths[i]));
      } else if Superseded(paths[i], job, session) {
        if !Stale(store.records, dead, paths[i].job) {
          store.RequestCancel(paths[i].job);
        }
        queue := Unlink(queue, Name(paths[i]));
      }
    }

    /** Cancels and removes the queued tickets of the session's other jobs, and files that cannot be read. */
    method SupersedeQueuedSession(job: string, session: Option<string>, dead: set<string>)
      requires Valid()
      modifies this`queue, store`cancels
      ensures Valid() && queue == Supersede(old(queue), job, session)
      ensures store.cancels == old(store.cancels) + Victims(old(queue), job, session, store.records, dead)
    {
      if session.None? {
        FilterAll(queue, Kept(job, session));
        return;
      }
      var paths := queue;
      ghost var records, asked := store.records, store.cancels;
      var i := 0;
      while i < |paths|
        invariant 0 <= i <= |paths| && store.records == records
        invariant queue == Filter(paths[..i], Kept(job, session)) + paths[i..]
        invariant store.cancels == asked + Victims(paths[..i], job, session, records, dead)
      {
        SupersedeTicket(paths, i, job, session, dead, asked);
        i := i + 1;
      }
      assert paths[..i] == paths;
      FilterSorted(paths, Kept(job, session));
    }

    method WriteTicket(t: Ticket)
      requires Valid()
      modifies this`queue
      ensures Valid() && queue == Write(old(queue), t)
    {
      if Find(queue, t.job).None? {
        InsertSorted(queue, t);
        queue := Insert(queue, t);
      }
    }

    method RemoveTicket(job: string)
      requires Valid()
      modifies this`queue
      ensures Valid() && queue == Remove(old(queue), job)
    {
      var found := Find(queue, job);
      if found.Some? {
        UnlinkEntry(queue, found.value);
        RemoveSorted(queue, job);
        queue := Unlink(queue, Name(queue[found.value]));
      }
    }

    /** The first critical section of `wait` for a heavy or exclusive job. */
    method Enter(job: string, weight: Weight, session: Option<string>, now: nat, dead: set<string>)
      requires Valid() && !weight.Light?
      modifies this`queue, store`cancels
      ensures Valid()
      ensures var pruned := Prune(old(queue), store.records, dead);
              && queue == Write(Supersede(pruned, job, session), Ticket(now, job, Permits(capacity, weight), session, true))
              && store.cancels == old(store.cancels) + Victims(pruned, job, session, store.records, dead)
    {
      PruneStaleTickets(dead);
      SupersedeQueuedSession(job, session, dead);
      WriteTicket(Ticket(now, job, if weight.Exclusive? then capacity else 1, session, true));
    }

    /** Other workers unlock the slots in `freed` between two attempts of a scan. */
    method LetGo(job: string, freed: set<nat>)
      modifies locks
      ensures locks[..] == Interfere(old(locks[..]), job, freed)
    {
      ghost var was := locks[..];
      var k := 0;
      while k < locks.Length
        invariant 0 <= k <= locks.Length && |was| == locks.Length
        invariant forall m :: 0 <= m < k ==> locks[m] == Interfere(was, job, freed)[m]
        invariant forall m :: k <= m < locks.Length ==> locks[m] == was[m]
      {
        if k in freed && locks[k] != Some(job) {
          locks[k] := None;
        }
        k := k + 1;
      }
    }

    /** Tries every slot file in order; on a partial result every lock taken is released. */
    method TrySlots(job: string, requested: nat, freed: seq<set<nat>>) returns (lease: Option<seq<nat>>)
      requires Valid() && requested >= 1 && |freed| == locks.Length
      requires Held(locks[..], job) == {}
      modifies locks, notes
      ensures Outcome(locks[..], lease) == Scan(old(locks[..]), job, requested, freed, 0, [])
      ensures Valid()
    {
      ghost var was := locks[..];
      var acquired: seq<nat> := [];
      var i := 0;
      while i < locks.Length
        invariant 0 <= i <= locks.Length && |was| == locks.Length
        invariant Scan(was, job, requested, freed, 0, []) == Scan(locks[..], job, requested, freed, i, acquired)
        invariant Scanning(locks[..], job, requested, i, acquired)
        invariant Valid()
      {
        ghost var before := locks[..];
        LetGo(job, freed[i]);
        ghost var now := locks[..];
        InterfereScanning(before, job, requested, freed[i], i, acquired);
        if locks[i].None? {
          ScanningStep(now, job, requested, i, acquired);
          locks[i] := Some(job);
          notes[i] := job;
          assert locks[..] == now[i := Some(job)];
          acquired := acquired + [i];
          if |acquired| == requested {
            return Some(acquired);
          }
        }
        i := i + 1;
      }
      ghost var partial := locks[..];
      Undo(job, acquired);
      lease := None;
      assert locks[..] == ReleaseAll(partial, job);
    }

    /** Releases acquired locks from the last taken to the first. */
    method Undo(job: string, acquired: seq<nat>)
      requires Rising(acquired) && Held(locks[..], job) == Indices(acquired)
      modifies locks
      ensures locks[..] == ReleaseAll(old(locks[..]), job)
    {
      ghost var was := locks[..];
      var k := |acquired|;
      while k > 0
        invariant 0 <= k <= |acquired| && |was| == locks.Length
        invariant Held(locks[..], job) == Indices(acquired[..k])
        invariant forall m :: 0 <= m < locks.Length ==> locks[m] == was[m] || (was[m] == Some(job) && locks[m] == None)
      {
        k := k - 1;
        assert acquired[k] in acquired[..k + 1];
        assert acquired[k] in Held(locks[..], job);
        ghost var before := locks[..];
        HeldDrop(before, job, acquired[k], job);
        assert Indices(acquired[..k + 1]) == Indices(acquired[..k]) + {acquired[k]} by {
          assert acquired[..k + 1] == acquired[..k] + [acquired[k]];
        }
        locks[acquired[k]] := None;
        assert locks[..] == before[acquired[k] := None];
      }
      forall m | 0 <= m < locks.Length
        ensures locks[m] == ReleaseAll(was, job)[m]
      {
        assert m !in Held(locks[..], job);
      }
    }

    /** `ResourceLease.release`: pops the held locks one by one, without the queue lock. */
    method Release(job: string, lease: seq<nat>)
      requires Rising(lease) && Held(locks[..], job) == Indices(lease)
      modifies locks
      ensures locks[..] == ReleaseAll(old(locks[..]), job) && Held(locks[..], job) == {}
      ensures forall other :: other != job ==> Held(locks[..], other) == Held(old(locks[..]), other)
    {
      Undo(job, lease);
    }

    /** One polling round of `wait` for a job that is not cancelled. */
    method Poll(job: string, requested: nat, dead: set<string>, freed: seq<set<nat>>) returns (lease: Option<seq<nat>>)
      requires Valid() && requested >= 1 && |freed| == locks.Length
      requires Held(locks[..], job) == {}
      modifies this`queue, locks, notes
      ensures Valid()
      ensures var pruned := Prune(old(queue), store.records, dead);
              if pruned != [] && pruned[0].job == job then
                && Outcome(locks[..], lease) == Scan(old(locks[..]), job, requested, freed, 0, [])
                && queue == if lease.Some? then pruned[1..] else pruned
              else
                lease == None && queue == pruned && locks[..] == old(locks[..])
    {
      PruneStaleTickets(dead);
      lease := None;
      if queue != [] && queue[0].job == job {
        RemoveHead(queue, job);
        lease := TrySlots(job, requested, freed);
        if lease.Some? {
          RemoveTicket(job);
        }
      }
    }

    /** `_slot_holders`: the texts of the locked slots and the number of free ones. */
    method SlotHolders() returns (holders: seq<string>, available: nat)
      requires Valid()
      ensures holders == HolderTexts(locks[..], notes[..], 0)
      ensures available == FreeFrom(locks[..], 0)
    {
      holders, available := [], 0;
      ghost var l, n := locks[..], notes[..];
      var i := 0;
      while i < locks.Length
        invariant 0 <= i <= locks.Length && l == locks[..] && n == notes[..]
        invariant HolderTexts(l, n, 0) == holders + HolderTexts(l, n, i)
        invariant FreeFrom(l, 0) == available + FreeFrom(l, i)
      {
        TextsNext(l, n, i, holders);
        assert holders + [] == holders;
        if locks[i].Some? {
          if notes[i] != "" {
            holders := holders + [notes[i]];
          }
        } else {
          available := available + 1;
        }
        i := i + 1;
      }
    }

    method TakeSnapshot(job: string, dead: set<string>) returns (r: Report)
      requires Valid()
      modifies this`queue
      ensures Valid() && queue == Prune(old(queue), store.records, dead)
      ensures r == Snapshot(capacity, queue, locks[..], notes[..], job)
    {
      PruneStaleTickets(dead);
      var holders, available := SlotHolders();
      r := Report(capacity - available, available, |queue|, ExclusiveWaiting(queue, capacity),
                  WaiterReport(queue, job, holders));
    }
  }
}
