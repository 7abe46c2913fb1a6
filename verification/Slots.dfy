/** The slot files: who holds the lock of each, and the scan that takes several of them. */
module Slots {
  import opened Collections

  /** Slot `i` is locked by the job `locks[i]`, or free. */
  type Locks = seq<Option<string>>

  function Held(locks: Locks, job: string): set<nat> {
    set i: nat | 0 <= i < |locks| && locks[i] == Some(job)
  }

  predicate Rising(a: seq<nat>) {
    forall i, j :: 0 <= i < j < |a| ==> a[i] < a[j]
  }

  function Indices(a: seq<nat>): set<nat> {
    set i | i in a
  }

  /** Other workers let go of the slots in `freed`; `job` keeps its own. */
  function Interfere(locks: Locks, job: string, freed: set<nat>): (r: Locks)
    ensures |r| == |locks|
    ensures forall i :: 0 <= i < |r| ==> r[i] == if i in freed && locks[i] != Some(job) then None else locks[i]
  {
    seq(|locks|, i requires 0 <= i < |locks| => if i in freed && locks[i] != Some(job) then None else locks[i])
  }

  function ReleaseAll(locks: Locks, job: string): (r: Locks)
    ensures |r| == |locks|
    ensures forall i :: 0 <= i < |r| ==> r[i] == if locks[i] == Some(job) then None else locks[i]
  {
    seq(|locks|, i requires 0 <= i < |locks| => if locks[i] == Some(job) then None else locks[i])
  }

  datatype Outcome = Outcome(locks: Locks, lease: Option<seq<nat>>)

  /** `_try_slots` from slot `i` on, with `acquired` taken so far; `freed[i]` are the slots
      that other workers release before the attempt on slot `i`. */
  function Scan(locks: Locks, job: string, requested: nat, freed: seq<set<nat>>, i: nat, acquired: seq<nat>): (r: Outcome)
    requires |freed| == |locks| && i <= |locks|
    ensures |r.locks| == |locks|
    decreases |locks| - i
  {
    if i == |locks| then Outcome(ReleaseAll(locks, job), None)
    else
      var now := Interfere(locks, job, freed[i]);
      if now[i].Some? then Scan(now, job, requested, freed, i + 1, acquired)
      else
        var taken := now[i := Some(job)];
        if |acquired| + 1 == requested then Outcome(taken, Some(acquired + [i]))
        else Scan(taken, job, requested, freed, i + 1, acquired + [i])
  }

  predicate FreedBy(freed: seq<set<nat>>, k: nat) {
    exists m :: 0 <= m < |freed| && k in freed[m]
  }

  /** What holds between two slots of a scan. */
  ghost predicate Scanning(locks: Locks, job: string, requested: nat, i: nat, acquired: seq<nat>) {
    && i <= |locks| && Rising(acquired) && (forall k :: k in acquired ==> k < i)
    && Held(locks, job) == Indices(acquired) && |acquired| < requested
  }

  lemma HeldTake(locks: Locks, job: string, i: nat, other: string)
    requires i < |locks| && locks[i] == None
    ensures Held(locks[i := Some(job)], job) == Held(locks, job) + {i}
    ensures other != job ==> Held(locks[i := Some(job)], other) == Held(locks, other)
  {
  }

  lemma HeldDrop(locks: Locks, job: string, i: nat, other: string)
    requires i < |locks| && locks[i] == Some(job)
    ensures Held(locks[i := None], job) == Held(locks, job) - {i}
    ensures other != job ==> Held(locks[i := None], other) == Held(locks, other)
  {
  }

  lemma {:induction false} RisingSize(a: seq<nat>)
    requires Rising(a)
    ensures |Indices(a)| == |a|
  {
    if a != [] {
      var n := |a| - 1;
      RisingSize(a[..n]);
      assert Indices(a) == Indices(a[..n]) + {a[n]} by {
        assert a == a[..n] + [a[n]];
      }
      assert a[n] !in a[..n];
    }
  }

  /** One attempt on a free slot keeps the scan invariant. */
  lemma ScanningStep(locks: Locks, job: string, requested: nat, i: nat, acquired: seq<nat>)
    requires Scanning(locks, job, requested, i, acquired) && i < |locks| && locks[i] == None
    ensures Rising(acquired + [i]) && Held(locks[i := Some(job)], job) == Indices(acquired + [i])
  {
    HeldTake(locks, job, i, job);
    assert forall k :: 0 <= k < |acquired| ==> acquired[k] in acquired;
    assert Indices(acquired + [i]) == Indices(acquired) + {i};
  }

  /** Every slot is as it was, or was free or given up by others when the job took it, or was given
      up by the job itself or by others. */
  ghost predicate OnlyReleased(locks: Locks, after: Locks, job: string, freed: seq<set<nat>>) {
    |after| == |locks| && forall k :: 0 <= k < |locks| ==>
      || after[k] == locks[k]
      || (after[k] == Some(job) && (locks[k] == None || FreedBy(freed, k)))
      || (after[k] == None && (locks[k] == Some(job) || FreedBy(freed, k)))
  }

  lemma InterfereReleases(locks: Locks, job: string, freed: seq<set<nat>>, i: nat)
    requires |freed| == |locks| && i < |locks|
    ensures var now := Interfere(locks, job, freed[i]);
            forall k :: 0 <= k < |locks| ==> now[k] == locks[k] || (now[k] == None && FreedBy(freed, k))
  {
    assert forall k :: k in freed[i] ==> FreedBy(freed, k);
  }

  /** The scan is all-or-nothing whatever other workers release meanwhile: a success adds
      exactly `requested` distinct slots, each free when it was taken; a failure leaves the job
      with none; and no lock of another job changes except by that job's own release. */
  lemma {:induction false} ScanAllOrNothing(locks: Locks, job: string, requested: nat, freed: seq<set<nat>>, i: nat, acquired: seq<nat>)
    requires |freed| == |locks| && Scanning(locks, job, requested, i, acquired)
    ensures var r := Scan(locks, job, requested, freed, i, acquired);
            && (r.lease.Some? ==> |r.lease.value| == requested && Rising(r.lease.value)
                                  && Held(r.locks, job) == Indices(r.lease.value))
            && (r.lease.None? ==> Held(r.locks, job) == {})
            && OnlyReleased(locks, r.locks, job, freed)
    decreases |locks| - i
  {
    if i < |locks| {
      var now := Interfere(locks, job, freed[i]);
      InterfereReleases(locks, job, freed, i);
      assert Held(now, job) == Held(locks, job);
      if now[i].Some? {
        ScanAllOrNothing(now, job, requested, freed, i + 1, acquired);
      } else {
        var taken := now[i := Some(job)];
        ScanningStep(now, job, requested, i, acquired);
        if |acquired| + 1 < requested {
          ScanAllOrNothing(taken, job, requested, freed, i + 1, acquired + [i]);
        }
      }
    }
  }

  /** Free slots from `i` on. */
  function FreeFrom(locks: Locks, i: nat): nat
    requires i <= |locks|
    decreases |locks| - i
  {
    if i == |locks| then 0 else (if locks[i] == None then 1 else 0) + FreeFrom(locks, i + 1)
  }

  function TakenFrom(locks: Locks, i: nat): set<nat> {
    set k: nat | i <= k < |locks| && locks[k].Some?
  }

  /** Free and locked slots add up. */
  lemma {:induction false} FreePlusTaken(locks: Locks, i: nat)
    requires i <= |locks|
    ensures FreeFrom(locks, i) + |TakenFrom(locks, i)| == |locks| - i
    decreases |locks| - i
  {
    if i < |locks| {
      FreePlusTaken(locks, i + 1);
      assert TakenFrom(locks, i) == TakenFrom(locks, i + 1) + if locks[i].Some? then {i} else {};
    } else {
      assert TakenFrom(locks, i) == {};
    }
  }

  lemma {:induction false} FreeFromLocal(a: Locks, b: Locks, i: nat)
    requires |a| == |b| && i <= |a| && forall k :: i <= k < |a| ==> a[k] == b[k]
    ensures FreeFrom(a, i) == FreeFrom(b, i)
    decreases |a| - i
  {
    if i < |a| {
      FreeFromLocal(a, b, i + 1);
    }
  }

  /** Without interference the scan succeeds exactly when enough slots are free, and a failed
      scan gives back exactly what it took. */
  lemma {:induction false} QuietScan(locks: Locks, job: string, requested: nat, freed: seq<set<nat>>, i: nat, acquired: seq<nat>)
    requires |freed| == |locks| && (forall m :: 0 <= m < |freed| ==> freed[m] == {})
    requires Scanning(locks, job, requested, i, acquired)
    ensures var r := Scan(locks, job, requested, freed, i, acquired);
            && (r.lease.Some? <==> |acquired| + FreeFrom(locks, i) >= requested)
            && (r.lease.None? ==> r.locks == ReleaseAll(locks, job))
    decreases |locks| - i
  {
    if i < |locks| {
      var now := Interfere(locks, job, freed[i]);
      assert now == locks;
      if now[i].Some? {
        QuietScan(now, job, requested, freed, i + 1, acquired);
      } else {
        var taken := now[i := Some(job)];
        ScanningStep(now, job, requested, i, acquired);
        FreeFromLocal(locks, taken, i + 1);
        if |acquired| + 1 < requested {
          QuietScan(taken, job, requested, freed, i + 1, acquired + [i]);
          assert ReleaseAll(taken, job) == ReleaseAll(locks, job);
        }
      }
    }
  }

  // ---------------------------------------------------------------- permit accounting

  function TotalHeld(locks: Locks, jobs: set<string>): set<nat> {
    set i: nat | 0 <= i < |locks| && locks[i].Some? && locks[i].value in jobs
  }

  lemma BelowSize(s: set<nat>, n: nat)
    requires forall i :: i in s ==> i < n
    ensures |s| <= n
    ensures |s| == n ==> forall i: nat :: i < n ==> i in s
    decreases n
  {
    if n > 0 {
      var t := s - {n - 1};
      BelowSize(t, n - 1);
      assert s == t || s == t + {n - 1};
    } else {
      assert s == {};
    }
  }

  /** Jobs that hold disjoint slots cannot together hold more than there are: if each holds at
      least one, there are at most as many jobs as slots. */
  lemma {:induction false} HoldersFit(locks: Locks, jobs: set<string>)
    requires forall j :: j in jobs ==> Held(locks, j) != {}
    ensures |jobs| <= |TotalHeld(locks, jobs)| <= |locks|
    decreases jobs
  {
    BelowSize(TotalHeld(locks, jobs), |locks|);
    if jobs != {} {
      var j :| j in jobs;
      var rest := jobs - {j};
      HoldersFit(locks, rest);
      assert TotalHeld(locks, jobs) == TotalHeld(locks, rest) + Held(locks, j);
      assert TotalHeld(locks, rest) !! Held(locks, j);
    }
  }

  /** A job that holds as many slots as there are leaves none for any other job. */
  lemma FullHolderAlone(locks: Locks, job: string, other: string)
    requires |Held(locks, job)| == |locks| && other != job
    ensures Held(locks, other) == {}
  {
    BelowSize(Held(locks, job), |locks|);
    forall i: nat | i < |locks|
      ensures locks[i] == Some(job)
    {
      assert i in Held(locks, job);
    }
  }
}
