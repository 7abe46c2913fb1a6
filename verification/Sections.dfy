/** The classes act as the machine: run on a directory, slot files and a job store that show a
    reachable state, each method leaves them showing the state after the step it stands for. */
module Sections {
  import opened Collections
  import opened Lifecycle
  import opened Queue
  import opened Slots
  import opened Runs
  import opened Runner
  import opened Permits
  import opened Fifo
  import opened FifoResults
  import opened Polling
  import Pool = ResourcePool

  /** The ticket directory and the slot files are those of the state; the text of an unlocked slot
      file does not matter. */
  ghost predicate ShowsPool(pool: Pool.ResourcePool, s: State)
    reads pool, pool.locks, pool.notes
  {
    && pool.capacity == s.capacity && pool.queue == s.queue && pool.locks[..] == s.locks
    && pool.notes.Length == pool.locks.Length == |s.notes|
    && forall i :: 0 <= i < |s.locks| && s.locks[i].Some? ==> pool.notes[i] == s.notes[i]
  }

  lemma ShownIsValid(pool: Pool.ResourcePool, s: State)
    requires Inv(s) && ShowsPool(pool, s)
    ensures pool.Valid()
  {
    ListingIsSorted(s);
  }

  // ---------------------------------------------------------------- the job store

  /** A call of `create` is the step `Create`. */
  method CreateJob(store: JobStore, ghost s: State, j: string, spec: Spec) returns (ok: bool)
    requires ShowsStore(store, s) && s.records.Keys == s.phases.Keys
    modifies store
    ensures ok <==> Enabled(s, Create(j, spec))
    ensures ShowsStore(store, if ok then Apply(s, Create(j, spec)) else s)
  {
    ok := store.Create(j, spec);
  }

  /** A call of `transition` does what `Move` does, and raises exactly when `Move` changes nothing. */
  method MoveJob(store: JobStore, ghost s: State, j: string, to: JobState, details: Details) returns (r: Result<Record, string>)
    requires ShowsStore(store, s) && Known(s, j)
    modifies store`records
    ensures ShowsStore(store, Move(s, j, to, details)) && (r.Success? <==> Movable(s, j, to))
  {
    r := store.Transition(j, to, details);
  }

  // ---------------------------------------------------------------- the directory

  /** The first critical section of `wait` is the step `Enter`. */
  method EnterPool(pool: Pool.ResourcePool, ghost s: State, j: string, weight: Weight, session: Option<string>, now: nat, dead: set<string>)
    requires Inv(s) && ShowsPool(pool, s) && ShowsStore(pool.store, s) && CanEnter(s, j, now, dead)
    requires s.specs[j] == Spec(weight, session)
    modifies pool`queue, pool.store`cancels
    ensures ShowsPool(pool, ApplyEnter(s, j, now, dead)) && ShowsStore(pool.store, ApplyEnter(s, j, now, dead))
  {
    ShownIsValid(pool, s);
    EnterFrame(s, j, now, dead);
    pool.Enter(j, weight, session, now, dead);
  }

  /** Leaving the queue on a cancellation is the step `Withdraw`. */
  method LeaveQueue(pool: Pool.ResourcePool, ghost s: State, j: string)
    requires Inv(s) && ShowsPool(pool, s) && Enabled(s, Withdraw(j))
    modifies pool`queue
    ensures ShowsPool(pool, Apply(s, Withdraw(j)))
  {
    ShownIsValid(pool, s);
    pool.RemoveTicket(j);
  }

  lemma SnapshotNext(s: State, dead: set<string>)
    requires s.mutex.None? && AllInactive(s, dead)
    ensures Next(s, Step.Snapshot(dead), s.(queue := Prune(s.queue, s.records, dead)))
  {
  }

  /** A status report is the step `Snapshot`, and reports the state it leaves. */
  method ReportPool(pool: Pool.ResourcePool, ghost s: State, j: string, dead: set<string>) returns (r: Pool.Report, ghost t: State)
    requires Inv(s) && ShowsPool(pool, s) && ShowsStore(pool.store, s) && s.mutex.None? && AllInactive(s, dead)
    modifies pool`queue
    ensures Next(s, Step.Snapshot(dead), t) && ShowsPool(pool, t) && ShowsStore(pool.store, t)
    ensures |t.notes| == |t.locks| && r == Pool.Snapshot(t.capacity, t.queue, t.locks, t.notes, j)
  {
    t := s.(queue := Prune(s.queue, s.records, dead));
    SnapshotNext(s, dead);
    ShownIsValid(pool, s);
    r := pool.TakeSnapshot(j, dead);
    Pool.UnlockedTextsDoNotMatter(s.capacity, t.queue, s.locks, pool.notes[..], s.notes, j);
  }

  // ---------------------------------------------------------------- the slots

  lemma PollElsewhere(s: State, j: string, dead: set<string>)
    requires Inv(s) && CanPoll(s, j, dead)
    requires var pruned := Prune(s.queue, s.records, dead); pruned == [] || pruned[0].job != j
    ensures Polls(s, j, false, s.(queue := Prune(s.queue, s.records, dead)))
  {
    PollsSelf(s, j, false);
    PollsNext(s, j, false, s, Step.Poll(j, dead), ApplyPoll(s, j, dead));
  }

  lemma WaiterHoldsNothing(s: State, j: string)
    requires PermitInv(s) && Known(s, j) && s.phases[j].Waiting?
    ensures Held(s.locks, j) == {} && Need(s, j) >= 1
  {
    assert LeaseOk(s.phases[j], j, Need(s, j), s.mutex, s.locks);
  }

  lemma GrantedSlots(s: State, j: string, freed: seq<set<nat>>)
    requires PermitInv(s) && Known(s, j) && s.phases[j].Waiting? && |freed| == |s.locks|
    ensures var r := Scan(s.locks, j, Need(s, j), freed, 0, []);
            r.lease.Some? ==> Rising(r.lease.value) && |r.lease.value| == Need(s, j) && Held(r.locks, j) == Indices(r.lease.value)
  {
    assert LeaseOk(s.phases[j], j, Need(s, j), s.mutex, s.locks);
    assert Indices([]) == {};
    ScanAllOrNothing(s.locks, j, Need(s, j), freed, 0, []);
  }

  /** What the class promises of a poll, as a run of the machine. */
  lemma PollRuns(s: State, j: string, dead: set<string>, freed: seq<set<nat>>, q: seq<Ticket>, r: Outcome) returns (t: State)
    requires Inv(s) && CanPoll(s, j, dead) && |freed| == |s.locks|
    requires var pruned := Prune(s.queue, s.records, dead);
             if pruned != [] && pruned[0].job == j
             then r == Scan(s.locks, j, Need(s, j), freed, 0, []) && q == if r.lease.Some? then pruned[1..] else pruned
             else r == Outcome(s.locks, None) && q == pruned
    ensures Polls(s, j, false, t) && Inv(t) && t.capacity == s.capacity && t.queue == q && t.locks == r.locks
    ensures At(t, j, if r.lease.Some? then Leased else Waiting)
  {
    var pruned := Prune(s.queue, s.records, dead);
    if pruned != [] && pruned[0].job == j {
      PollRefines(s, j, dead, false, freed);
      t :| Polls(s, j, false, t) && Polled(s, j, dead, false, r, t);
    } else {
      PollElsewhere(s, j, dead);
      t := s.(queue := pruned);
    }
    PollsInv(s, j, false, t);
  }

  /** A poll is a run of the worker's own steps and of others giving up slots; a lease it returns
      lists exactly the slots the job holds. */
  method PollPool(pool: Pool.ResourcePool, ghost s: State, j: string, requested: nat, dead: set<string>, freed: seq<set<nat>>)
    returns (lease: Option<seq<nat>>, ghost t: State)
    requires Inv(s) && ShowsPool(pool, s) && pool.store.records == s.records && CanPoll(s, j, dead)
    requires requested == Need(s, j) && |freed| == |s.locks|
    modifies pool`queue, pool.locks, pool.notes
    ensures Polls(s, j, false, t) && Inv(t) && ShowsPool(pool, t) && At(t, j, if lease.Some? then Leased else Waiting)
    ensures lease.Some? ==> Rising(lease.value) && |lease.value| == requested && Held(t.locks, j) == Indices(lease.value)
  {
    ShownIsValid(pool, s);
    WaiterHoldsNothing(s, j);
    GrantedSlots(s, j, freed);
    lease := pool.Poll(j, requested, dead, freed);
    t := PollRuns(s, j, dead, freed, pool.queue, Outcome(pool.locks[..], lease));
  }

  // ---------------------------------------------------------------- from the grant to the release

  /** The job holds the slots in `held`, or has come to release them. */
  ghost predicate Keeps(s: State, j: string, held: set<nat>) {
    Known(s, j) && if HoldsLease(s, j) then Held(s.locks, j) == held else s.phases[j].Releasing? || s.phases[j].Gone?
  }

  /** The slots of a job whose phase stays the same are the same, or it is letting them go. */
  lemma KeepsFrame(s: State, t: State, j: string, held: set<nat>)
    requires Keeps(s, j, held) && Known(t, j) && t.phases[j] == s.phases[j]
    requires HoldsLease(s, j) ==> Held(t.locks, j) == Held(s.locks, j)
    ensures Keeps(t, j, held)
  {
  }

  /** A worker that records something stays where it is, starts its command, or leaves. */
  predicate Onward(p: Phase, q: Phase) {
    q == p || (p.Leased? && q.Executing?) || q.Releasing? || q.Gone?
  }

  lemma RecordOnward(s: State, step: Step)
    requires Enabled(s, step) && MovesRecord(step)
    ensures step.job in s.phases && step.job in Apply(s, step).phases
    ensures Onward(s.phases[step.job], Apply(s, step).phases[step.job])
  {
  }

  lemma RecordKeeps(s: State, step: Step, j: string, held: set<nat>)
    requires Keeps(s, j, held) && Enabled(s, step) && MovesRecord(step)
    ensures Keeps(Apply(s, step), j, held)
  {
    MovesRecordFrame(s, step);
    RecordOnward(s, step);
  }

  lemma TryKeeps(s: State, k: string, j: string, held: set<nat>)
    requires Keeps(s, j, held) && CanTry(s, k)
    ensures Keeps(ApplyTrySlot(s, k), j, held)
  {
    TrySlotFrame(s, k);
    var i := s.phases[k].next;
    if i < |s.locks| && s.locks[i].None? {
      HeldTake(s.locks, k, i, j);
    }
    KeepsFrame(s, ApplyTrySlot(s, k), j, held);
  }

  lemma UndoKeeps(s: State, k: string, j: string, held: set<nat>)
    requires PermitInv(s) && Keeps(s, j, held) && CanUndo(s, k)
    ensures Keeps(ApplyUndo(s, k), j, held)
  {
    UndoFrame(s, k);
    assert LeaseOk(s.phases[k], k, Need(s, k), s.mutex, s.locks);
    var acquired := s.phases[k].acquired;
    if acquired != [] {
      assert acquired[|acquired| - 1] in acquired && acquired[|acquired| - 1] in Held(s.locks, k);
      HeldDrop(s.locks, k, acquired[|acquired| - 1], j);
    }
    KeepsFrame(s, ApplyUndo(s, k), j, held);
  }

  /** Steps that may unlock slots: one's own only. */
  lemma UnlockKeeps(s: State, step: Step, j: string, held: set<nat>)
    requires Keeps(s, j, held) && Enabled(s, step) && (step.ReleaseOne? || step.Crash?)
    ensures Keeps(Apply(s, step), j, held)
  {
    if step.ReleaseOne? {
      HeldDrop(s.locks, step.job, step.slot, j);
    }
  }

  lemma TicketKeeps(s: State, step: Step, j: string, held: set<nat>)
    requires Keeps(s, j, held) && Enabled(s, step) && QueueTicketStep(step)
    ensures Keeps(Apply(s, step), j, held)
  {
    if step.Enter? {
      EnterFrame(s, step.job, step.now, step.dead);
    } else if step.Poll? {
      PollKeeps(s, step.job, step.dead, j, held);
    } else {
      LeavingKeeps(s, step, j, held);
    }
  }

  lemma PollKeeps(s: State, k: string, dead: set<string>, j: string, held: set<nat>)
    requires Keeps(s, j, held) && CanPoll(s, k, dead)
    ensures Keeps(ApplyPoll(s, k, dead), j, held)
  {
  }

  lemma LeavingKeeps(s: State, step: Step, j: string, held: set<nat>)
    requires Keeps(s, j, held) && Enabled(s, step) && (step.Withdraw? || step.Admit? || step.Snapshot?)
    ensures Keeps(Apply(s, step), j, held)
  {
  }

  lemma PlainKeeps(s: State, step: Step, j: string, held: set<nat>)
    requires Keeps(s, j, held) && Enabled(s, step) && !QueueTicketStep(step) && !MovesRecord(step)
    requires !step.TrySlot? && !step.Undo? && !step.ReleaseOne? && !step.Crash?
    ensures Keeps(Apply(s, step), j, held)
  {
  }

  lemma KeepsStep(s: State, step: Step, j: string, held: set<nat>)
    requires PermitInv(s) && Keeps(s, j, held) && Enabled(s, step)
    ensures Keeps(Apply(s, step), j, held)
  {
    if MovesRecord(step) {
      RecordKeeps(s, step, j, held);
    } else if QueueTicketStep(step) {
      TicketKeeps(s, step, j, held);
    } else if step.TrySlot? {
      TryKeeps(s, step.job, j, held);
    } else if step.Undo? {
      UndoKeeps(s, step.job, j, held);
    } else if step.ReleaseOne? || step.Crash? {
      UnlockKeeps(s, step, j, held);
    } else {
      PlainKeeps(s, step, j, held);
    }
  }

  ghost function KeepsFrom(j: string, held: set<nat>): State -> bool {
    (s: State) => PermitInv(s) && Keeps(s, j, held)
  }

  /** From its grant to the start of its release a lease is the same set of slots: over every
      continuation nobody takes one from the job, and the job takes no other. */
  lemma LeaseIsKept(s: State, t: State, j: string)
    requires PermitInv(s) && HoldsLease(s, j) && Continues(s, t) && HoldsLease(t, j)
    ensures Held(t.locks, j) == Held(s.locks, j)
  {
    var inv := KeepsFrom(j, Held(s.locks, j));
    forall p, step, q | Next(p, step, q) && inv(p)
      ensures inv(q)
    {
      PermitStep(p, step);
      KeepsStep(p, step, j, Held(s.locks, j));
    }
    ArisesInvariant(Exactly(s), Next, inv, t);
  }

  /** The steps by which job `j` unlocks its slots. */
  ghost function Releasings(j: string): (State, Step, State) -> bool {
    (p: State, a: Step, q: State) => Next(p, a, q) && a.ReleaseOne? && a.job == j
  }

  lemma ReleaseNext(s0: State, s: State, j: string, i: nat)
    requires Arises(Exactly(s0), Releasings(j), s) && PermitInv(s) && Known(s, j) && s.phases[j].Releasing? && i in Held(s.locks, j)
    ensures var p := s.(locks := s.locks[i := None]); Arises(Exactly(s0), Releasings(j), p) && PermitInv(p)
  {
    PermitRelease(s, j, i);
    ArisesNext(Exactly(s0), Releasings(j), s, ReleaseOne(j, i), s.(locks := s.locks[i := None]));
  }

  /** A worker that releases can unlock all its slots by its own steps. */
  lemma {:induction false} ReleaseRuns(s0: State, s: State, j: string)
    requires Arises(Exactly(s0), Releasings(j), s) && PermitInv(s) && Known(s, j) && s.phases[j].Releasing?
    ensures Arises(Exactly(s0), Releasings(j), s.(locks := ReleaseAll(s.locks, j)))
    decreases |Held(s.locks, j)|
  {
    if Held(s.locks, j) == {} {
      NothingToRelease(s.locks, j);
    } else {
      var i :| i in Held(s.locks, j);
      var p := s.(locks := s.locks[i := None]);
      ReleaseNext(s0, s, j, i);
      HeldDrop(s.locks, j, i, j);
      assert ReleaseAll(p.locks, j) == ReleaseAll(s.locks, j);
      ReleaseRuns(s0, p, j);
    }
  }

  /** Giving the lease back is a run of the job's own releases, after which the worker can exit. */
  method ReleasePool(pool: Pool.ResourcePool, ghost s: State, j: string, lease: seq<nat>) returns (ghost t: State)
    requires Inv(s) && ShowsPool(pool, s) && Known(s, j) && s.phases[j].Releasing?
    requires Rising(lease) && Held(s.locks, j) == Indices(lease)
    modifies pool.locks
    ensures Arises(Exactly(s), Releasings(j), t) && ShowsPool(pool, t)
    ensures Known(t, j) && t.phases == s.phases && Held(t.locks, j) == {}
  {
    t := s.(locks := ReleaseAll(s.locks, j));
    assert After(Exactly(s), Releasings(j), s, 0);
    ReleaseRuns(s, s, j);
    pool.Release(j, lease);
  }
}
