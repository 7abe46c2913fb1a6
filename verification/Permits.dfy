/** Permit safety: in every reachable state a worker past admission holds its full lease. */
module Permits {
  import opened Collections
  import opened Lifecycle
  import opened Slots
  import opened Runner
  import opened Runs
  import Queue

  /** What the phase of a worker says about the queue lock and the slots it holds. */
  ghost predicate LeaseOk(p: Phase, job: string, need: nat, mutex: Option<string>, locks: Locks) {
    && (InCritical(p) <==> mutex == Some(job))
    && match p
       case Scanning(next, acquired) => Slots.Scanning(locks, job, need, next, acquired)
       case Undoing(acquired) => need >= 1 && Rising(acquired) && Held(locks, job) == Indices(acquired)
       case Waiting => need >= 1 && Held(locks, job) == {}
       case Granted => |Held(locks, job)| == need
       case Leased => |Held(locks, job)| == need
       case Executing => |Held(locks, job)| == need
       case Releasing(_) => true
       case _ => Held(locks, job) == {}
  }

  ghost predicate PermitInv(s: State) {
    && s.capacity >= 1 && |s.notes| == |s.locks| && |s.locks| >= s.capacity
    && (forall j :: j in s.phases ==> Known(s, j))
    && (s.mutex.Some? ==> s.mutex.value in s.phases)
    && (forall i :: 0 <= i < |s.locks| && s.locks[i].Some? ==> s.locks[i].value in s.phases && s.notes[i] == s.locks[i].value)
    && forall j :: j in s.phases ==> LeaseOk(s.phases[j], j, Need(s, j), s.mutex, s.locks)
  }

  /** Only job `j` moved: everyone else's locks and claim on the queue lock are as before. */
  ghost predicate OnlyMoved(s: State, t: State, j: string) {
    && t.capacity == s.capacity && t.specs == s.specs
    && j in s.phases && t.phases.Keys == s.phases.Keys
    && (forall k :: k in s.phases ==> Known(t, k))
    && (forall k :: k in s.phases && k != j ==> t.phases[k] == s.phases[k] && Held(t.locks, k) == Held(s.locks, k))
    && |t.locks| == |s.locks| == |t.notes|
    && (forall i :: 0 <= i < |t.locks| && t.locks[i].Some? ==> t.notes[i] == t.locks[i].value)
    && (forall i :: 0 <= i < |t.locks| ==> t.locks[i] == s.locks[i] || t.locks[i] == Some(j) || t.locks[i] == None)
    && (t.mutex == s.mutex || ((t.mutex == None || t.mutex == Some(j)) && (s.mutex == None || s.mutex == Some(j))))
  }

  lemma PermitFrame(s: State, t: State, j: string)
    requires PermitInv(s) && OnlyMoved(s, t, j)
    requires LeaseOk(t.phases[j], j, Need(t, j), t.mutex, t.locks)
    ensures PermitInv(t)
  {
    forall k | k in t.phases
      ensures LeaseOk(t.phases[k], k, Need(t, k), t.mutex, t.locks)
    {
      if k != j {
        assert LeaseOk(s.phases[k], k, Need(s, k), s.mutex, s.locks);
        assert Held(t.locks, k) == Held(s.locks, k);
      }
    }
  }

  /** Steps that leave the phases, the locks and the queue lock alone. */
  lemma PermitSame(s: State, t: State)
    requires PermitInv(s) && t.capacity == s.capacity && t.specs == s.specs && t.phases == s.phases
    requires t.locks == s.locks && t.notes == s.notes && t.mutex == s.mutex
    requires t.records.Keys == s.records.Keys && t.histories.Keys == s.histories.Keys
    ensures PermitInv(t)
  {
    forall k | k in t.phases
      ensures LeaseOk(t.phases[k], k, Need(t, k), t.mutex, t.locks) && Known(t, k)
    {
      assert LeaseOk(s.phases[k], k, Need(s, k), s.mutex, s.locks) && Known(s, k);
    }
  }

  lemma PermitCreate(s: State, j: string, spec: Spec)
    requires PermitInv(s) && Enabled(s, Create(j, spec))
    ensures PermitInv(Apply(s, Create(j, spec)))
  {
    var t := Apply(s, Create(j, spec));
    assert Held(s.locks, j) == {};
    forall k | k in t.phases
      ensures Known(t, k) && LeaseOk(t.phases[k], k, Need(t, k), t.mutex, t.locks)
    {
      if k != j {
        assert Known(s, k) && LeaseOk(s.phases[k], k, Need(s, k), s.mutex, s.locks);
      }
    }
  }

  lemma PermitTrySlot(s: State, j: string)
    requires PermitInv(s) && CanTry(s, j)
    ensures PermitInv(ApplyTrySlot(s, j))
  {
    var t := ApplyTrySlot(s, j);
    var Scanning(i, acquired) := s.phases[j];
    assert LeaseOk(s.phases[j], j, Need(s, j), s.mutex, s.locks);
    if i < |s.locks| && s.locks[i].None? {
      ScanningStep(s.locks, j, Need(s, j), i, acquired);
      RisingSize(acquired + [i]);
      forall k | k in s.phases && k != j
        ensures Held(t.locks, k) == Held(s.locks, k)
      {
        HeldTake(s.locks, j, i, k);
      }
    }
    PermitFrame(s, t, j);
  }

  lemma PermitUndo(s: State, j: string)
    requires PermitInv(s) && CanUndo(s, j)
    ensures PermitInv(ApplyUndo(s, j))
  {
    var t := ApplyUndo(s, j);
    var acquired := s.phases[j].acquired;
    assert LeaseOk(s.phases[j], j, Need(s, j), s.mutex, s.locks);
    if acquired != [] {
      var n := |acquired| - 1;
      assert acquired[n] in acquired && acquired[n] in Held(s.locks, j);
      assert acquired == acquired[..n] + [acquired[n]];
      assert Indices(acquired) == Indices(acquired[..n]) + {acquired[n]};
      assert acquired[n] !in Indices(acquired[..n]);
      forall k | k in s.phases
        ensures Held(t.locks, k) == if k == j then Held(s.locks, k) - {acquired[n]} else Held(s.locks, k)
      {
        HeldDrop(s.locks, j, acquired[n], k);
      }
    }
    PermitFrame(s, t, j);
  }

  lemma PermitRelease(s: State, j: string, i: nat)
    requires PermitInv(s) && Enabled(s, ReleaseOne(j, i))
    ensures PermitInv(Apply(s, ReleaseOne(j, i)))
  {
    var t := Apply(s, ReleaseOne(j, i));
    assert LeaseOk(s.phases[j], j, Need(s, j), s.mutex, s.locks);
    forall k | k in s.phases && k != j
      ensures Held(t.locks, k) == Held(s.locks, k)
    {
      HeldDrop(s.locks, j, i, k);
    }
    PermitFrame(s, t, j);
  }

  lemma PermitCrash(s: State, j: string)
    requires PermitInv(s) && Enabled(s, Crash(j))
    ensures PermitInv(Apply(s, Crash(j)))
  {
    var t := Apply(s, Crash(j));
    assert LeaseOk(s.phases[j], j, Need(s, j), s.mutex, s.locks);
    forall k | k in s.phases && k != j
      ensures Held(t.locks, k) == Held(s.locks, k)
    {
    }
    assert Held(t.locks, j) == {};
    PermitFrame(s, t, j);
  }

  /** Steps of one worker that leave the locks alone. */
  lemma PermitMove(s: State, t: State, j: string)
    requires PermitInv(s) && j in s.phases && t.capacity == s.capacity && t.specs == s.specs
    requires t.phases.Keys == s.phases.Keys && t.locks == s.locks && t.notes == s.notes
    requires forall k :: k in s.phases && k != j ==> t.phases[k] == s.phases[k]
    requires t.records.Keys == s.records.Keys && t.histories.Keys == s.histories.Keys
    requires t.mutex == s.mutex || ((t.mutex == None || t.mutex == Some(j)) && (s.mutex == None || s.mutex == Some(j)))
    requires LeaseOk(s.phases[j], j, Need(s, j), s.mutex, s.locks) ==> LeaseOk(t.phases[j], j, Need(t, j), t.mutex, t.locks)
    ensures PermitInv(t)
  {
    assert LeaseOk(s.phases[j], j, Need(s, j), s.mutex, s.locks);
    forall k | k in s.phases
      ensures Known(t, k)
    {
      assert Known(s, k);
    }
    PermitFrame(s, t, j);
  }

  lemma PermitPoll(s: State, j: string, dead: set<string>)
    requires PermitInv(s) && CanPoll(s, j, dead)
    ensures PermitInv(ApplyPoll(s, j, dead))
  {
    assert LeaseOk(s.phases[j], j, Need(s, j), s.mutex, s.locks);
    assert Indices([]) == {};
    PermitMove(s, ApplyPoll(s, j, dead), j);
  }

  lemma PermitEnter(s: State, j: string, now: nat, dead: set<string>)
    requires PermitInv(s) && CanEnter(s, j, now, dead)
    ensures PermitInv(ApplyEnter(s, j, now, dead))
  {
    PermitMove(s, ApplyEnter(s, j, now, dead), j);
  }

  lemma PermitConclude(s: State, j: string, to: JobState, code: int)
    requires PermitInv(s) && Known(s, j) && s.phases[j].Executing?
    ensures PermitInv(Conclude(s, j, to, code))
  {
    MoveFrame(s, j, to, ExitWith(code));
    PermitMove(s, Conclude(s, j, to, code), j);
  }

  lemma PermitSetup(s: State, j: string)
    requires PermitInv(s) && Known(s, j) && s.phases[j].Leased?
    ensures PermitInv(ApplySetupFail(s, j))
  {
    MoveFrame(s, j, Failed, ExitWith(1));
    PermitMove(s, ApplySetupFail(s, j), j);
  }

  lemma PermitRecord(s: State, j: string, to: JobState, details: Details)
    requires PermitInv(s) && Known(s, j)
    ensures PermitInv(Move(s, j, to, details))
  {
    MoveFrame(s, j, to, details);
    PermitSame(s, Move(s, j, to, details));
  }

  /** A record transition together with a phase change of the same worker. */
  lemma PermitRecordAndPhase(s: State, j: string, to: JobState, details: Details, p: Phase)
    requires PermitInv(s) && Known(s, j)
    requires LeaseOk(s.phases[j], j, Need(s, j), s.mutex, s.locks) ==> LeaseOk(p, j, Need(s, j), s.mutex, s.locks)
    ensures PermitInv(Put(Move(s, j, to, details), j, p))
  {
    MoveFrame(s, j, to, details);
    PermitMove(s, Put(Move(s, j, to, details), j, p), j);
  }

  predicate StoreStep(step: Step) {
    step.Start? || step.Reject? || step.CancelPreparing? || step.Reconcile? || step.RequestCancel? || step.Observe? || step.Snapshot?
  }

  lemma PermitStoreStep(s: State, step: Step)
    requires PermitInv(s) && Enabled(s, step) && StoreStep(step)
    ensures PermitInv(Apply(s, step))
  {
    match step
    case Start(j) => PermitRecord(s, j, Queued, Details(None, map["unit" := Unit(j)]));
    case Reject(j) => PermitRecord(s, j, Failed, ExitWith(1));
    case CancelPreparing(j) => PermitRecord(s, j, Cancelled, ExitWith(130));
    case Reconcile(j) => PermitRecord(s, j, Cancelled, ExitWith(127));
    case RequestCancel(j) => PermitSame(s, Apply(s, step));
    case Observe(j) => PermitSame(s, Apply(s, step));
    case Snapshot(dead) => PermitSame(s, Apply(s, step));
  }

  predicate PhaseStep(step: Step) {
    step.Launch? || step.TakeLight? || step.Withdraw? || step.Admit? || step.Escape? || step.Exit?
  }

  lemma PermitPhaseStep(s: State, step: Step)
    requires PermitInv(s) && Enabled(s, step) && PhaseStep(step)
    ensures PermitInv(Apply(s, step))
  {
    if step.Withdraw? || step.Admit? {
      PermitTicketStep(s, step);
    } else {
      PermitMove(s, Apply(s, step), step.job);
    }
  }

  lemma PermitTicketStep(s: State, step: Step)
    requires PermitInv(s) && Enabled(s, step) && (step.Withdraw? || step.Admit?)
    ensures PermitInv(Apply(s, step))
  {
    PermitMove(s, Apply(s, step), step.job);
  }

  lemma PermitWorkerRecord(s: State, step: Step)
    requires PermitInv(s) && Enabled(s, step) && MovesRecord(step) && !StoreStep(step)
    ensures PermitInv(Apply(s, step))
  {
    match step
    case LaunchFail(j) => PermitRecordAndPhase(s, j, Cancelled, NO_DETAILS, Gone(None));
    case RecordWithdrawal(j) =>
      PermitRecordAndPhase(s, j, Cancelled, ExitWith(130), Gone(if Movable(s, j, Cancelled) then Some(130) else None));
    case StartRunning(j) =>
      PermitRecordAndPhase(s, j, Running, NO_DETAILS, if Movable(s, j, Running) then Executing else Releasing(None));
    case SetupFail(j) => PermitSetup(s, j);
    case Finish(j, code) => PermitConclude(s, j, FinishState(code), code);
    case Interrupt(j, code) => PermitConclude(s, j, Cancelled, code);
  }

  /** Every step keeps the permit invariant. */
  lemma PermitStep(s: State, step: Step)
    requires PermitInv(s) && Enabled(s, step)
    ensures PermitInv(Apply(s, step))
  {
    if StoreStep(step) {
      PermitStoreStep(s, step);
    } else if PhaseStep(step) {
      PermitPhaseStep(s, step);
    } else if MovesRecord(step) {
      PermitWorkerRecord(s, step);
    } else {
      match step
      case Create(j, spec) => PermitCreate(s, j, spec);
      case TrySlot(j) => PermitTrySlot(s, j);
      case Undo(j) => PermitUndo(s, j);
      case ReleaseOne(j, i) => PermitRelease(s, j, i);
      case Crash(j) => PermitCrash(s, j);
      case Enter(j, now, dead) => PermitEnter(s, j, now, dead);
      case Poll(j, dead) => PermitPoll(s, j, dead);
    }
  }

  ghost function PermitsFor(capacity: nat, files: nat): State -> bool {
    (s: State) => PermitInv(s) && s.capacity == capacity && |s.locks| == files
  }

  lemma PermitNext(p: State, step: Step, s: State)
    requires PermitInv(p) && Next(p, step, s)
    ensures PermitInv(s) && s.capacity == p.capacity && |s.locks| == |p.locks|
  {
    PermitStep(p, step);
    SizesKept(p, step);
  }

  lemma PermitsReachable(s: State, capacity: nat, files: nat)
    requires 1 <= capacity <= files && Reachable(s, capacity, files)
    ensures PermitInv(s) && s.capacity == capacity && |s.locks| == files
  {
    var inv := PermitsFor(capacity, files);
    forall p, step, q | Next(p, step, q) && inv(p)
      ensures inv(q)
    {
      PermitNext(p, step, q);
    }
    ArisesInvariant(StartsAs(capacity, files), Next, inv, s);
  }

  lemma TrySlotSize(s: State, j: string)
    requires CanTry(s, j)
    ensures ApplyTrySlot(s, j).capacity == s.capacity && |ApplyTrySlot(s, j).locks| == |s.locks|
  {
    var i := s.phases[j].next;
    if i < |s.locks| && s.locks[i].None? {
      assert ApplyTrySlot(s, j).locks == s.locks[i := Some(j)];
    }
  }

  lemma UndoSize(s: State, j: string)
    requires CanUndo(s, j)
    ensures ApplyUndo(s, j).capacity == s.capacity && |ApplyUndo(s, j).locks| == |s.locks|
  {
    var acquired := s.phases[j].acquired;
    if acquired != [] {
      var n := |acquired| - 1;
      assert acquired[n] in acquired;
      assert ApplyUndo(s, j).locks == s.locks[acquired[n] := None];
    }
  }

  lemma SizesKept(s: State, step: Step)
    requires Enabled(s, step)
    ensures Apply(s, step).capacity == s.capacity && |Apply(s, step).locks| == |s.locks|
  {
    match step
    case Start(j) => MoveFrame(s, j, Queued, Details(None, map["unit" := Unit(j)]));
    case Reject(j) => MoveFrame(s, j, Failed, ExitWith(1));
    case CancelPreparing(j) => MoveFrame(s, j, Cancelled, ExitWith(130));
    case Reconcile(j) => MoveFrame(s, j, Cancelled, ExitWith(127));
    case LaunchFail(j) => MoveFrame(s, j, Cancelled, NO_DETAILS);
    case RecordWithdrawal(j) => MoveFrame(s, j, Cancelled, ExitWith(130));
    case StartRunning(j) => MoveFrame(s, j, Running, NO_DETAILS);
    case SetupFail(j) => MoveFrame(s, j, Failed, ExitWith(1));
    case Finish(j, code) => MoveFrame(s, j, FinishState(code), ExitWith(code));
    case Interrupt(j, code) => MoveFrame(s, j, Cancelled, ExitWith(code));
    case TrySlot(j) => TrySlotSize(s, j);
    case Undo(j) => UndoSize(s, j);
    case _ =>
  }

  // ---------------------------------------------------------------- main results

  /** A worker between its transition to `running` and its final transition. */
  predicate RunsCommand(s: State, job: string) {
    job in s.phases && s.phases[job].Executing?
  }

  predicate Weighs(s: State, job: string, w: Weight) {
    job in s.specs && s.specs[job].weight == w
  }

  /** In every interleaving a running worker holds its full lease. */
  lemma RunningHoldsLease(s: State, capacity: nat, files: nat, job: string)
    requires 1 <= capacity <= files && Reachable(s, capacity, files) && RunsCommand(s, job)
    ensures job in s.specs && |Held(s.locks, job)| == match s.specs[job].weight
                                                      case Light => 0
                                                      case Heavy => 1
                                                      case Exclusive => capacity
  {
    PermitsReachable(s, capacity, files);
  }

  /** At most as many heavy or exclusive commands run at once as there are slot files. */
  lemma ConcurrencyBound(s: State, capacity: nat, files: nat, jobs: set<string>)
    requires 1 <= capacity <= files && Reachable(s, capacity, files)
    requires forall j :: j in jobs ==> RunsCommand(s, j) && !Weighs(s, j, Light)
    ensures |jobs| <= files
  {
    forall j | j in jobs
      ensures Held(s.locks, j) != {}
    {
      RunningHoldsLease(s, capacity, files, j);
    }
    HoldersFit(s.locks, jobs);
    PermitsReachable(s, capacity, files);
  }

  /** With exactly `capacity` slot files an exclusive command runs with no other heavy or
      exclusive one. */
  lemma ExclusiveRunsAlone(s: State, capacity: nat, job: string, other: string)
    requires 1 <= capacity && Reachable(s, capacity, capacity)
    requires RunsCommand(s, job) && Weighs(s, job, Exclusive)
    requires RunsCommand(s, other) && !Weighs(s, other, Light)
    ensures other == job
  {
    PermitsReachable(s, capacity, capacity);
    RunningHoldsLease(s, capacity, capacity, job);
    RunningHoldsLease(s, capacity, capacity, other);
    if other != job {
      FullHolderAlone(s.locks, job, other);
    }
  }
}
