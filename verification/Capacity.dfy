/** How much the slot files must agree with the configured capacity, and how a waiting worker can
    lose its ticket: two facts shown by runs of the machine. */
module Capacity {
  import opened Collections
  import opened TicketNames
  import opened Lifecycle
  import opened Queue
  import opened Slots
  import opened Runs
  import opened Runner
  import opened Permits
  import opened Fifo
  import opened FifoResults
  import opened Polling

  lemma StepReachable(s: State, step: Step, t: State, capacity: nat, files: nat)
    requires Reachable(s, capacity, files) && Enabled(s, step) && t == Apply(s, step)
    ensures Reachable(t, capacity, files)
  {
    ArisesNext(StartsAs(capacity, files), Next, s, step, t);
  }

  ghost function ReachableState(capacity: nat, files: nat): State -> bool {
    (s: State) => Reachable(s, capacity, files)
  }

  lemma PollsReachable(s: State, j: string, t: State, capacity: nat, files: nat)
    requires Reachable(s, capacity, files) && Polls(s, j, true, t)
    ensures Reachable(t, capacity, files)
  {
    forall p, a, q | PollMoves(j, true)(p, a, q) && ReachableState(capacity, files)(p)
      ensures ReachableState(capacity, files)(q)
    {
      StepReachable(p, a, q, capacity, files);
    }
    ArisesInvariant(Exactly(s), PollMoves(j, true), ReachableState(capacity, files), t);
  }

  /** An idle queue, and job `j` not yet known. */
  ghost predicate Open(s: State, j: string) {
    s.queue == [] && s.mutex.None? && j !in s.phases && s.clock < Pow10(WIDTH) - 1
  }

  /** A new job can be reserved and queued. */
  lemma BringToQueue(s: State, capacity: nat, files: nat, j: string, spec: Spec) returns (t: State)
    requires Reachable(s, capacity, files) && j !in s.phases
    ensures Reachable(t, capacity, files) && Known(t, j)
    ensures t == s.(specs := s.specs[j := spec], phases := s.phases[j := NotLaunched], records := t.records, histories := t.histories)
    ensures t.records[j] == Record(Queued, None, map["unit" := Unit(j)])
  {
    var created := Apply(s, Create(j, spec));
    StepReachable(s, Create(j, spec), created, capacity, files);
    t := Move(created, j, Queued, Details(None, map["unit" := Unit(j)]));
    StepReachable(created, Start(j), t, capacity, files);
    QueuedFacts(created, j);
  }

  lemma QueuedFacts(s: State, j: string)
    requires Known(s, j) && s.records[j] == NEW_RECORD
    ensures var t := Move(s, j, Queued, Details(None, map["unit" := Unit(j)]));
            && t == s.(records := t.records, histories := t.histories) && Known(t, j)
            && t.records[j] == Record(Queued, None, map["unit" := Unit(j)])
  {
    MoveFrame(s, j, Queued, Details(None, map["unit" := Unit(j)]));
    assert map[] + map["unit" := Unit(j)] == map["unit" := Unit(j)];
  }

  /** A new job can be brought to its worker's start. */
  lemma BringToLaunch(s: State, capacity: nat, files: nat, j: string, spec: Spec) returns (t: State)
    requires Reachable(s, capacity, files) && j !in s.phases
    ensures Reachable(t, capacity, files) && Known(t, j)
    ensures t == s.(specs := s.specs[j := spec], phases := s.phases[j := Launched], records := t.records, histories := t.histories)
    ensures t.records[j] == Record(Queued, None, map["unit" := Unit(j)])
  {
    var queued := BringToQueue(s, capacity, files, j, spec);
    t := queued.(phases := queued.phases[j := Launched]);
    StepReachable(queued, Launch(j), t, capacity, files);
    assert t.phases == s.phases[j := Launched];
  }

  lemma EnterEmptyQueue(s: State, j: string)
    requires Known(s, j) && s.queue == [] && !s.specs[j].weight.Light?
    ensures var t := ApplyEnter(s, j, s.clock, {});
            && t == s.(phases := s.phases[j := Waiting], queue := t.queue, arrivals := t.arrivals, cancels := s.cancels,
                       clock := s.clock + 1)
            && t.queue == [Ticket(s.clock, j, Need(s, j), s.specs[j].session, true)]
  {
    assert Victims([], j, s.specs[j].session, s.records, {}) == {};
  }

  /** A launched job can enter an empty queue. */
  lemma BringToWait(s: State, capacity: nat, files: nat, j: string) returns (t: State)
    requires Reachable(s, capacity, files) && Known(s, j) && s.phases[j].Launched?
    requires s.queue == [] && s.mutex.None? && s.clock < Pow10(WIDTH) && !s.specs[j].weight.Light?
    ensures Reachable(t, capacity, files)
    ensures t == s.(phases := s.phases[j := Waiting], queue := t.queue, arrivals := t.arrivals, cancels := s.cancels, clock := s.clock + 1)
    ensures t.queue == [Ticket(s.clock, j, Need(s, j), s.specs[j].session, true)]
  {
    EnterEmptyQueue(s, j);
    t := ApplyEnter(s, j, s.clock, {});
    StepReachable(s, Enter(j, s.clock, {}), t, capacity, files);
  }

  /** A new job can be brought to its first poll. */
  lemma BringToPoll(s: State, capacity: nat, files: nat, j: string, spec: Spec) returns (t: State)
    requires Reachable(s, capacity, files) && Open(s, j) && !spec.weight.Light? && s.capacity == capacity
    ensures Reachable(t, capacity, files) && CanPoll(t, j, {}) && t.locks == s.locks
    ensures t.specs == s.specs[j := spec] && t.phases == s.phases[j := Waiting] && t.clock == s.clock + 1
    ensures |t.queue| == 1 && t.queue[0].job == j && t.records[j].state.Queued? && t.capacity == capacity
  {
    var launched := BringToLaunch(s, capacity, files, j, spec);
    t := BringToWait(launched, capacity, files, j);
    WaitFacts(s, launched, t, j, spec);
  }

  lemma WaitFacts(s: State, launched: State, t: State, j: string, spec: Spec)
    requires Known(launched, j) && launched.records[j] == Record(Queued, None, map["unit" := Unit(j)])
    requires launched == s.(specs := s.specs[j := spec], phases := s.phases[j := Launched],
                            records := launched.records, histories := launched.histories)
    requires s.queue == [] && s.mutex.None?
    requires t == launched.(phases := launched.phases[j := Waiting], queue := t.queue, arrivals := t.arrivals,
                            cancels := launched.cancels, clock := launched.clock + 1)
    requires t.queue == [Ticket(launched.clock, j, Need(launched, j), launched.specs[j].session, true)]
    ensures CanPoll(t, j, {}) && t.locks == s.locks && t.phases == s.phases[j := Waiting]
    ensures t.specs == s.specs[j := spec] && t.clock == s.clock + 1
    ensures |t.queue| == 1 && t.queue[0].job == j && t.records[j].state.Queued? && t.capacity == s.capacity
  {
    assert t.phases == s.phases[j := Waiting];
  }

  lemma TakenAfterScan(locks: Locks, j: string, need: nat, r: Outcome)
    requires Held(locks, j) == {} && need >= 1 && r == Scan(locks, j, need, Nobody(|locks|), 0, []) && r.lease.Some?
    ensures FreeFrom(r.locks, 0) == FreeFrom(locks, 0) - need
  {
    var freed := Nobody(|locks|);
    assert Indices([]) == {};
    ScanAllOrNothing(locks, j, need, freed, 0, []);
    assert forall k :: !FreedBy(freed, k);
    FreePlusTaken(locks, 0);
    FreePlusTaken(r.locks, 0);
    RisingSize(r.lease.value);
    forall k: nat | k < |locks|
      ensures r.locks[k].Some? <==> locks[k].Some? || k in Held(r.locks, j)
      ensures k in Held(r.locks, j) ==> locks[k].None?
    {
      assert k !in Held(locks, j);
    }
    assert TakenFrom(r.locks, 0) == TakenFrom(locks, 0) + Held(r.locks, j);
    assert TakenFrom(locks, 0) !! Held(r.locks, j);
  }

  lemma OnlyTicketIsFresh(p: State, j: string)
    requires QueueInv(p) && Known(p, j) && |p.queue| == 1 && p.queue[0].job == j && !Final(p.records[j].state)
    ensures Prune(p.queue, p.records, {}) == p.queue
  {
    assert TicketOk(p, p.queue[0]);
    FilterAll(p.queue, Fresh(p.records, {}));
  }

  lemma LeaseFacts(p: State, j: string, r: Outcome, u: State)
    requires PermitInv(p) && Known(p, j) && p.phases[j].Waiting? && FreeFrom(p.locks, 0) >= Need(p, j)
    requires r == Scan(p.locks, j, Need(p, j), Nobody(|p.locks|), 0, []) && Polled(p, j, {}, true, r, u)
    requires |p.queue| == 1 && Prune(p.queue, p.records, {}) == p.queue
    ensures u.phases == p.phases[j := Leased] && u.queue == [] && FreeFrom(u.locks, 0) == FreeFrom(p.locks, 0) - Need(p, j)
  {
    assert LeaseOk(p.phases[j], j, Need(p, j), p.mutex, p.locks);
    QuietOutcome(p, j);
    QuietPhases(p, j, {}, r, u);
    TakenAfterScan(p.locks, j, Need(p, j), r);
  }

  /** With enough free slots the only queued job can be admitted. */
  lemma BringToLease(p: State, capacity: nat, files: nat, j: string) returns (u: State)
    requires 1 <= capacity <= files && Reachable(p, capacity, files) && CanPoll(p, j, {})
    requires |p.queue| == 1 && p.queue[0].job == j && p.records[j].state.Queued? && FreeFrom(p.locks, 0) >= Need(p, j)
    ensures Reachable(u, capacity, files) && u.phases == p.phases[j := Leased] && u.specs == p.specs && u.records == p.records
    ensures u.queue == [] && u.mutex.None? && u.clock == p.clock
    ensures FreeFrom(u.locks, 0) == FreeFrom(p.locks, 0) - Need(p, j)
  {
    InvReachable(p, capacity, files);
    OnlyTicketIsFresh(p, j);
    PollRefines(p, j, {}, true, Nobody(|p.locks|));
    var r := Scan(p.locks, j, Need(p, j), Nobody(|p.locks|), 0, []);
    u :| Polls(p, j, true, u) && Polled(p, j, {}, true, r, u);
    PollsReachable(p, j, u, capacity, files);
    LeaseFacts(p, j, r, u);
  }

  lemma RunLeased(u: State, capacity: nat, files: nat, j: string) returns (t: State)
    requires 1 <= capacity <= files && Reachable(u, capacity, files)
    requires j in u.phases && u.phases[j].Leased? && j in u.records && u.records[j].state.Queued?
    ensures Reachable(t, capacity, files) && t.phases == u.phases[j := Executing] && t.specs == u.specs
    ensures t.queue == u.queue && t.mutex == u.mutex && t.clock == u.clock && t.locks == u.locks
  {
    InvReachable(u, capacity, files);
    assert Known(u, j);
    t := Apply(u, StartRunning(j));
    StepReachable(u, StartRunning(j), t, capacity, files);
  }

  /** From its first poll on, with enough free slots, a job can be brought to run its command. */
  lemma PollToRun(p: State, capacity: nat, files: nat, j: string) returns (t: State)
    requires 1 <= capacity <= files && Reachable(p, capacity, files) && CanPoll(p, j, {})
    requires |p.queue| == 1 && p.queue[0].job == j && p.records[j].state.Queued? && FreeFrom(p.locks, 0) >= Need(p, j)
    ensures Reachable(t, capacity, files) && t.phases == p.phases[j := Executing] && t.specs == p.specs
    ensures t.queue == [] && t.mutex.None? && t.clock == p.clock
    ensures FreeFrom(t.locks, 0) == FreeFrom(p.locks, 0) - Need(p, j)
  {
    var u := BringToLease(p, capacity, files, j);
    t := RunLeased(u, capacity, files, j);
    assert t.phases == p.phases[j := Executing];
  }

  /** With enough free slots a new job can be brought to run its command. */
  lemma BringToRun(s: State, capacity: nat, files: nat, j: string, spec: Spec) returns (t: State)
    requires 1 <= capacity <= files && Reachable(s, capacity, files) && Open(s, j) && !spec.weight.Light?
    requires s.capacity == capacity && FreeFrom(s.locks, 0) >= Queue.Permits(capacity, spec.weight)
    ensures Reachable(t, capacity, files) && t.phases == s.phases[j := Executing] && t.specs == s.specs[j := spec]
    ensures t.queue == [] && t.mutex.None? && t.clock == s.clock + 1
    ensures FreeFrom(t.locks, 0) == FreeFrom(s.locks, 0) - Queue.Permits(capacity, spec.weight)
  {
    var p := BringToPoll(s, capacity, files, j, spec);
    t := PollToRun(p, capacity, files, j);
    assert t.phases == s.phases[j := Executing];
  }

  lemma InitialReachable(capacity: nat, files: nat)
    ensures Reachable(Initial(capacity, files), capacity, files)
  {
    assert After(StartsAs(capacity, files), Next, Initial(capacity, files), 0);
  }

  /** A job id for every number. */
  function Id(i: nat): string {
    seq(i + 1, _ => 'x')
  }

  lemma IdsDiffer(i: nat, k: nat)
    ensures Id(i) == Id(k) <==> i == k
  {
    assert |Id(i)| == i + 1 && |Id(k)| == k + 1;
  }

  /** The first `n` jobs are heavy and run their commands, and they are all there is. */
  ghost predicate RunTogether(s: State, n: nat) {
    && (forall i: nat :: i < n ==> RunsCommand(s, Id(i)) && Weighs(s, Id(i), Heavy))
    && forall i: nat :: n <= i ==> Id(i) !in s.phases
  }

  lemma OneMore(s: State, t: State, n: nat)
    requires RunTogether(s, n) && t.phases == s.phases[Id(n) := Executing] && t.specs == s.specs[Id(n) := Spec(Heavy, None)]
    ensures RunTogether(t, n + 1)
  {
    forall i: nat
      ensures Id(i) == Id(n) <==> i == n
    {
      IdsDiffer(i, n);
    }
  }

  lemma NobodyYet(capacity: nat, files: nat)
    ensures var t := Initial(capacity, files);
            && Reachable(t, capacity, files) && RunTogether(t, 0)
            && t.queue == [] && t.mutex.None? && t.clock == 0 && FreeFrom(t.locks, 0) == files
  {
    InitialReachable(capacity, files);
    AllFree(Initial(capacity, files).locks, 0);
  }

  lemma OneMoreRuns(s: State, capacity: nat, files: nat, n: nat) returns (t: State)
    requires 1 <= capacity <= files && n < capacity && n + 1 < Pow10(WIDTH)
    requires Reachable(s, capacity, files) && RunTogether(s, n)
    requires s.capacity == capacity && s.queue == [] && s.mutex.None? && s.clock == n && FreeFrom(s.locks, 0) == files - n
    ensures Reachable(t, capacity, files) && RunTogether(t, n + 1)
    ensures t.capacity == capacity && t.queue == [] && t.mutex.None? && t.clock == n + 1 && FreeFrom(t.locks, 0) == files - (n + 1)
  {
    t := BringToRun(s, capacity, files, Id(n), Spec(Heavy, None));
    OneMore(s, t, n);
    PermitsReachable(t, capacity, files);
  }

  /** The permits can all be used: up to the capacity, any number of heavy jobs can run together. */
  lemma {:induction false} HeavyJobsShare(capacity: nat, files: nat, n: nat) returns (t: State)
    requires 1 <= capacity <= files && n <= capacity && n < Pow10(WIDTH)
    ensures Reachable(t, capacity, files) && RunTogether(t, n)
    ensures t.capacity == capacity && t.queue == [] && t.mutex.None? && t.clock == n && FreeFrom(t.locks, 0) == files - n
    decreases n
  {
    if n == 0 {
      t := Initial(capacity, files);
      NobodyYet(capacity, files);
    } else {
      var s := HeavyJobsShare(capacity, files, n - 1);
      t := OneMoreRuns(s, capacity, files, n - 1);
    }
  }

  /** The promise of exclusive jobs, for a pool of this capacity with this many slot files. */
  ghost predicate ExclusiveAlone(capacity: nat, files: nat) {
    forall s, a, b | Reachable(s, capacity, files) && RunsCommand(s, a) && Weighs(s, a, Exclusive) ::
      RunsCommand(s, b) && !Weighs(s, b, Light) ==> b == a
  }

  /** Exclusive jobs run alone exactly when the slot files are as many as the capacity: a pool
      whose capacity was lowered keeps its extra slot files and loses the promise. */
  lemma ExclusiveAloneIff(capacity: nat, files: nat)
    requires 1 <= capacity <= files
    ensures ExclusiveAlone(capacity, files) <==> files == capacity
  {
    if files == capacity {
      forall s, a, b | Reachable(s, capacity, files) && RunsCommand(s, a) && Weighs(s, a, Exclusive)
                       && RunsCommand(s, b) && !Weighs(s, b, Light)
        ensures b == a
      {
        ExclusiveRunsAlone(s, capacity, a, b);
      }
    } else {
      var s := Initial(capacity, files);
      InitialReachable(capacity, files);
      AllFree(s.locks, 0);
      var t := BringToRun(s, capacity, files, "x", Spec(Exclusive, None));
      PermitsReachable(t, capacity, files);
      var u := BringToRun(t, capacity, files, "y", Spec(Heavy, None));
      assert RunsCommand(u, "x") && Weighs(u, "x", Exclusive) && RunsCommand(u, "y") && Weighs(u, "y", Heavy);
    }
  }

  /** The exit code of a cancellation: by a late `cancel`, or by reconciliation. */
  function CodeOf(late: bool): int {
    if late then 130 else 127
  }

  lemma FinalizedAtLaunch(capacity: nat, files: nat, late: bool) returns (t: State)
    requires 1 <= capacity <= files
    ensures Reachable(t, capacity, files) && Known(t, "a") && t.phases["a"].Launched?
    ensures t.records["a"].state.Cancelled? && t.records["a"].exitCode == Some(CodeOf(late))
    ensures t.queue == [] && t.mutex.None? && t.clock == 0 && t.specs["a"] == Spec(Heavy, None) && t.cancels == {}
  {
    InitialReachable(capacity, files);
    var queued := BringToQueue(Initial(capacity, files), capacity, files, "a", Spec(Heavy, None));
    var seen := queued.(observed := queued.observed + {"a"});
    StepReachable(queued, Observe("a"), seen, capacity, files);
    var launched := seen.(phases := seen.phases["a" := Launched]);
    StepReachable(seen, Launch("a"), launched, capacity, files);
    t := Move(launched, "a", Cancelled, ExitWith(CodeOf(late)));
    MoveFrame(launched, "a", Cancelled, ExitWith(CodeOf(late)));
    StepReachable(launched, if late then CancelPreparing("a") else Reconcile("a"), t, capacity, files);
  }

  /** A `cancel` that read `preparing`, or a reconciliation that saw the unit inactive, can finalize
      the record of a worker that was launched since and then waits with no ticket and no
      cancellation request; by `OrphanNeverRuns` it is never admitted. */
  lemma StrandedWaiter(capacity: nat, files: nat, late: bool)
    requires 1 <= capacity <= files
    ensures exists s :: Reachable(s, capacity, files) && Orphaned(s, "a") && s.phases["a"].Waiting?
                        && "a" !in s.cancels && "a" in s.records && Final(s.records["a"].state)
                        && s.records["a"].exitCode == Some(CodeOf(late))
  {
    var final := FinalizedAtLaunch(capacity, files, late);
    var waiting := BringToWait(final, capacity, files, "a");
    var pruned := waiting.(queue := []);
    assert Stale(waiting.records, {}, "a");
    assert Prune(waiting.queue, waiting.records, {}) == [];
    StepReachable(waiting, Step.Snapshot({}), pruned, capacity, files);
    assert Orphaned(pruned, "a");
  }
}
