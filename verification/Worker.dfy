/** The worker program: lease, setup, command, supervision and final status, while cancellation
    and reconciliation may finalize the same job at any point in between. */
module Worker {
  import opened Collections
  import opened Json
  import opened Lifecycle
  import opened Runner
  import opened Runs
  import opened Slots
  import Pool = ResourcePool

  datatype Line = SetupFailed | SpawnFailed | DiskWarning

  datatype Disk = Ample | Warning | Critical

  /** Another process gives the job up: a rejection or a cancellation by what it read while the job was
      preparing, or a reconciliation that saw the unit inactive before. */
  datatype Attempt = Rejection | Cancellation | Reconciliation

  function Target(a: Attempt): JobState {
    if a.Rejection? then Failed else Cancelled
  }

  function CodeOf(a: Attempt): int {
    match a
    case Rejection => 1
    case Cancellation => 130
    case Reconciliation => 127
  }

  /** What the outside world answers during one run. */
  datatype World = World(
    lease: Option<seq<nat>>,          // the slots granted, or nothing when cancelled while queued
    setup: bool,
    spawn: bool,                      // the operating system starts the command
    lifetime: nat,                    // polls until the command has ended
    exit: int,
    stopped: int,                     // exit code after an interrupt
    cancelled: nat -> bool,
    before: nat -> Disk,              // the two disk readings of one supervision round
    after: nat -> Disk,
    others: nat -> seq<Attempt>,      // what other processes try to record at each point
    marks: bool,                      // the transition to `running` can be stored
    stores: bool,                     // the final transition can be stored
    opens: bool,                      // the log can be opened
    writes: bool,                     // a line can be written to it
    breaks: nat -> bool)              // a disk reading or the interrupt of a round raises

  datatype Ending = Returned(code: int) | Raised

  function Ended(e: Ending): Option<int> {
    match e
    case Returned(code) => Some(code)
    case Raised => None
  }

  predicate Stops(w: World, round: nat) {
    w.cancelled(round) || w.before(round).Critical?
  }

  /** Supervision sees the end of the command before any reason to stop it. */
  ghost predicate RunsOut(w: World) {
    forall k: nat :: k < w.lifetime ==> !Stops(w, k)
  }

  /** A supervision round raises: by itself, or because its warning cannot be written. */
  predicate Breaks(w: World, round: nat) {
    w.breaks(round) || (!Stops(w, round) && w.after(round).Warning? && !w.writes)
  }

  /** Supervision comes to a round that raises. */
  ghost predicate Broken(w: World) {
    exists k: nat :: k < w.lifetime && Breaks(w, k) && forall i: nat :: i < k ==> !Stops(w, i)
  }

  // ---------------------------------------------------------------- what escapes the worker

  /** `JobSpec` accepts a command line of non-empty strings. */
  predicate AcceptedArgv(argv: seq<Text>) {
    argv != [] && forall a :: a in argv ==> a != []
  }

  /** The operating system takes a string without NUL; of the surrogates only the escaped bytes
      from U+DC80 to U+DCFF have an encoding. */
  predicate Passable(a: Text) {
    forall c :: c in a ==> c != 0 && !High(c) && (Low(c) ==> 0xdc80 <= c <= 0xdcff)
  }

  predicate Spawnable(argv: seq<Text>) {
    forall a :: a in argv ==> Passable(a)
  }

  /** `Popen` raises a `ValueError` for a string it cannot pass on, and only `OSError` is caught. */
  ghost predicate CommandEscapes(w: World, argv: seq<Text>) {
    !w.marks || !Spawnable(argv) || if w.spawn then Broken(w) else !w.writes
  }

  /** An exception that no handler of the worker turns into a final state. */
  ghost predicate Escapes(w: World, argv: seq<Text>) {
    !w.stores || (w.lease.Some? && (!w.opens || if w.setup then CommandEscapes(w, argv) else !w.writes))
  }

  /** Files can be written, disk readings and signals succeed. */
  ghost predicate Healthy(w: World) {
    w.marks && w.stores && w.opens && w.writes && forall k: nat :: !w.breaks(k)
  }

  /** In a healthy environment the command line alone decides: an exception escapes a worker that
      comes to start its command exactly when a string of the command line cannot be passed on. */
  lemma ArgvDecides(w: World, argv: seq<Text>)
    requires Healthy(w)
    ensures Escapes(w, argv) <==> w.lease.Some? && w.setup && !Spawnable(argv)
  {
    assert forall k: nat :: !Breaks(w, k);
  }

  /** For example the accepted command line `echo` with a NUL character or a lone surrogate; with an
      escaped byte instead nothing escapes. */
  lemma NulEscapes(w: World, c: Code)
    requires Healthy(w) && w.lease.Some? && w.setup
    ensures AcceptedArgv([Lit("echo"), [c]])
    ensures c == 0 || c == 0xd800 || c == 0xdc00 ==> Escapes(w, [Lit("echo"), [c]])
    ensures c == 0xdc80 || c == 10 || c == 0xe9 || c == 0x1f6ab ==> !Escapes(w, [Lit("echo"), [c]])
  {
    var argv := [Lit("echo"), [c]];
    assert argv[1] in argv && c in argv[1];
    ArgvDecides(w, argv);
  }

  // ---------------------------------------------------------------- what a run records

  /** The final state and exit code the worker itself aims for. */
  ghost function Verdict(w: World): (JobState, int) {
    if w.lease.None? then (Cancelled, 130)
    else if !w.setup then (Failed, 1)
    else if !w.spawn then (Failed, 127)
    else if RunsOut(w) then (FinishState(w.exit), w.exit)
    else (Cancelled, w.stopped)
  }

  /** Where an undisturbed run leaves a queued job: final, or where the exception found it. */
  ghost function Reached(w: World, argv: seq<Text>): JobState {
    if !Escapes(w, argv) then Verdict(w).0
    else if w.lease.Some? && w.setup && w.marks then Running else Queued
  }

  /** A call that returned recorded its verdict, or found the job already final when setup failed. */
  ghost predicate Recorded(w: World, r: Lifecycle.Record, code: int) {
    || (r.state == Verdict(w).0 && code == Verdict(w).1 && r.exitCode == Some(code))
    || (w.lease.Some? && !w.setup && Final(r.state) && code == if r.exitCode.Some? then r.exitCode.value else 1)
  }

  /** No round of supervision sees a cancellation or a critically full disk. */
  lemma RunsOutIff(w: World)
    ensures RunsOut(w) <==> forall k: nat :: k < w.lifetime ==> !w.cancelled(k) && w.before(k) != Critical
  {
    if RunsOut(w) {
      forall k: nat | k < w.lifetime
        ensures !w.cancelled(k) && w.before(k) != Critical
      {
        assert !Stops(w, k);
      }
    }
  }

  /** An undisturbed run returns exactly when no exception escapes, with the verdict on record. */
  ghost predicate Delivers(w: World, argv: seq<Text>, e: Ending, r: Lifecycle.Record) {
    && (e.Returned? <==> !Escapes(w, argv)) && r.state == Reached(w, argv)
    && (e.Returned? ==> e.code == Verdict(w).1 && r.exitCode == Some(e.code))
  }

  /** What that means, case by case. */
  lemma DeliversOutcome(w: World, argv: seq<Text>, e: Ending, r: Lifecycle.Record)
    requires Delivers(w, argv, e, r) && !Escapes(w, argv)
    ensures e.Returned? && r.exitCode == Some(e.code)
    ensures w.lease.None? ==> r.state.Cancelled? && e.code == 130
    ensures w.lease.Some? && !w.setup ==> r.state.Failed? && e.code == 1
    ensures w.lease.Some? && w.setup && !w.spawn ==> r.state.Failed? && e.code == 127
    ensures w.lease.Some? && w.setup && w.spawn ==>
              if forall k: nat :: k < w.lifetime ==> !w.cancelled(k) && w.before(k) != Critical
              then e.code == w.exit && (r.state.Passed? <==> w.exit == 0) && (r.state.Failed? <==> w.exit != 0)
              else e.code == w.stopped && r.state.Cancelled?
  {
    RunsOutIff(w);
  }

  ghost predicate Undisturbed(w: World) {
    forall k: nat :: w.others(k) == []
  }

  predicate OneWarning(lines: seq<Line>) {
    forall i, j :: 0 <= i < j < |lines| ==> !(lines[i].DiskWarning? && lines[j].DiskWarning?)
  }

  // ---------------------------------------------------------------- the worker in the machine

  /** The steps that job `j`'s worker takes from its lease or its withdrawal on, and the attempts of
      other processes on the job. */
  predicate WorkerMove(j: string, a: Step) {
    && (a.StartRunning? || a.SetupFail? || a.Finish? || a.Interrupt? || a.Escape? || a.RecordWithdrawal? || a.Crash?
        || a.Reject? || a.CancelPreparing? || a.Reconcile?)
    && a.job == j
  }

  ghost function WorkerMoves(j: string): (State, Step, State) -> bool {
    (p: State, a: Step, q: State) => Next(p, a, q) && WorkerMove(j, a)
  }

  /** `t` arises from `s` by such steps alone. */
  ghost predicate Works(s: State, j: string, t: State) {
    Arises(Exactly(s), WorkerMoves(j), t)
  }

  lemma WorksNext(s: State, j: string, p: State, a: Step, q: State)
    requires Works(s, j, p) && Enabled(p, a) && q == Apply(p, a) && WorkerMove(j, a)
    ensures Works(s, j, q)
  {
    ArisesNext(Exactly(s), WorkerMoves(j), p, a, q);
  }

  lemma AttemptWorks(s: State, j: string, p: State, a: Attempt)
    requires Works(s, j, p) && Known(p, j)
    requires a.Reconciliation? ==> j in p.observed && !p.records[j].state.Preparing?
    ensures Works(s, j, Move(p, j, Target(a), ExitWith(CodeOf(a))))
  {
    var step := match a case Rejection => Reject(j) case Cancellation => CancelPreparing(j) case Reconciliation => Reconcile(j);
    WorksNext(s, j, p, step, Move(p, j, Target(a), ExitWith(CodeOf(a))));
  }

  /** The state after the transition to `running`. */
  function Started(p: State, j: string): State
    requires Known(p, j)
  {
    Put(Move(p, j, Running, NO_DETAILS), j, if Movable(p, j, Running) then Executing else Releasing(None))
  }

  lemma StartWorks(s: State, j: string, p: State)
    requires Works(s, j, p) && At(p, j, Leased)
    ensures Works(s, j, Started(p, j))
  {
    WorksNext(s, j, p, StartRunning(j), Started(p, j));
  }

  lemma ConcludeWorks(s: State, j: string, p: State, to: JobState, code: int)
    requires Works(s, j, p) && At(p, j, Executing) && (to.Cancelled? || to == FinishState(code))
    ensures Works(s, j, Conclude(p, j, to, code))
  {
    WorksNext(s, j, p, if to.Cancelled? then Interrupt(j, code) else Finish(j, code), Conclude(p, j, to, code));
  }

  lemma SetupWorks(s: State, j: string, p: State)
    requires Works(s, j, p) && At(p, j, Leased)
    ensures Works(s, j, ApplySetupFail(p, j))
  {
    WorksNext(s, j, p, SetupFail(j), ApplySetupFail(p, j));
  }

  lemma EscapeWorks(s: State, j: string, p: State)
    requires Works(s, j, p) && HoldsLease(p, j)
    ensures Works(s, j, Put(p, j, Releasing(None)))
  {
    WorksNext(s, j, p, Step.Escape(j), Put(p, j, Releasing(None)));
  }

  /** The state after a withdrawal has been recorded or refused. */
  function Withdrawn(p: State, j: string): State
    requires Known(p, j)
  {
    Put(Move(p, j, Cancelled, ExitWith(130)), j, Gone(if Movable(p, j, Cancelled) then Some(130) else None))
  }

  lemma WithdrawWorks(s: State, j: string, p: State)
    requires Works(s, j, p) && At(p, j, Quitting)
    ensures Works(s, j, Withdrawn(p, j))
    ensures Works(s, j, Crashed(p, j))
  {
    WorksNext(s, j, p, RecordWithdrawal(j), Withdrawn(p, j));
    WorksNext(s, j, p, Crash(j), Crashed(p, j));
  }

  ghost function ReachableFrom(capacity: nat, files: nat): State -> bool {
    (s: State) => Reachable(s, capacity, files)
  }

  /** What the worker makes of a reachable state is reachable, so all that holds over runs of the
      machine holds of the worker's program. */
  lemma WorksReachable(s: State, j: string, t: State, capacity: nat, files: nat)
    requires Reachable(s, capacity, files) && Works(s, j, t)
    ensures Reachable(t, capacity, files)
  {
    forall p, a, q | WorkerMoves(j)(p, a, q) && ReachableFrom(capacity, files)(p)
      ensures ReachableFrom(capacity, files)(q)
    {
      ArisesNext(StartsAs(capacity, files), Next, p, a, q);
    }
    ArisesInvariant(Exactly(s), WorkerMoves(j), ReachableFrom(capacity, files), t);
  }

  class Program {
    const store: JobStore
    const pool: Pool.ResourcePool
    const job: string
    const argv: seq<Text>
    var log: seq<Line>
    /** The machine's state when the worker began, and the one it has come to. */
    ghost const begin: State
    ghost var now: State

    constructor (store: JobStore, pool: Pool.ResourcePool, job: string, argv: seq<Text>, ghost s: State)
      requires ShowsStore(store, s) && Runner.Known(s, job)
      ensures this.store == store && this.pool == pool && this.job == job && this.argv == argv && log == []
      ensures begin == now == s && Follows()
    {
      this.store := store;
      this.pool := pool;
      this.job := job;
      this.argv := argv;
      log := [];
      begin, now := s, s;
      new;
      assert After(Exactly(s), WorkerMoves(job), s, 0);
    }

    /** The store shows a state that the machine can come to by steps of this worker, and attempts of
        others on its job. */
    ghost predicate Follows()
      reads this, store
    {
      ShowsStore(store, now) && Runner.Known(now, job) && Works(begin, job, now)
    }

    /** A reconciliation can only act on an earlier observation. */
    ghost predicate Seen(attempts: seq<Attempt>)
      reads this
    {
      Reconciliation in attempts ==> job in now.observed
    }

    function Record(): Lifecycle.Record
      requires job in store.records
      reads store
    {
      store.records[job]
    }

    /** The states in which a worker is launched: queued, or finalized since. */
    ghost predicate Launchable()
      requires job in store.records
      reads store
    {
      !Record().state.Preparing? && !Record().state.Running?
    }

    /** The job holds exactly the slots of its lease. */
    ghost predicate HoldsSlots(w: World)
      reads pool.locks
    {
      match w.lease
      case None => Held(pool.locks[..], job) == {}
      case Some(slots) => Rising(slots) && Held(pool.locks[..], job) == Indices(slots)
    }

    /** One call of `transition`, by the worker or another process. */
    method Transit(to: JobState, details: Details) returns (r: Result<Lifecycle.Record, string>)
      requires Follows()
      modifies store`records
      ensures ShowsStore(store, Move(now, job, to, details)) && job in store.records
      ensures r.Success? <==> Movable(now, job, to)
      ensures r.Success? ==> Advance(old(Record()), to, details) == r && Record() == r.value
      ensures r.Failure? ==> store.records == old(store.records)
    {
      r := store.Transition(job, to, details);
    }

    /** Other processes try to give the job up; each attempt follows the transition table. */
    method Elsewhere(attempts: seq<Attempt>)
      requires Follows() && Seen(attempts)
      modifies store`records, this`now
      ensures Follows() && now.phases == old(now).phases && now.observed == old(now).observed
      ensures Record() == old(Record()) || (!Final(old(Record()).state) && GivenUp(Record().state))
      ensures attempts == [] ==> Record() == old(Record())
    {
      for i := 0 to |attempts|
        invariant Follows() && now.phases == old(now).phases && now.observed == old(now).observed
        invariant Record() == old(Record()) || (!Final(old(Record()).state) && GivenUp(Record().state))
        invariant i == 0 ==> Record() == old(Record())
      {
        Attempted(attempts[i]);
      }
    }

    /** One attempt of another process; a preparing job is not reconciled. */
    method Attempted(a: Attempt)
      requires Follows() && (a.Reconciliation? ==> job in now.observed)
      modifies store`records, this`now
      ensures Follows() && now.phases == old(now).phases && now.observed == old(now).observed
      ensures Record() == old(Record()) || (!Final(old(Record()).state) && GivenUp(Record().state))
    {
      if a.Reconciliation? && Record().state.Preparing? {
        return;
      }
      AttemptWorks(begin, job, now, a);
      MoveFrame(now, job, Target(a), ExitWith(CodeOf(a)));
      var r := Transit(Target(a), ExitWith(CodeOf(a)));
      now := Move(now, job, Target(a), ExitWith(CodeOf(a)));
    }

    /** An exception escapes. */
    ghost method Escaping()
      requires Follows() && HoldsLease(now, job)
      modifies this`now
      ensures Follows() && now.phases[job] == Releasing(None)
    {
      EscapeWorks(begin, job, now);
      now := Put(now, job, Releasing(None));
    }

    /** The final transition of a worker whose command is over; one that is refused or cannot be stored
        raises. */
    method Conclude(w: World, to: JobState, code: int) returns (e: Ending)
      requires Follows() && now.phases[job].Executing? && (to.Cancelled? || to == FinishState(code))
      modifies store`records, this`now
      ensures Follows() && now.phases[job] == Releasing(Ended(e))
      ensures e.Returned? <==> w.stores && Allowed(old(Record()).state, to)
      ensures e.Returned? ==> e.code == code && Record().state == to && Record().exitCode == Some(code)
      ensures e.Raised? ==> store.records == old(store.records)
    {
      if !w.stores {
        Escaping();
        return Raised;
      }
      ConcludeWorks(begin, job, now, to, code);
      MoveFrame(now, job, to, ExitWith(code));
      var r := Transit(to, ExitWith(code));
      now := Runner.Conclude(now, job, to, code);
      e := if r.Success? then Returned(code) else Raised;
    }

    /** Supervises the command: polls until it has ended, or stops it on cancellation or a full
        disk; the low-disk warning is written at most once; a round that raises ends it. */
    method Supervise(w: World) returns (e: Ending, stopped: bool)
      modifies this`log
      ensures e.Raised? <==> Broken(w)
      ensures e.Returned? ==> (stopped <==> !RunsOut(w)) && e.code == if stopped then w.stopped else w.exit
      ensures old(log) <= log && |log| <= |old(log)| + 1 && forall i :: |old(log)| <= i < |log| ==> log[i].DiskWarning?
      ensures e.Returned? && !stopped && log == old(log) ==> forall k: nat :: k < w.lifetime ==> !w.after(k).Warning?
    {
      var warned := false;
      var round := 0;
      while round < w.lifetime
        invariant round <= w.lifetime
        invariant forall k: nat :: k < round ==> !Stops(w, k) && !Breaks(w, k)
        invariant log == old(log) + if warned then [DiskWarning] else []
        invariant warned ==> w.writes
        invariant !warned ==> forall k: nat :: k < round ==> !w.after(k).Warning?
      {
        if w.breaks(round) {
          assert Breaks(w, round);
          return Raised, false;
        }
        if w.cancelled(round) || w.before(round).Critical? {
          assert Stops(w, round);
          return Returned(w.stopped), true;
        }
        if !warned && w.after(round).Warning? {
          if !w.writes {
            assert Breaks(w, round);
            return Raised, false;
          }
          log := log + [DiskWarning];
          warned := true;
        }
        round := round + 1;
      }
      e, stopped := Returned(w.exit), false;
    }

    /** The environment cannot be set up: a line in the log, and the job fails unless it is final. */
    method FailSetup(w: World) returns (e: Ending)
      requires w.lease.Some? && !w.setup && Follows() && now.phases[job].Leased? && Seen(w.others(1))
      modifies this`log, store`records, this`now
      ensures Follows() && now.phases[job] == Releasing(Ended(e))
      ensures e.Returned? || (old(Launchable()) && !Escapes(w, argv)) ==> Final(Record().state)
      ensures e.Returned? ==> Recorded(w, Record(), e.code)
      ensures old(Record()).state.Queued? && Undisturbed(w) ==> Delivers(w, argv, e, Record())
      ensures e.Returned? ==> w.opens && w.writes
      ensures log == old(log) + if w.opens && w.writes then [SetupFailed] else []
    {
      if !w.opens || !w.writes {
        Escaping();
        return Raised;
      }
      log := log + [SetupFailed];
      if Final(Record().state) {
        SetupWorks(begin, job, now);
        now := ApplySetupFail(now, job);
        return Returned(if Record().exitCode.Some? then Record().exitCode.value else 1);
      }
      Elsewhere(w.others(1));
      e := RecordSetupFailure(w);
    }

    method RecordSetupFailure(w: World) returns (e: Ending)
      requires Follows() && now.phases[job].Leased?
      modifies store`records, this`now
      ensures Follows() && now.phases[job] == Releasing(Ended(e))
      ensures e.Returned? <==> w.stores && Allowed(old(Record()).state, Failed)
      ensures e.Returned? ==> e.code == 1 && Record().state == Failed && Record().exitCode == Some(1)
      ensures e.Raised? ==> store.records == old(store.records)
    {
      if !w.stores || Final(Record().state) {
        Escaping();
        return Raised;
      }
      SetupWorks(begin, job, now);
      MoveFrame(now, job, Failed, ExitWith(1));
      var r := Transit(Failed, ExitWith(1));
      now := ApplySetupFail(now, job);
      e := if r.Success? then Returned(1) else Raised;
    }

    /** The command, once the job is on record as running. */
    method RunCommand(w: World) returns (e: Ending)
      requires w.lease.Some? && w.setup && w.marks && Follows() && now.phases[job].Executing? && Seen(w.others(2))
      modifies this`log, store`records, this`now
      ensures Follows() && now.phases[job] == Releasing(Ended(e))
      ensures e.Returned? || (Final(old(Record()).state) || (old(Record()).state == Running && !Escapes(w, argv))) ==> Final(Record().state)
      ensures e.Returned? ==> Recorded(w, Record(), e.code)
      ensures old(Record()).state == Running && Undisturbed(w) ==> Delivers(w, argv, e, Record())
      ensures e.Returned? ==> w.opens && Spawnable(argv) && (!w.spawn ==> w.writes)
      ensures old(log) <= log && OneWarning(log[|old(log)|..])
    {
      if !w.opens || !Spawnable(argv) {
        Escaping();
        return Raised;
      }
      if !w.spawn {
        if !w.writes {
          Escaping();
          return Raised;
        }
        log := log + [SpawnFailed];
        e := Conclude(w, FinishState(127), 127);
        return;
      }
      var watched, stopped := Supervise(w);
      Elsewhere(w.others(2));
      if watched.Raised? {
        Escaping();
        return Raised;
      }
      e := Conclude(w, if stopped then Cancelled else FinishState(watched.code), watched.code);
    }

    /** From the lease to the final status; `RunJob` releases the lease afterwards. */
    method Work(w: World) returns (e: Ending)
      requires w.lease.Some? && Follows() && now.phases[job].Leased? && forall k: nat :: Seen(w.others(k))
      modifies this`log, store`records, this`now
      ensures Follows() && now.phases[job] == Releasing(Ended(e))
      ensures e.Returned? || (old(Launchable()) && !Escapes(w, argv)) ==> Final(Record().state)
      ensures e.Returned? ==> Recorded(w, Record(), e.code)
      ensures old(Record()).state.Queued? && Undisturbed(w) ==> Delivers(w, argv, e, Record())
      ensures e.Returned? ==> w.opens && (w.setup ==> w.marks && Spawnable(argv)) && (!w.setup || !w.spawn ==> w.writes)
      ensures old(log) <= log && OneWarning(log[|old(log)|..])
    {
      Elsewhere(w.others(0));
      if !w.setup {
        e := FailSetup(w);
        return;
      }
      if !w.marks {
        Escaping();
        return Raised;
      }
      var running := MarkRunning();
      if !running {
        return Raised;
      }
      Elsewhere(w.others(1));
      e := RunCommand(w);
    }

    method MarkRunning() returns (ok: bool)
      requires Follows() && now.phases[job].Leased?
      modifies store`records, this`now
      ensures Follows() && now.phases[job] == (if ok then Executing else Releasing(None)) && now.observed == old(now).observed
      ensures ok <==> old(Record()).state.Queued?
      ensures ok ==> Record().state == Running
      ensures !ok ==> store.records == old(store.records)
    {
      StartWorks(begin, job, now);
      MoveFrame(now, job, Running, NO_DETAILS);
      var r := Transit(Running, NO_DETAILS);
      now := Started(now, job);
      ok := r.Success?;
    }

    /** A worker that was cancelled while queued records that. */
    method Withdraw(w: World) returns (e: Ending)
      requires w.lease.None? && Follows() && now.phases[job].Quitting? && Seen(w.others(0))
      modifies store`records, this`now
      ensures Follows() && now.phases[job] == Gone(Ended(e))
      ensures e.Returned? || (old(Launchable()) && !Escapes(w, argv)) ==> Final(Record().state)
      ensures e.Returned? ==> Recorded(w, Record(), e.code)
      ensures old(Record()).state.Queued? && Undisturbed(w) ==> Delivers(w, argv, e, Record())
    {
      Elsewhere(w.others(0));
      e := RecordWithdrawn(w);
    }

    method RecordWithdrawn(w: World) returns (e: Ending)
      requires Follows() && now.phases[job].Quitting?
      modifies store`records, this`now
      ensures Follows() && now.phases[job] == Gone(Ended(e))
      ensures e.Returned? <==> w.stores && Allowed(old(Record()).state, Cancelled)
      ensures e.Returned? ==> e.code == 130 && Record().state == Cancelled && Record().exitCode == Some(130)
      ensures e.Raised? ==> store.records == old(store.records)
    {
      WithdrawWorks(begin, job, now);
      if !w.stores {
        now := Crashed(now, job);
        return Raised;
      }
      MoveFrame(now, job, Cancelled, ExitWith(130));
      var r := Transit(Cancelled, ExitWith(130));
      now := Withdrawn(now, job);
      e := if r.Success? then Returned(130) else Raised;
    }

    /** `run_job`: whether it returns or raises, the job's slots are free and no other job's changed;
        the job is final if it returned, or if it was started the regular way and no exception
        escaped; a returned code is the recorded one. Without interference a queued job becomes final
        exactly when no exception escapes, in the way its lease, its setup and its command decide. The
        store has followed a run of the machine, to the point where the worker lets its lease go. */
    method RunJob(w: World) returns (e: Ending)
      requires HoldsSlots(w) && Follows() && forall k: nat :: Seen(w.others(k))
      requires now.phases[job] == if w.lease.Some? then Leased else Quitting
      modifies this`log, store`records, this`now, pool.locks
      ensures Held(pool.locks[..], job) == {} && forall k :: k != job ==> Held(pool.locks[..], k) == old(Held(pool.locks[..], k))
      ensures Follows() && now.phases[job] == if w.lease.Some? then Releasing(Ended(e)) else Gone(Ended(e))
      ensures e.Returned? || (old(Launchable()) && !Escapes(w, argv)) ==> Final(Record().state)
      ensures e.Returned? ==> Recorded(w, Record(), e.code)
      ensures old(Record()).state.Queued? && Undisturbed(w) ==> Delivers(w, argv, e, Record())
      ensures old(Record()).state.Queued? && Undisturbed(w) && !Escapes(w, argv) ==>
                && e.Returned? && Record().exitCode == Some(e.code)
                && (w.lease.None? ==> Record().state.Cancelled? && e.code == 130)
                && (w.lease.Some? && !w.setup ==> Record().state.Failed? && e.code == 1)
                && (w.lease.Some? && w.setup && !w.spawn ==> Record().state.Failed? && e.code == 127)
      ensures old(Record()).state.Queued? && Undisturbed(w) && !Escapes(w, argv) && w.lease.Some? && w.setup && w.spawn ==>
                if forall k: nat :: k < w.lifetime ==> !w.cancelled(k) && w.before(k) != Critical
                then e.code == w.exit && (Record().state.Passed? <==> w.exit == 0) && (Record().state.Failed? <==> w.exit != 0)
                else e.code == w.stopped && Record().state.Cancelled?
      ensures e.Returned? && w.lease.Some? ==>
                w.opens && (w.setup ==> w.marks && Spawnable(argv)) && (!w.setup || !w.spawn ==> w.writes)
      ensures old(log) <= log && OneWarning(log[|old(log)|..])
    {
      ghost var delivers := Record().state.Queued? && Undisturbed(w) && !Escapes(w, argv);
      if w.lease.None? {
        e := Withdraw(w);
      } else {
        e := Work(w);
        pool.Release(job, w.lease.value);
      }
      if delivers {
        DeliversOutcome(w, argv, e, Record());
      }
    }
  }
}
