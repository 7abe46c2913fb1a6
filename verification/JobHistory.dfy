/** The job lifecycle over every interleaving of start, cancel, reconciliation and worker. */
module JobHistory {
  import opened Collections
  import opened Lifecycle
  import opened Queue
  import opened Slots
  import opened Runs
  import opened Runner
  import Permits

  /** The exit codes with which a job comes to a state: zero when it passed; another one when its command
      failed, 1 when it was rejected or its setup failed; 130 when it was cancelled before it was queued,
      130, 127 or none before it ran, and any code afterwards. */
  predicate CodeFits(from: JobState, to: JobState, code: Option<int>) {
    match to
    case Passed => code == Some(0)
    case Failed => if from.Running? then code.Some? && code.value != 0 else code == Some(1)
    case Cancelled =>
      if from.Preparing? then code == Some(130)
      else if from.Queued? then code == None || code == Some(130) || code == Some(127)
      else code.Some?
    case _ => code == None
  }

  /** How a record fits the history of its job. */
  ghost predicate RecordOk(r: Record, h: seq<JobState>, unit: string) {
    && Path(h) && h[|h| - 1] == r.state
    && (if |h| == 1 then r.exitCode == None else CodeFits(h[|h| - 2], r.state, r.exitCode))
    && (Queued in h <==> "unit" in r.fields)
    && ("unit" in r.fields ==> r.fields["unit"] == unit)
  }

  /** How a record fits the phase of the job's worker. */
  predicate PhaseOk(r: Record, p: Phase) {
    match p
    case NotLaunched => r.state != Running && !r.state.Passed? && ("unit" in r.fields ==> !r.state.Preparing?)
    case Executing => (r.state == Running || GivenUp(r.state)) && ("unit" in r.fields)
    case Releasing(code) => Returnable(r, code)
    case Gone(code) => Returnable(r, code)
    case _ => (r.state.Queued? || GivenUp(r.state)) && ("unit" in r.fields)
  }

  /** A worker with a code to return leaves a final record with that code, if one is recorded;
      a worker without one, from which an exception escaped, may leave any record. */
  predicate Returnable(r: Record, code: Option<int>) {
    (code.Some? ==> Final(r.state) && (r.exitCode.Some? ==> code == r.exitCode)) && ("unit" in r.fields)
  }

  lemma FreshPath(r: Record, h: seq<JobState>, unit: string)
    requires RecordOk(r, h, unit) && r.state.Preparing?
    ensures h == [Preparing] && "unit" !in r.fields
  {
    assert |h| > 1 ==> Allowed(h[|h| - 2], h[|h| - 1]);
    assert h == [h[0]];
  }

  ghost predicate JobOk(s: State, j: string) {
    Known(s, j) && RecordOk(s.records[j], s.histories[j], Unit(j)) && PhaseOk(s.records[j], s.phases[j])
  }

  ghost predicate HistoryInv(s: State) {
    s.records.Keys == s.phases.Keys && forall j :: j in s.phases ==> JobOk(s, j)
  }

  lemma PathExtend(h: seq<JobState>, to: JobState)
    requires Path(h) && Allowed(h[|h| - 1], to)
    ensures Path(h + [to])
  {
  }

  /** What a transition may record: a job queues with its unit, and comes to its state with a fitting code. */
  predicate GoodDetails(from: JobState, to: JobState, details: Details, unit: string) {
    CodeFits(from, to, details.exitCode) && details.fields == if to.Queued? then map["unit" := unit] else map[]
  }

  lemma RecordMoves(r: Record, h: seq<JobState>, unit: string, to: JobState, details: Details)
    requires RecordOk(r, h, unit) && Allowed(r.state, to) && GoodDetails(r.state, to, details, unit)
    ensures RecordOk(Advance(r, to, details).value, h + [to], unit)
    ensures forall f :: f in r.fields ==> f in Advance(r, to, details).value.fields
  {
    PathExtend(h, to);
    var g := h + [to];
    assert g[|g| - 1] == to;
    assert Queued in g <==> Queued in h || to == Queued;
  }

  lemma OthersKept(s: State, t: State, j: string)
    requires HistoryInv(s) && j in s.phases && t.phases.Keys == s.phases.Keys && t.records.Keys == s.records.Keys
    requires t.specs == s.specs && t.histories.Keys == s.histories.Keys
    requires forall k :: k in s.phases && k != j ==>
               t.phases[k] == s.phases[k] && t.records[k] == s.records[k] && k in s.histories && t.histories[k] == s.histories[k]
    requires JobOk(t, j)
    ensures HistoryInv(t)
  {
    forall k | k in t.phases
      ensures JobOk(t, k)
    {
      assert JobOk(s, k) && (k != j ==> Known(s, k));
    }
  }

  /** One call of `transition` together with the phase change that follows it. */
  lemma MoveAndPut(s: State, j: string, to: JobState, details: Details, p: Phase)
    requires HistoryInv(s) && Known(s, j) && (Movable(s, j, to) ==> GoodDetails(s.records[j].state, to, details, Unit(j)))
    requires Movable(s, j, to) ==> PhaseOk(Advance(s.records[j], to, details).value, p)
    requires !Movable(s, j, to) ==> PhaseOk(s.records[j], p)
    ensures HistoryInv(Put(Move(s, j, to, details), j, p))
  {
    var t := Put(Move(s, j, to, details), j, p);
    assert JobOk(s, j);
    if Movable(s, j, to) {
      RecordMoves(s.records[j], s.histories[j], Unit(j), to, details);
    }
    AllKnown(s);
    MoveFrame(s, j, to, details);
    MoveElsewhere(s, j, to, details);
    OthersKept(s, t, j);
  }

  lemma AllKnown(s: State)
    requires HistoryInv(s)
    ensures forall k :: k in s.phases ==> Known(s, k)
  {
    forall k | k in s.phases
      ensures Known(s, k)
    {
      assert JobOk(s, k);
    }
  }

  lemma MoveElsewhere(s: State, j: string, to: JobState, details: Details)
    requires Known(s, j)
    ensures var t := Move(s, j, to, details);
            forall k :: k != j && Known(s, k) ==> Known(t, k) && t.records[k] == s.records[k] && t.histories[k] == s.histories[k]
  {
  }

  lemma MoveOnly(s: State, j: string, to: JobState, details: Details)
    requires HistoryInv(s) && Known(s, j) && (Movable(s, j, to) ==> GoodDetails(s.records[j].state, to, details, Unit(j)))
    requires Movable(s, j, to) ==> PhaseOk(Advance(s.records[j], to, details).value, s.phases[j])
    ensures HistoryInv(Move(s, j, to, details))
  {
    assert JobOk(s, j);
    MoveAndPut(s, j, to, details, s.phases[j]);
    var t := Move(s, j, to, details);
    assert t.phases[j := s.phases[j]] == t.phases;
    assert Put(t, j, s.phases[j]) == t;
  }

  lemma PutOnly(s: State, t: State, j: string)
    requires HistoryInv(s) && Known(s, j) && t.specs == s.specs && t.records == s.records && t.histories == s.histories
    requires j in t.phases && t.phases == s.phases[j := t.phases[j]] && PhaseOk(s.records[j], t.phases[j])
    ensures HistoryInv(t)
  {
    assert JobOk(s, j);
    forall k | k in s.phases
      ensures Known(s, k)
    {
      assert JobOk(s, k);
    }
    OthersKept(s, t, j);
  }

  lemma Untouched(s: State, t: State)
    requires HistoryInv(s) && t.specs == s.specs && t.records == s.records && t.histories == s.histories && t.phases == s.phases
    ensures HistoryInv(t)
  {
    forall k | k in t.phases
      ensures JobOk(t, k)
    {
      assert JobOk(s, k);
    }
  }

  lemma CreateKept(s: State, j: string, spec: Spec)
    requires HistoryInv(s) && Enabled(s, Create(j, spec))
    ensures HistoryInv(Apply(s, Create(j, spec)))
  {
    var t := Apply(s, Create(j, spec));
    forall k | k in t.phases
      ensures JobOk(t, k)
    {
      if k != j {
        assert JobOk(s, k);
      }
    }
  }

  lemma ConcludeKept(s: State, j: string, to: JobState, code: int)
    requires HistoryInv(s) && Known(s, j) && s.phases[j].Executing? && (to == Cancelled || to == FinishState(code))
    ensures HistoryInv(Conclude(s, j, to, code))
  {
    assert JobOk(s, j);
    MoveAndPut(s, j, to, ExitWith(code), Releasing(if Movable(s, j, to) then Some(code) else None));
  }

  lemma SetupKept(s: State, j: string)
    requires HistoryInv(s) && Known(s, j) && s.phases[j].Leased?
    ensures HistoryInv(ApplySetupFail(s, j))
  {
    assert JobOk(s, j);
    if Final(s.records[j].state) {
      PutOnly(s, ApplySetupFail(s, j), j);
    } else {
      MoveAndPut(s, j, Failed, ExitWith(1), Releasing(Some(1)));
    }
  }

  predicate ActorStep(step: Step) {
    step.Start? || step.Reject? || step.CancelPreparing? || step.Reconcile? || step.LaunchFail?
    || step.RecordWithdrawal? || step.StartRunning?
  }

  lemma StartKept(s: State, j: string)
    requires HistoryInv(s) && Known(s, j)
    ensures HistoryInv(Move(s, j, Queued, Details(None, map["unit" := Unit(j)])))
  {
    assert JobOk(s, j);
    if s.records[j].state.Preparing? {
      FreshPath(s.records[j], s.histories[j], Unit(j));
    }
    MoveOnly(s, j, Queued, Details(None, map["unit" := Unit(j)]));
  }

  /** Another process may give the job up whatever its worker is doing. */
  lemma GiveUpKept(s: State, j: string, to: JobState, details: Details)
    requires HistoryInv(s) && Known(s, j) && GivenUp(to) && (Movable(s, j, to) ==> GoodDetails(s.records[j].state, to, details, Unit(j)))
    ensures HistoryInv(Move(s, j, to, details))
  {
    assert JobOk(s, j);
    if s.records[j].state.Preparing? {
      FreshPath(s.records[j], s.histories[j], Unit(j));
    }
    MoveOnly(s, j, to, details);
  }

  lemma WithdrawalKept(s: State, j: string)
    requires HistoryInv(s) && At(s, j, Quitting)
    ensures HistoryInv(Put(Move(s, j, Cancelled, ExitWith(130)), j, Gone(if Movable(s, j, Cancelled) then Some(130) else None)))
  {
    assert JobOk(s, j);
    MoveAndPut(s, j, Cancelled, ExitWith(130), Gone(if Movable(s, j, Cancelled) then Some(130) else None));
  }

  lemma RunningKept(s: State, j: string)
    requires HistoryInv(s) && At(s, j, Leased)
    ensures HistoryInv(Put(Move(s, j, Running, NO_DETAILS), j, if Movable(s, j, Running) then Executing else Releasing(None)))
  {
    assert JobOk(s, j);
    MoveAndPut(s, j, Running, NO_DETAILS, if Movable(s, j, Running) then Executing else Releasing(None));
  }

  lemma LaunchFailKept(s: State, j: string)
    requires HistoryInv(s) && At(s, j, NotLaunched) && "unit" in s.records[j].fields
    ensures HistoryInv(Put(Move(s, j, Cancelled, NO_DETAILS), j, Gone(None)))
  {
    assert JobOk(s, j);
    MoveAndPut(s, j, Cancelled, NO_DETAILS, Gone(None));
  }

  lemma ActorStepKept(s: State, step: Step)
    requires HistoryInv(s) && Enabled(s, step) && ActorStep(step)
    ensures HistoryInv(Apply(s, step))
  {
    match step
    case Start(j) => StartKept(s, j);
    case Reject(j) => GiveUpKept(s, j, Failed, ExitWith(1));
    case CancelPreparing(j) => GiveUpKept(s, j, Cancelled, ExitWith(130));
    case Reconcile(j) => GiveUpKept(s, j, Cancelled, ExitWith(127));
    case LaunchFail(j) => LaunchFailKept(s, j);
    case RecordWithdrawal(j) => WithdrawalKept(s, j);
    case StartRunning(j) => RunningKept(s, j);
  }

  predicate QuietStep(step: Step) {
    step.RequestCancel? || step.Observe? || step.Snapshot? || step.ReleaseOne?
  }

  lemma QuietStepKept(s: State, step: Step)
    requires HistoryInv(s) && Enabled(s, step) && QuietStep(step)
    ensures HistoryInv(Apply(s, step))
  {
    Untouched(s, Apply(s, step));
  }

  predicate WorkerStep(step: Step) {
    step.Launch? || step.TakeLight? || step.Withdraw? || step.Admit? || step.Exit?
  }

  lemma WorkerStepKept(s: State, step: Step)
    requires HistoryInv(s) && Enabled(s, step) && WorkerStep(step)
    ensures HistoryInv(Apply(s, step))
  {
    assert JobOk(s, step.job);
    if step.Withdraw? || step.Admit? {
      TicketStepKept(s, step);
    } else {
      PutOnly(s, Apply(s, step), step.job);
    }
  }

  lemma TicketStepKept(s: State, step: Step)
    requires HistoryInv(s) && Enabled(s, step) && (step.Withdraw? || step.Admit?)
    ensures HistoryInv(Apply(s, step))
  {
    assert JobOk(s, step.job);
    PutOnly(s, Apply(s, step), step.job);
  }

  lemma EnterKept(s: State, j: string, now: nat, dead: set<string>)
    requires HistoryInv(s) && CanEnter(s, j, now, dead)
    ensures HistoryInv(ApplyEnter(s, j, now, dead))
  {
    assert JobOk(s, j);
    PutOnly(s, ApplyEnter(s, j, now, dead), j);
  }

  lemma EscapeKept(s: State, j: string)
    requires HistoryInv(s) && HoldsLease(s, j)
    ensures HistoryInv(Put(s, j, Releasing(None)))
  {
    assert JobOk(s, j);
    PutOnly(s, Put(s, j, Releasing(None)), j);
  }

  lemma CrashKept(s: State, j: string)
    requires HistoryInv(s) && Enabled(s, Crash(j))
    ensures HistoryInv(Apply(s, Crash(j)))
  {
    assert JobOk(s, j);
    PutOnly(s, Apply(s, Crash(j)), j);
  }

  lemma PollKept(s: State, j: string, dead: set<string>)
    requires HistoryInv(s) && CanPoll(s, j, dead)
    ensures HistoryInv(ApplyPoll(s, j, dead))
  {
    assert JobOk(s, j);
    var t := ApplyPoll(s, j, dead);
    if t.phases == s.phases {
      Untouched(s, t);
    } else {
      PutOnly(s, t, j);
    }
  }

  lemma ScanKept(s: State, j: string, t: State)
    requires HistoryInv(s) && Known(s, j) && InCritical(s.phases[j])
    requires j in t.phases && (InCritical(t.phases[j]) || t.phases[j].Waiting?)
    requires t == s.(phases := s.phases[j := t.phases[j]], locks := t.locks, notes := t.notes, mutex := t.mutex)
    ensures HistoryInv(t)
  {
    assert JobOk(s, j);
    PutOnly(s, t, j);
  }

  lemma HistoryStep(s: State, step: Step)
    requires HistoryInv(s) && Enabled(s, step)
    ensures HistoryInv(Apply(s, step))
  {
    if ActorStep(step) {
      ActorStepKept(s, step);
    } else if QuietStep(step) {
      QuietStepKept(s, step);
    } else if WorkerStep(step) {
      WorkerStepKept(s, step);
    } else {
      match step
      case Create(j, spec) => CreateKept(s, j, spec);
      case Enter(j, now, dead) => EnterKept(s, j, now, dead);
      case Escape(j) => EscapeKept(s, j);
      case Crash(j) => CrashKept(s, j);
      case Poll(j, dead) => PollKept(s, j, dead);
      case TrySlot(j) =>
        TrySlotFrame(s, j);
        ScanKept(s, j, ApplyTrySlot(s, j));
      case Undo(j) =>
        UndoFrame(s, j);
        ScanKept(s, j, ApplyUndo(s, j));
      case SetupFail(j) => SetupKept(s, j);
      case Finish(j, code) => ConcludeKept(s, j, FinishState(code), code);
      case Interrupt(j, code) => ConcludeKept(s, j, Cancelled, code);
    }
  }

  lemma HistoryReachable(s: State, capacity: nat, files: nat)
    requires Reachable(s, capacity, files)
    ensures HistoryInv(s)
  {
    forall p, step, q | Next(p, step, q) && HistoryInv(p)
      ensures HistoryInv(q)
    {
      HistoryStep(p, step);
    }
    ArisesInvariant(StartsAs(capacity, files), Next, HistoryInv, s);
  }

  // ---------------------------------------------------------------- main results

  /** In every interleaving a job makes at most three transitions and stops at its first final
      state; success means exactly queued, running, exit code zero; failure means another code;
      and the unit recorded when the job was queued is never lost or changed. */
  lemma LifecycleOverRuns(s: State, capacity: nat, files: nat, j: string)
    requires Reachable(s, capacity, files) && j in s.records
    ensures j in s.histories && |s.histories[j]| <= 4
    ensures forall i :: 0 <= i < |s.histories[j]| - 1 ==> !Final(s.histories[j][i])
    ensures s.records[j].state.Passed? ==> s.histories[j] == [Preparing, Queued, Running, Passed] && s.records[j].exitCode == Some(0)
    ensures s.records[j].state.Failed? ==> s.records[j].exitCode.Some? && s.records[j].exitCode.value != 0
    ensures Queued in s.histories[j] ==> "unit" in s.records[j].fields && s.records[j].fields["unit"] == Unit(j)
  {
    HistoryReachable(s, capacity, files);
    assert JobOk(s, j);
    PathShape(s.histories[j]);
  }

  lemma MoveAbsorbs(s: State, k: string, to: JobState, details: Details, j: string)
    requires Known(s, k) && j in s.records && Final(s.records[j].state)
    ensures j in Move(s, k, to, details).records && Move(s, k, to, details).records[j] == s.records[j]
  {
  }

  predicate RecordStep(step: Step) {
    ActorStep(step) || step.Create? || step.SetupFail? || step.Finish? || step.Interrupt?
  }

  lemma RecordsKept(s: State, step: Step)
    requires Enabled(s, step) && !RecordStep(step)
    ensures Apply(s, step).records == s.records
  {
    if step.TrySlot? {
      TrySlotFrame(s, step.job);
    } else if step.Undo? {
      UndoFrame(s, step.job);
    } else if step.Enter? || step.Poll? {
      QueueKeepsRecords(s, step);
    } else {
    }
  }

  lemma QueueKeepsRecords(s: State, step: Step)
    requires Enabled(s, step) && (step.Enter? || step.Poll?)
    ensures Apply(s, step).records == s.records
  {
  }

  /** A final record is never changed again by any process. */
  lemma FinalAbsorbs(s: State, step: Step, j: string)
    requires Enabled(s, step) && s.records.Keys == s.phases.Keys && j in s.records && Final(s.records[j].state)
    ensures j in Apply(s, step).records && Apply(s, step).records[j] == s.records[j]
  {
    if !RecordStep(step) {
      RecordsKept(s, step);
    } else {
      match step
      case Create(k, spec) =>
      case Start(k) => MoveAbsorbs(s, k, Queued, Details(None, map["unit" := Unit(k)]), j);
      case Reject(k) => MoveAbsorbs(s, k, Failed, ExitWith(1), j);
      case CancelPreparing(k) => MoveAbsorbs(s, k, Cancelled, ExitWith(130), j);
      case Reconcile(k) => MoveAbsorbs(s, k, Cancelled, ExitWith(127), j);
      case LaunchFail(k) => MoveAbsorbs(s, k, Cancelled, NO_DETAILS, j);
      case RecordWithdrawal(k) => MoveAbsorbs(s, k, Cancelled, ExitWith(130), j);
      case StartRunning(k) => MoveAbsorbs(s, k, Running, NO_DETAILS, j);
      case SetupFail(k) => MoveAbsorbs(s, k, Failed, ExitWith(1), j);
      case Finish(k, code) => MoveAbsorbs(s, k, FinishState(code), ExitWith(code), j);
      case Interrupt(k, code) => MoveAbsorbs(s, k, Cancelled, ExitWith(code), j);
    }
  }

  // ---------------------------------------------------------------- abandoned jobs

  /** The worker has ended, and its job is still running on record or was given up. */
  predicate Abandoned(s: State, j: string) {
    Known(s, j) && s.phases[j].Gone? && (s.records[j].state == Running || GivenUp(s.records[j].state))
  }

  lemma EndedStays(s: State, step: Step, j: string)
    requires Enabled(s, step) && j in s.phases && s.phases[j].Gone?
    ensures j in Apply(s, step).phases && Apply(s, step).phases[j] == s.phases[j]
  {
    if MovesRecord(step) {
      MovesRecordFrame(s, step);
      if step.job == j {
        EndedRecord(s, step);
      }
    } else if step.TrySlot? {
      TrySlotFrame(s, step.job);
    } else if step.Undo? {
      UndoFrame(s, step.job);
    } else {
      EndedElsewhere(s, step, j);
    }
  }

  lemma EndedRecord(s: State, step: Step)
    requires Enabled(s, step) && MovesRecord(step) && step.job in s.phases && s.phases[step.job].Gone?
    ensures Apply(s, step).phases[step.job] == s.phases[step.job]
  {
  }

  lemma EndedElsewhere(s: State, step: Step, j: string)
    requires Enabled(s, step) && !MovesRecord(step) && !step.TrySlot? && !step.Undo? && j in s.phases && s.phases[j].Gone?
    ensures j in Apply(s, step).phases && Apply(s, step).phases[j] == s.phases[j]
  {
  }

  lemma MoveLeavesRunning(s: State, k: string, to: JobState, details: Details, j: string)
    requires Known(s, k) && j in s.records && s.records[j].state == Running && (k == j ==> GivenUp(to) || to.Queued?)
    ensures j in Move(s, k, to, details).records
    ensures var r := Move(s, k, to, details).records[j]; r.state == Running || GivenUp(r.state)
  {
  }

  lemma RunningLeft(s: State, step: Step, j: string)
    requires Enabled(s, step) && RecordStep(step) && Known(s, j) && s.phases[j].Gone? && s.records[j].state == Running
    ensures j in Apply(s, step).records
    ensures var r := Apply(s, step).records[j]; r.state == Running || GivenUp(r.state)
  {
    match step
    case Create(k, spec) =>
    case Start(k) => MoveLeavesRunning(s, k, Queued, Details(None, map["unit" := Unit(k)]), j);
    case Reject(k) => MoveLeavesRunning(s, k, Failed, ExitWith(1), j);
    case CancelPreparing(k) => MoveLeavesRunning(s, k, Cancelled, ExitWith(130), j);
    case Reconcile(k) => MoveLeavesRunning(s, k, Cancelled, ExitWith(127), j);
    case LaunchFail(k) => MoveLeavesRunning(s, k, Cancelled, NO_DETAILS, j);
    case RecordWithdrawal(k) => MoveLeavesRunning(s, k, Cancelled, ExitWith(130), j);
    case StartRunning(k) => MoveLeavesRunning(s, k, Running, NO_DETAILS, j);
    case SetupFail(k) => MoveLeavesRunning(s, k, Failed, ExitWith(1), j);
    case Finish(k, code) => MoveLeavesRunning(s, k, FinishState(code), ExitWith(code), j);
    case Interrupt(k, code) => MoveLeavesRunning(s, k, Cancelled, ExitWith(code), j);
  }

  lemma AbandonedStep(s: State, step: Step, j: string)
    requires HistoryInv(s) && Enabled(s, step) && Abandoned(s, j)
    ensures Abandoned(Apply(s, step), j)
  {
    EndedStays(s, step, j);
    HistoryStep(s, step);
    assert JobOk(Apply(s, step), j);
    if Final(s.records[j].state) {
      FinalAbsorbs(s, step, j);
    } else if RecordStep(step) {
      RunningLeft(s, step, j);
    } else {
      RecordsKept(s, step);
    }
  }

  ghost function AbandonedFrom(j: string): State -> bool {
    (s: State) => HistoryInv(s) && Abandoned(s, j)
  }

  /** A job whose worker has ended while it was running on record never passes: over every
      continuation it stays as it is until another process gives it up. */
  lemma AbandonedNeverPasses(s: State, t: State, capacity: nat, files: nat, j: string)
    requires Reachable(s, capacity, files) && Abandoned(s, j) && Continues(s, t)
    ensures Abandoned(t, j) && !t.records[j].state.Passed?
  {
    HistoryReachable(s, capacity, files);
    forall p, step, q | Next(p, step, q) && AbandonedFrom(j)(p)
      ensures AbandonedFrom(j)(q)
    {
      HistoryStep(p, step);
      AbandonedStep(p, step, j);
    }
    ArisesInvariant(Exactly(s), Next, AbandonedFrom(j), t);
  }

  // ---------------------------------------------------------------- outcomes

  /** When a worker has returned, its job is final, its lease is empty and the code it returned
      is the recorded exit code, if one is recorded. */
  lemma WorkerReturn(s: State, capacity: nat, files: nat, j: string, code: int)
    requires 1 <= capacity <= files && Reachable(s, capacity, files)
    requires j in s.phases && s.phases[j] == Gone(Some(code))
    ensures j in s.records && Final(s.records[j].state) && Held(s.locks, j) == {}
    ensures s.records[j].exitCode.Some? ==> s.records[j].exitCode.value == code
  {
    HistoryReachable(s, capacity, files);
    Permits.PermitsReachable(s, capacity, files);
    assert JobOk(s, j);
    assert Permits.LeaseOk(s.phases[j], j, Need(s, j), s.mutex, s.locks);
  }

  /** Over every run the recorded exit code follows from what the job went through. */
  lemma ExitCodesOverRuns(s: State, capacity: nat, files: nat, j: string)
    requires Reachable(s, capacity, files) && j in s.records
    ensures j in s.histories
    ensures var h, code := s.histories[j], s.records[j].exitCode;
            && (s.records[j].state.Passed? ==> code == Some(0))
            && (h == [Preparing, Queued, Running, Failed] ==> code.Some? && code.value != 0)
            && (h == [Preparing, Queued, Failed] || h == [Preparing, Failed] ==> code == Some(1))
            && (h == [Preparing, Cancelled] ==> code == Some(130))
            && (h == [Preparing, Queued, Cancelled] ==> code == None || code == Some(130) || code == Some(127))
            && (h == [Preparing, Queued, Running, Cancelled] ==> code.Some?)
            && (!Final(s.records[j].state) ==> code == None)
  {
    HistoryReachable(s, capacity, files);
    assert JobOk(s, j);
    PathShape(s.histories[j]);
  }

  /** What the commands of other processes do to a job, whatever its worker is doing: giving it up
      succeeds while it is open, each with its code, and changes nothing once the job is final. */
  lemma GivingUpSucceeds(s: State, j: string)
    requires Known(s, j)
    ensures var r := s.records[j];
            && Apply(s, CancelPreparing(j)).records[j] == (if Final(r.state) then r else Record(Cancelled, Some(130), r.fields))
            && Apply(s, Reject(j)).records[j] == (if Final(r.state) then r else Record(Failed, Some(1), r.fields))
    ensures j in s.observed && !s.records[j].state.Preparing? ==>
              var r := s.records[j];
              Apply(s, Reconcile(j)).records[j] == if Final(r.state) then r else Record(Cancelled, Some(127), r.fields)
  {
    assert s.records[j].fields + map[] == s.records[j].fields;
  }

  /** Starting a job succeeds exactly while it is preparing, and records its unit; when systemd cannot
      launch it after all, it is cancelled without a code. */
  lemma StartSucceeds(s: State, j: string)
    requires Known(s, j)
    ensures var r := s.records[j];
            Apply(s, Start(j)).records[j] == if r.state.Preparing? then Record(Queued, r.exitCode, r.fields["unit" := Unit(j)]) else r
    ensures At(s, j, NotLaunched) && "unit" in s.records[j].fields ==>
              var r := s.records[j];
              Apply(s, LaunchFail(j)).records[j] == if Final(r.state) then r else Record(Cancelled, r.exitCode, r.fields)
  {
    var r := s.records[j];
    assert r.fields + map[] == r.fields;
    assert r.fields + map["unit" := Unit(j)] == r.fields["unit" := Unit(j)];
  }

  lemma FinalCode(r: Record, h: seq<JobState>, unit: string)
    requires RecordOk(r, h, unit) && Final(r.state)
    ensures r.exitCode.Some? ==> (r.state.Passed? ==> r.exitCode.value == 0) && (r.state.Failed? ==> r.exitCode.value != 0)
    ensures r.exitCode.None? ==> r.state.Cancelled?
  {
    assert |h| > 1 && Allowed(h[|h| - 2], h[|h| - 1]);
  }

  /** `execute` reports the recorded exit code of a final job: zero for a passed one, another one for a
      failed one, and 1 for one that was cancelled without a code. */
  lemma ExecuteReportsOutcome(s: State, capacity: nat, files: nat, j: string)
    requires Reachable(s, capacity, files) && j in s.records && Final(s.records[j].state)
    ensures s.records[j].exitCode.Some? ==> ExecuteCode(s.records[j]) == s.records[j].exitCode.value
    ensures s.records[j].exitCode.None? ==> s.records[j].state.Cancelled? && ExecuteCode(s.records[j]) == 1
    ensures ExecuteCode(s.records[j]) == 0 && !s.records[j].state.Cancelled? <==> s.records[j].state.Passed?
  {
    HistoryReachable(s, capacity, files);
    assert JobOk(s, j);
    FinalCode(s.records[j], s.histories[j], Unit(j));
  }
}
