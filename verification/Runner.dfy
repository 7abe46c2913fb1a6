/** The runner as a step machine: every process acts on the job store, the ticket directory,
    the queue lock and the slot files, and any interleaving of the steps below is a run.

    The critical sections under the queue lock are single steps, except the slot scan, which
    is one step per slot, because releases and crashes do not take the queue lock. A command
    that reads a status and acts on it later takes its step at the later moment, whatever the
    status is by then: `transition` checks again. */
module Runner {
  import opened Collections
  import opened TicketNames
  import opened Lifecycle
  import opened Queue
  import opened Slots
  import opened Runs

  /** Where the worker process of a job is. */
  datatype Phase =
    | NotLaunched
    | Launched                                   // before `wait`
    | Waiting                                    // between two polls
    | Scanning(next: nat, acquired: seq<nat>)    // in `_try_slots`, queue lock held
    | Undoing(acquired: seq<nat>)                // giving a partial scan back, queue lock held
    | Granted                                    // lease complete, ticket not yet removed, queue lock held
    | Quitting                                   // left the queue on cancellation
    | Leased                                     // `wait` returned
    | Executing                                  // past the transition to `running`
    | Releasing(code: Option<int>)               // in `finally`; no code when an exception escapes
    | Gone(code: Option<int>)                    // process ended

  datatype State = State(
    capacity: nat,
    specs: map<string, Spec>,
    records: map<string, Record>,
    cancels: set<string>,
    phases: map<string, Phase>,
    queue: seq<Ticket>,
    mutex: Option<string>,
    locks: Locks,
    notes: seq<string>,
    clock: nat,
    observed: set<string>,
    // history variables
    arrivals: seq<string>,
    admitted: seq<string>,
    histories: map<string, seq<JobState>>)

  datatype Step =
    | Create(job: string, spec: Spec)
    | Start(job: string)                          // `_start_job`: preparing to queued
    | Reject(job: string)                         // `_start_job`: disk admission refused after it read `preparing`
    | Launch(job: string)                         // systemd-run succeeded
    | LaunchFail(job: string)                     // systemd-run failed
    | CancelPreparing(job: string)                // `cancel`: after it read `preparing`
    | RequestCancel(job: string)
    | Observe(job: string)                        // reconciliation sees the unit inactive
    | Reconcile(job: string)                      // and later finalizes the record
    | TakeLight(job: string)
    | Enter(job: string, now: nat, dead: set<string>)
    | Withdraw(job: string)                       // cancelled while queued: ticket removed
    | RecordWithdrawal(job: string)
    | Poll(job: string, dead: set<string>)
    | TrySlot(job: string)
    | Undo(job: string)
    | Admit(job: string)
    | SetupFail(job: string)
    | StartRunning(job: string)
    | Finish(job: string, code: int)
    | Interrupt(job: string, code: int)           // cancelled or out of disk while running
    | Escape(job: string)                         // an exception escapes a worker that holds its lease
    | ReleaseOne(job: string, slot: nat)
    | Exit(job: string)
    | Crash(job: string)
    | Snapshot(dead: set<string>)

  function Unit(job: string): string {
    "trie-job-" + job
  }

  function Need(s: State, job: string): nat
    requires job in s.specs
  {
    Permits(s.capacity, s.specs[job].weight)
  }

  predicate Inactive(p: Phase) {
    p.NotLaunched? || p.Gone?
  }

  predicate InCritical(p: Phase) {
    p.Scanning? || p.Undoing? || p.Granted?
  }

  /** Jobs whose inactive unit a staleness check may report. */
  predicate AllInactive(s: State, dead: set<string>) {
    forall d :: d in dead ==> d in s.phases && Inactive(s.phases[d])
  }

  predicate Known(s: State, job: string) {
    job in s.phases && job in s.specs && job in s.records && job in s.histories
  }

  predicate At(s: State, job: string, p: Phase) {
    Known(s, job) && s.phases[job] == p
  }

  predicate CanEnter(s: State, j: string, now: nat, dead: set<string>) {
    && At(s, j, Launched) && !s.specs[j].weight.Light? && s.mutex.None?
    && s.clock <= now < Pow10(WIDTH) && AllInactive(s, dead)
  }

  predicate CanPoll(s: State, j: string, dead: set<string>) {
    At(s, j, Waiting) && s.mutex.None? && AllInactive(s, dead)
  }

  predicate CanTry(s: State, j: string) {
    Known(s, j) && s.phases[j].Scanning? && s.phases[j].next <= |s.locks| == |s.notes|
  }

  predicate CanUndo(s: State, j: string) {
    Known(s, j) && s.phases[j].Undoing? && forall i :: i in s.phases[j].acquired ==> i < |s.locks|
  }

  predicate HoldsLease(s: State, j: string) {
    Known(s, j) && (s.phases[j].Leased? || s.phases[j].Executing?)
  }

  predicate Enabled(s: State, step: Step) {
    match step
    case Create(j, spec) => j !in s.phases
    case Start(j) => Known(s, j)
    case Reject(j) => Known(s, j)
    case Launch(j) => At(s, j, NotLaunched) && "unit" in s.records[j].fields
    case LaunchFail(j) => At(s, j, NotLaunched) && "unit" in s.records[j].fields
    case CancelPreparing(j) => Known(s, j)
    case RequestCancel(j) => Known(s, j)
    case Observe(j) => Known(s, j) && Inactive(s.phases[j])
    case Reconcile(j) => Known(s, j) && j in s.observed && !s.records[j].state.Preparing?
    case TakeLight(j) => At(s, j, Launched) && s.specs[j].weight.Light?
    case Enter(j, now, dead) => CanEnter(s, j, now, dead)
    case Withdraw(j) => At(s, j, Waiting) && j in s.cancels && s.mutex.None?
    case RecordWithdrawal(j) => At(s, j, Quitting)
    case Poll(j, dead) => CanPoll(s, j, dead)
    case TrySlot(j) => CanTry(s, j)
    case Undo(j) => CanUndo(s, j)
    case Admit(j) => At(s, j, Granted)
    case SetupFail(j) => At(s, j, Leased)
    case StartRunning(j) => At(s, j, Leased)
    case Finish(j, code) => At(s, j, Executing)
    case Interrupt(j, code) => At(s, j, Executing)
    case Escape(j) => HoldsLease(s, j)
    case ReleaseOne(j, i) => Known(s, j) && s.phases[j].Releasing? && i < |s.locks| && s.locks[i] == Some(j)
    case Exit(j) => Known(s, j) && s.phases[j].Releasing? && Held(s.locks, j) == {}
    case Crash(j) => Known(s, j) && !Inactive(s.phases[j])
    case Snapshot(dead) => s.mutex.None? && AllInactive(s, dead)
  }

  predicate Movable(s: State, job: string, to: JobState)
    requires Known(s, job)
  {
    Allowed(s.records[job].state, to)
  }

  /** One call of `transition`; a refused call raises and changes nothing. */
  function Move(s: State, job: string, to: JobState, details: Details): State
    requires Known(s, job)
  {
    match Advance(s.records[job], to, details)
    case Failure(_) => s
    case Success(r) => s.(records := s.records[job := r], histories := s.histories[job := s.histories[job] + [to]])
  }

  function Put(s: State, job: string, p: Phase): State {
    s.(phases := s.phases[job := p])
  }

  function ApplyEnter(s: State, j: string, now: nat, dead: set<string>): State
    requires Known(s, j)
  {
    var session := s.specs[j].session;
    var pruned := Prune(s.queue, s.records, dead);
    var others := Supersede(pruned, j, session);
    Put(s, j, Waiting).(
      cancels := s.cancels + Victims(pruned, j, session, s.records, dead),
      queue := Write(others, Ticket(now, j, Need(s, j), session, true)),
      arrivals := if Find(others, j).None? then s.arrivals + [j] else s.arrivals,
      clock := now + 1)
  }

  function ApplyPoll(s: State, j: string, dead: set<string>): State {
    var pruned := Prune(s.queue, s.records, dead);
    if pruned != [] && pruned[0].job == j
    then Put(s, j, Scanning(0, [])).(queue := pruned, mutex := Some(j))
    else s.(queue := pruned)
  }

  function ApplyTrySlot(s: State, j: string): State
    requires CanTry(s, j)
  {
    var Scanning(i, acquired) := s.phases[j];
    if i == |s.locks| then Put(s, j, Undoing(acquired))
    else if s.locks[i].Some? then Put(s, j, Scanning(i + 1, acquired))
    else Put(s, j, if |acquired| + 1 == Need(s, j) then Granted else Scanning(i + 1, acquired + [i])).(
           locks := s.locks[i := Some(j)], notes := s.notes[i := j])
  }

  function ApplyUndo(s: State, j: string): State
    requires CanUndo(s, j)
  {
    var acquired := s.phases[j].acquired;
    if acquired == [] then Put(s, j, Waiting).(mutex := None)
    else
      var n := |acquired| - 1;
      assert acquired[n] in acquired;
      Put(s, j, Undoing(acquired[..n])).(locks := s.locks[acquired[n] := None])
  }

  function ApplyAdmit(s: State, j: string): State {
    Put(s, j, Leased).(queue := Remove(s.queue, j), mutex := None, admitted := s.admitted + [j])
  }

  function ApplySetupFail(s: State, j: string): State
    requires Known(s, j)
  {
    var r := s.records[j];
    if Final(r.state) then Put(s, j, Releasing(Some(if r.exitCode.Some? then r.exitCode.value else 1)))
    else Put(Move(s, j, Failed, ExitWith(1)), j, Releasing(if Movable(s, j, Failed) then Some(1) else None))
  }

  /** A worker transition to a final state followed by `finally`. */
  function Conclude(s: State, j: string, to: JobState, code: int): State
    requires Known(s, j)
  {
    Put(Move(s, j, to, ExitWith(code)), j, Releasing(if Movable(s, j, to) then Some(code) else None))
  }

  /** The kernel unlocks what a process held, whenever it ends. */
  function Crashed(s: State, j: string): State {
    Put(s, j, Gone(None)).(locks := ReleaseAll(s.locks, j), mutex := if s.mutex == Some(j) then None else s.mutex)
  }

  function Apply(s: State, step: Step): State
    requires Enabled(s, step)
  {
    match step
    case Create(j, spec) =>
      Put(s, j, NotLaunched).(specs := s.specs[j := spec], records := s.records[j := NEW_RECORD],
                              histories := s.histories[j := [Preparing]])
    case Start(j) => Move(s, j, Queued, Details(None, map["unit" := Unit(j)]))
    case Reject(j) => Move(s, j, Failed, ExitWith(1))
    case Launch(j) => Put(s, j, Launched)
    case LaunchFail(j) => Put(Move(s, j, Cancelled, NO_DETAILS), j, Gone(None))
    case CancelPreparing(j) => Move(s, j, Cancelled, ExitWith(130))
    case RequestCancel(j) => s.(cancels := s.cancels + {j})
    case Observe(j) => s.(observed := s.observed + {j})
    case Reconcile(j) => Move(s, j, Cancelled, ExitWith(127))
    case TakeLight(j) => Put(s, j, Leased)
    case Enter(j, now, dead) => ApplyEnter(s, j, now, dead)
    case Withdraw(j) => Put(s, j, Quitting).(queue := Remove(s.queue, j))
    case RecordWithdrawal(j) =>
      Put(Move(s, j, Cancelled, ExitWith(130)), j, Gone(if Movable(s, j, Cancelled) then Some(130) else None))
    case Poll(j, dead) => ApplyPoll(s, j, dead)
    case TrySlot(j) => ApplyTrySlot(s, j)
    case Undo(j) => ApplyUndo(s, j)
    case Admit(j) => ApplyAdmit(s, j)
    case SetupFail(j) => ApplySetupFail(s, j)
    case StartRunning(j) =>
      Put(Move(s, j, Running, NO_DETAILS), j, if Movable(s, j, Running) then Executing else Releasing(None))
    case Finish(j, code) => Conclude(s, j, FinishState(code), code)
    case Interrupt(j, code) => Conclude(s, j, Cancelled, code)
    case Escape(j) => Put(s, j, Releasing(None))
    case ReleaseOne(j, i) => s.(locks := s.locks[i := None])
    case Exit(j) => Put(s, j, Gone(s.phases[j].code))
    case Crash(j) => Crashed(s, j)
    case Snapshot(dead) => s.(queue := Prune(s.queue, s.records, dead))
  }

  function Initial(capacity: nat, files: nat): State {
    State(capacity, map[], map[], {}, map[], [], None,
          seq(files, _ => None), seq(files, _ => ""), 0, {}, [], [], map[])
  }

  ghost predicate Next(p: State, step: Step, s: State) {
    Enabled(p, step) && Apply(p, step) == s
  }

  ghost function StartsAs(capacity: nat, files: nat): State -> bool {
    (s: State) => s == Initial(capacity, files)
  }

  /** The state arises in some run of a pool of the given capacity with `files` slot files. */
  ghost predicate Reachable(s: State, capacity: nat, files: nat) {
    Arises(StartsAs(capacity, files), Next, s)
  }

  ghost function Exactly(s: State): State -> bool {
    (t: State) => t == s
  }

  /** Some run continues from `s` to `t`. */
  ghost predicate Continues(s: State, t: State) {
    Arises(Exactly(s), Next, t)
  }

  /** The job store holds what the state says. */
  ghost predicate ShowsStore(store: JobStore, s: State)
    reads store
  {
    store.specs == s.specs && store.records == s.records && store.cancels == s.cancels
  }

  // ---------------------------------------------------------------- what a step leaves alone

  lemma MoveFrame(s: State, j: string, to: JobState, details: Details)
    requires Known(s, j)
    ensures var t := Move(s, j, to, details);
            t.records.Keys == s.records.Keys && t.histories.Keys == s.histories.Keys
            && t == s.(records := t.records, histories := t.histories)
  {
    var t := Move(s, j, to, details);
    assert t.records.Keys == s.records.Keys;
    assert t.histories.Keys == s.histories.Keys;
  }

  /** Steps that change one record, and perhaps the phase of its worker, and nothing else. */
  predicate MovesRecord(step: Step) {
    || step.Start? || step.Reject? || step.CancelPreparing? || step.Reconcile? || step.LaunchFail? || step.RecordWithdrawal?
    || step.StartRunning? || step.SetupFail? || step.Finish? || step.Interrupt?
  }

  lemma MovesRecordFrame(s: State, step: Step)
    requires Enabled(s, step) && MovesRecord(step)
    ensures var t := Apply(s, step);
            && t == s.(records := t.records, histories := t.histories, phases := t.phases)
            && t.records.Keys == s.records.Keys && t.phases.Keys == s.phases.Keys
            && forall k :: k in s.phases && k != step.job ==> t.phases[k] == s.phases[k]
  {
    var t := Apply(s, step);
    assert t == s.(records := t.records, histories := t.histories, phases := t.phases);
    assert t.records.Keys == s.records.Keys && t.phases.Keys == s.phases.Keys;
  }

  lemma TrySlotFrame(s: State, j: string)
    requires CanTry(s, j)
    ensures var t := ApplyTrySlot(s, j);
            InCritical(t.phases[j]) && t == s.(phases := s.phases[j := t.phases[j]], locks := t.locks, notes := t.notes)
  {
  }

  lemma UndoFrame(s: State, j: string)
    requires CanUndo(s, j)
    ensures var t := ApplyUndo(s, j);
            && (InCritical(t.phases[j]) || t.phases[j].Waiting?) && (t.mutex == s.mutex || t.mutex == None)
            && t == s.(phases := s.phases[j := t.phases[j]], locks := t.locks, mutex := t.mutex)
  {
  }
}
