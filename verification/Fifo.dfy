/** FIFO admission: the ticket queue over whole runs. */
module Fifo {
  import opened Collections
  import opened TicketNames
  import opened Lifecycle
  import opened Queue
  import opened Slots
  import opened Runs
  import opened Runner
  import opened Permits

  /** What any two tickets of the queue have in common: the earlier one is older, and they
      belong to different jobs and, if identified, to different sessions. */
  predicate Before(t: Ticket, u: Ticket) {
    t.time < u.time && t.job != u.job && (t.session.Some? ==> t.session != u.session)
  }

  ghost predicate Ordered(q: seq<Ticket>) {
    forall i, j :: 0 <= i < j < |q| ==> Before(q[i], q[j])
  }

  /** Phases in which a worker's ticket can be in the queue. */
  predicate TicketPhase(p: Phase) {
    p.Waiting? || InCritical(p) || p.Quitting? || p.Gone?
  }

  predicate Entered(p: Phase) {
    !p.NotLaunched? && !p.Launched?
  }

  ghost predicate TicketOk(s: State, t: Ticket) {
    && t.intact && t.time < s.clock && Known(s, t.job) && TicketPhase(s.phases[t.job])
    && !s.specs[t.job].weight.Light? && t.permits == Need(s, t.job) && t.session == s.specs[t.job].session
  }

  ghost predicate QueueInv(s: State) {
    && s.clock <= Pow10(WIDTH)
    && Ordered(s.queue)
    && (forall t :: t in s.queue ==> TicketOk(s, t))
    && (s.mutex.Some? ==> s.queue != [] && s.queue[0].job == s.mutex.value)
    && Subsequence(s.admitted + Owners(s.queue), s.arrivals)
    && NoDuplicates(s.arrivals)
    && forall a :: a in s.arrivals ==> a in s.phases && Entered(s.phases[a])
  }

  // ---------------------------------------------------------------- parts of a queue

  lemma RemoveSubsequence(q: seq<Ticket>, job: string)
    ensures Subsequence(Remove(q, job), q)
  {
    var found := Find(q, job);
    if found.Some? {
      var i := found.value;
      SubsequenceRefl(q[i + 1..]);
      SubsequenceLater(q[i + 1..], q[i + 1..], q[i]);
      assert [q[i]] + q[i + 1..] == q[i..];
      SubsequencePrefix(q[..i], q[i + 1..], q[i..]);
      assert q[..i] + q[i..] == q;
    } else {
      SubsequenceRefl(q);
    }
  }

  lemma {:induction false} OwnersSubsequence(a: seq<Ticket>, b: seq<Ticket>)
    requires Subsequence(a, b)
    ensures Subsequence(Owners(a), Owners(b))
  {
    var x, y := Owners(a), Owners(b);
    if a == [] {
      assert x == [];
      assert Subsequence(x, y);
    } else {
      assert y[1..] == Owners(b[1..]) && y == [y[0]] + y[1..];
      if a[0] == b[0] {
        OwnersSubsequence(a[1..], b[1..]);
        assert x[1..] == Owners(a[1..]);
        assert x[0] == y[0] && Subsequence(x[1..], y[1..]);
        assert Subsequence(x, y);
      } else {
        OwnersSubsequence(a, b[1..]);
        SubsequenceLater(x, y[1..], y[0]);
        assert Subsequence(x, y);
      }
    }
  }

  lemma {:induction false} OrderedPart(a: seq<Ticket>, b: seq<Ticket>)
    requires Subsequence(a, b) && Ordered(b)
    ensures Ordered(a) && forall t :: t in a ==> t in b
  {
    if a != [] {
      if a[0] == b[0] {
        OrderedPart(a[1..], b[1..]);
        assert forall t :: t in a[1..] ==> Before(a[0], t);
        assert forall t :: t in a ==> t == a[0] || t in a[1..];
        assert Ordered(a);
      } else {
        OrderedPart(a, b[1..]);
      }
    }
  }

  /** The queue may lose tickets without harming what holds of it. */
  lemma ShrinkFacts(s: State, q: seq<Ticket>)
    requires QueueInv(s) && Subsequence(q, s.queue)
    ensures Ordered(q) && (forall t :: t in q ==> t in s.queue)
    ensures Subsequence(s.admitted + Owners(q), s.arrivals)
  {
    OrderedPart(q, s.queue);
    OwnersSubsequence(q, s.queue);
    SubsequencePrefix(s.admitted, Owners(q), Owners(s.queue));
    SubsequenceTransitive(s.admitted + Owners(q), s.admitted + Owners(s.queue), s.arrivals);
  }

  // ---------------------------------------------------------------- the invariant is kept

  /** No worker loses its standing: jobs stay known, ticket owners stay ticket owners. */
  ghost predicate StandingKept(s: State, t: State) {
    && t.capacity == s.capacity && t.clock == s.clock
    && t.arrivals == s.arrivals
    && forall k :: k in s.phases ==>
         && k in t.phases
         && (Known(s, k) ==> Known(t, k) && t.specs[k] == s.specs[k])
         && (Entered(s.phases[k]) ==> Entered(t.phases[k]))
  }

  lemma QueueShrinks(s: State, t: State)
    requires QueueInv(s) && StandingKept(s, t) && t.admitted == s.admitted
    requires Subsequence(t.queue, s.queue)
    requires forall u :: u in t.queue && u in s.queue && u.job in s.phases && u.job in t.phases ==>
               TicketPhase(s.phases[u.job]) ==> TicketPhase(t.phases[u.job])
    requires t.mutex.Some? ==> t.queue != [] && t.queue[0].job == t.mutex.value
    ensures QueueInv(t)
  {
    ShrinkFacts(s, t.queue);
    forall u | u in t.queue
      ensures TicketOk(t, u)
    {
      assert TicketOk(s, u);
    }
  }

  /** Steps that leave the queue alone. */
  lemma QueueSame(s: State, t: State)
    requires QueueInv(s) && StandingKept(s, t) && t.admitted == s.admitted && t.queue == s.queue
    requires forall k :: k in s.phases && k in t.phases ==> TicketPhase(s.phases[k]) ==> TicketPhase(t.phases[k])
    requires t.mutex == s.mutex || t.mutex == None
    ensures QueueInv(t)
  {
    SubsequenceRefl(s.queue);
    QueueShrinks(s, t);
  }

  lemma HeadIsAdmitted(s: State, j: string)
    requires PermitInv(s) && QueueInv(s) && At(s, j, Granted)
    ensures s.queue != [] && s.queue[0].job == j && Remove(s.queue, j) == s.queue[1..]
  {
    assert LeaseOk(s.phases[j], j, Need(s, j), s.mutex, s.locks);
    RemoveHead(s.queue, j);
  }

  lemma AdmitTickets(s: State, j: string, t: State)
    requires QueueInv(s) && s.queue != [] && s.queue[0].job == j && t.queue == s.queue[1..]
    requires StandingKept(s, t) && forall k :: k in s.phases && k != j ==> k in t.phases && t.phases[k] == s.phases[k]
    ensures forall u :: u in t.queue ==> TicketOk(t, u)
  {
    forall u | u in t.queue
      ensures TicketOk(t, u)
    {
      assert TicketOk(s, u);
      var k :| 0 <= k < |t.queue| && t.queue[k] == u;
      assert Before(s.queue[0], s.queue[k + 1]);
    }
  }

  lemma AdmitLog(admitted: seq<string>, q: seq<Ticket>)
    requires q != []
    ensures (admitted + [q[0].job]) + Owners(q[1..]) == admitted + Owners(q)
  {
    assert Owners(q) == [q[0].job] + Owners(q[1..]);
  }

  lemma QueueAdmit(s: State, j: string)
    requires PermitInv(s) && QueueInv(s) && At(s, j, Granted)
    ensures QueueInv(ApplyAdmit(s, j))
  {
    HeadIsAdmitted(s, j);
    QueueAdmitted(s, j, s.(phases := s.phases[j := Leased], queue := s.queue[1..], mutex := None, admitted := s.admitted + [j]));
  }

  lemma QueueAdmitted(s: State, j: string, t: State)
    requires QueueInv(s) && Known(s, j) && InCritical(s.phases[j]) && s.queue != [] && s.queue[0].job == j
    requires t == s.(phases := s.phases[j := Leased], queue := s.queue[1..], mutex := None, admitted := s.admitted + [j])
    ensures QueueInv(t)
  {
    AdmitLog(s.admitted, s.queue);
    AdmitTickets(s, j, t);
  }

  /** A new ticket goes to the end of what pruning and supersession leave. */
  lemma EnterQueue(s: State, j: string, now: nat, dead: set<string>)
    requires QueueInv(s) && CanEnter(s, j, now, dead)
    ensures var others := Supersede(Prune(s.queue, s.records, dead), j, s.specs[j].session);
            var t := ApplyEnter(s, j, now, dead);
            && Subsequence(others, s.queue)
            && t.queue == (if Find(others, j).None? then others + [Ticket(now, j, Need(s, j), s.specs[j].session, true)] else others)
            && t.arrivals == (if Find(others, j).None? then s.arrivals + [j] else s.arrivals)
  {
    var pruned := Prune(s.queue, s.records, dead);
    var others := Supersede(pruned, j, s.specs[j].session);
    FilterSubsequence(s.queue, Fresh(s.records, dead));
    FilterSubsequence(pruned, Kept(j, s.specs[j].session));
    SubsequenceTransitive(others, pruned, s.queue);
    OrderedPart(others, s.queue);
    forall u | u in others
      ensures u.time < now
    {
      assert TicketOk(s, u);
    }
    InsertIsAppend(others, Ticket(now, j, Need(s, j), s.specs[j].session, true));
  }

  lemma NewTicketOrdered(s: State, j: string, others: seq<Ticket>, n: Ticket)
    requires QueueInv(s) && Known(s, j) && s.phases[j].Launched? && Subsequence(others, s.queue)
    requires n.job == j && s.clock <= n.time
    requires forall u :: u in others ==> !Superseded(u, j, n.session)
    ensures Ordered(others + [n])
  {
    OrderedPart(others, s.queue);
    forall u | u in others
      ensures Before(u, n)
    {
      assert TicketOk(s, u);
    }
  }

  lemma EnterFrame(s: State, j: string, now: nat, dead: set<string>)
    requires Known(s, j)
    ensures var t := ApplyEnter(s, j, now, dead);
            t == Put(s, j, Waiting).(cancels := t.cancels, queue := t.queue, arrivals := t.arrivals, clock := now + 1)
  {
  }

  lemma NotSuperseded(s: State, j: string, dead: set<string>)
    requires Known(s, j)
    ensures forall u :: u in Supersede(Prune(s.queue, s.records, dead), j, s.specs[j].session) ==> !Superseded(u, j, s.specs[j].session)
  {
  }

  lemma QueueEnter(s: State, j: string, now: nat, dead: set<string>)
    requires QueueInv(s) && CanEnter(s, j, now, dead)
    ensures QueueInv(ApplyEnter(s, j, now, dead))
  {
    EnterQueue(s, j, now, dead);
    EnterFrame(s, j, now, dead);
    NotSuperseded(s, j, dead);
    var others := Supersede(Prune(s.queue, s.records, dead), j, s.specs[j].session);
    QueueEntered(s, ApplyEnter(s, j, now, dead), j, others, Ticket(now, j, Need(s, j), s.specs[j].session, true));
  }

  lemma QueueEntered(s: State, t: State, j: string, others: seq<Ticket>, n: Ticket)
    requires QueueInv(s) && Known(s, j) && s.phases[j].Launched? && s.clock <= n.time < Pow10(WIDTH) && s.mutex.None?
    requires n == Ticket(n.time, j, Need(s, j), s.specs[j].session, true) && !s.specs[j].weight.Light?
    requires Subsequence(others, s.queue) && forall u :: u in others ==> !Superseded(u, j, n.session)
    requires t.queue == (if Find(others, j).None? then others + [n] else others)
    requires t.arrivals == (if Find(others, j).None? then s.arrivals + [j] else s.arrivals)
    requires t == Put(s, j, Waiting).(cancels := t.cancels, queue := t.queue, arrivals := t.arrivals, clock := n.time + 1)
    ensures QueueInv(t)
  {
    ShrinkFacts(s, others);
    NewTicketOrdered(s, j, others, n);
    QueueGrows(s, t, j, others, n, Find(others, j).None?);
  }

  lemma GrownTickets(s: State, t: State, j: string, n: Ticket)
    requires QueueInv(s) && Known(s, j) && n == Ticket(n.time, j, Need(s, j), s.specs[j].session, true) && !s.specs[j].weight.Light?
    requires t == Put(s, j, Waiting).(cancels := t.cancels, queue := t.queue, arrivals := t.arrivals, clock := n.time + 1)
    requires s.clock <= n.time && forall u :: u in t.queue ==> u == n || u in s.queue
    ensures forall u :: u in t.queue ==> TicketOk(t, u)
  {
    forall u | u in t.queue
      ensures TicketOk(t, u)
    {
      if u != n {
        assert TicketOk(s, u);
      }
    }
  }

  lemma NotYetArrived(s: State, j: string)
    requires QueueInv(s) && j in s.phases && s.phases[j].Launched?
    ensures j !in s.arrivals && NoDuplicates(s.arrivals + [j])
  {
  }

  lemma GrownArrivals(admitted: seq<string>, others: seq<Ticket>, n: Ticket, arrivals: seq<string>)
    requires Subsequence(admitted + Owners(others), arrivals)
    ensures Subsequence(admitted + Owners(others + [n]), arrivals + [n.job])
  {
    assert Owners(others + [n]) == Owners(others) + [n.job];
    assert admitted + Owners(others + [n]) == (admitted + Owners(others)) + [n.job];
    SubsequenceAppend(admitted + Owners(others), arrivals, [n.job]);
  }

  /** The entering job's ticket, if written, joins the tickets that stay. */
  lemma QueueGrows(s: State, t: State, j: string, others: seq<Ticket>, n: Ticket, written: bool)
    requires QueueInv(s) && Known(s, j) && s.phases[j].Launched? && s.clock <= n.time < Pow10(WIDTH)
    requires n == Ticket(n.time, j, Need(s, j), s.specs[j].session, true) && !s.specs[j].weight.Light?
    requires Ordered(others) && Ordered(others + [n]) && (forall u :: u in others ==> u in s.queue)
    requires Subsequence(s.admitted + Owners(others), s.arrivals)
    requires t.queue == (if written then others + [n] else others) && t.arrivals == (if written then s.arrivals + [j] else s.arrivals)
    requires t == Put(s, j, Waiting).(cancels := t.cancels, queue := t.queue, arrivals := t.arrivals, clock := n.time + 1)
    requires s.mutex.None?
    ensures QueueInv(t)
  {
    GrownTickets(s, t, j, n);
    ArrivalsGrow(s, t, j, others, n, written);
  }

  lemma ArrivalsGrow(s: State, t: State, j: string, others: seq<Ticket>, n: Ticket, written: bool)
    requires QueueInv(s) && Known(s, j) && s.phases[j].Launched? && n.job == j
    requires Subsequence(s.admitted + Owners(others), s.arrivals) && t.admitted == s.admitted && t.phases == s.phases[j := Waiting]
    requires t.queue == (if written then others + [n] else others) && t.arrivals == (if written then s.arrivals + [j] else s.arrivals)
    ensures Subsequence(t.admitted + Owners(t.queue), t.arrivals) && NoDuplicates(t.arrivals)
    ensures forall a :: a in t.arrivals ==> a in t.phases && Entered(t.phases[a])
  {
    NotYetArrived(s, j);
    if written {
      GrownArrivals(s.admitted, others, n, s.arrivals);
    }
  }

  lemma QueuePoll(s: State, j: string, dead: set<string>)
    requires QueueInv(s) && CanPoll(s, j, dead)
    ensures QueueInv(ApplyPoll(s, j, dead))
  {
    FilterSubsequence(s.queue, Fresh(s.records, dead));
    QueueShrinks(s, ApplyPoll(s, j, dead));
  }

  lemma QueueWithdraw(s: State, j: string)
    requires QueueInv(s) && Enabled(s, Withdraw(j))
    ensures QueueInv(Apply(s, Withdraw(j)))
  {
    RemoveSubsequence(s.queue, j);
    QueueShrinks(s, Apply(s, Withdraw(j)));
  }

  lemma QueueSnapshot(s: State, dead: set<string>)
    requires QueueInv(s) && Enabled(s, Step.Snapshot(dead))
    ensures QueueInv(Apply(s, Step.Snapshot(dead)))
  {
    FilterSubsequence(s.queue, Fresh(s.records, dead));
    QueueShrinks(s, Apply(s, Step.Snapshot(dead)));
  }

  lemma QueueRecord(s: State, j: string, to: JobState, details: Details)
    requires QueueInv(s) && Known(s, j)
    ensures QueueInv(Move(s, j, to, details))
  {
    MoveFrame(s, j, to, details);
    QueueSame(s, Move(s, j, to, details));
  }

  lemma QueuePut(s: State, j: string, p: Phase)
    requires QueueInv(s) && Known(s, j)
    requires TicketPhase(s.phases[j]) ==> TicketPhase(p)
    requires Entered(s.phases[j]) ==> Entered(p)
    ensures QueueInv(Put(s, j, p))
  {
    QueueSame(s, Put(s, j, p));
  }

  /** A record transition together with a phase change of the same worker. */
  lemma QueueRecordAndPhase(s: State, j: string, to: JobState, details: Details, p: Phase)
    requires QueueInv(s) && Known(s, j)
    requires TicketPhase(s.phases[j]) ==> TicketPhase(p)
    requires Entered(s.phases[j]) ==> Entered(p)
    ensures QueueInv(Put(Move(s, j, to, details), j, p))
  {
    QueueRecord(s, j, to, details);
    MoveFrame(s, j, to, details);
    QueuePut(Move(s, j, to, details), j, p);
  }

  predicate QueueRecordStep(step: Step) {
    step.Start? || step.Reject? || step.CancelPreparing? || step.Reconcile? || step.LaunchFail? || step.RecordWithdrawal?
  }

  lemma QueueRecordStepKept(s: State, step: Step)
    requires QueueInv(s) && Enabled(s, step) && QueueRecordStep(step)
    ensures QueueInv(Apply(s, step))
  {
    match step
    case Start(j) => QueueRecord(s, j, Queued, Details(None, map["unit" := Unit(j)]));
    case Reject(j) => QueueRecord(s, j, Failed, ExitWith(1));
    case CancelPreparing(j) => QueueRecord(s, j, Cancelled, ExitWith(130));
    case Reconcile(j) => QueueRecord(s, j, Cancelled, ExitWith(127));
    case LaunchFail(j) => QueueRecordAndPhase(s, j, Cancelled, NO_DETAILS, Gone(None));
    case RecordWithdrawal(j) =>
      QueueRecordAndPhase(s, j, Cancelled, ExitWith(130), Gone(if Movable(s, j, Cancelled) then Some(130) else None));
  }

  lemma QueueConclude(s: State, j: string, to: JobState, code: int)
    requires QueueInv(s) && Known(s, j) && s.phases[j].Executing?
    ensures QueueInv(Conclude(s, j, to, code))
  {
    QueueRecordAndPhase(s, j, to, ExitWith(code), Releasing(if Movable(s, j, to) then Some(code) else None));
  }

  lemma QueueSetup(s: State, j: string)
    requires QueueInv(s) && Known(s, j) && s.phases[j].Leased?
    ensures QueueInv(ApplySetupFail(s, j))
  {
    if Final(s.records[j].state) {
      QueuePut(s, j, ApplySetupFail(s, j).phases[j]);
    } else {
      QueueRecordAndPhase(s, j, Failed, ExitWith(1), Releasing(if Movable(s, j, Failed) then Some(1) else None));
    }
  }

  lemma QueueUntouched(s: State, step: Step)
    requires QueueInv(s) && Enabled(s, step)
    requires step.Create? || step.Launch? || step.RequestCancel? || step.Observe? || step.TakeLight? || step.ReleaseOne?
             || step.Escape? || step.Exit? || step.Crash?
    ensures QueueInv(Apply(s, step))
  {
    if step.Launch? || step.TakeLight? || step.Escape? || step.Exit? {
      QueuePhaseStep(s, step);
    } else if step.Crash? {
      QueueCrash(s, step.job);
    } else {
      QueueSame(s, Apply(s, step));
    }
  }

  lemma QueuePhaseStep(s: State, step: Step)
    requires QueueInv(s) && Enabled(s, step) && (step.Launch? || step.TakeLight? || step.Escape? || step.Exit?)
    ensures QueueInv(Apply(s, step))
  {
    match step
    case Launch(j) => QueuePut(s, j, Launched);
    case TakeLight(j) => QueuePut(s, j, Leased);
    case Escape(j) => QueuePut(s, j, Releasing(None));
    case Exit(j) => QueuePut(s, j, Gone(s.phases[j].code));
  }

  lemma QueueCrash(s: State, j: string)
    requires QueueInv(s) && Known(s, j) && !Inactive(s.phases[j])
    ensures QueueInv(Apply(s, Crash(j)))
  {
    QueueSame(s, Apply(s, Crash(j)));
  }

  lemma QueueScan(s: State, j: string, t: State)
    requires QueueInv(s) && Known(s, j) && InCritical(s.phases[j])
    requires j in t.phases && TicketPhase(t.phases[j]) && (t.mutex == s.mutex || t.mutex == None)
    requires t == s.(phases := s.phases[j := t.phases[j]], locks := t.locks, notes := t.notes, mutex := t.mutex)
    ensures QueueInv(t)
  {
    QueueSame(s, t);
  }

  /** Steps that add or remove tickets. */
  predicate QueueTicketStep(step: Step) {
    step.Enter? || step.Poll? || step.Withdraw? || step.Snapshot? || step.Admit?
  }

  lemma QueueTicketStepKept(s: State, step: Step)
    requires PermitInv(s) && QueueInv(s) && Enabled(s, step) && QueueTicketStep(step)
    ensures QueueInv(Apply(s, step))
  {
    match step
    case Enter(j, now, dead) => QueueEnter(s, j, now, dead);
    case Poll(j, dead) => QueuePoll(s, j, dead);
    case Withdraw(j) => QueueWithdraw(s, j);
    case Snapshot(dead) => QueueSnapshot(s, dead);
    case Admit(j) => QueueAdmit(s, j);
  }

  /** Steps of a worker that owns permits or is about to. */
  predicate QueueWorkerStep(step: Step) {
    step.TrySlot? || step.Undo? || step.StartRunning? || step.SetupFail? || step.Finish? || step.Interrupt?
  }

  lemma QueueWorkerStepKept(s: State, step: Step)
    requires QueueInv(s) && Enabled(s, step) && QueueWorkerStep(step)
    ensures QueueInv(Apply(s, step))
  {
    match step
    case TrySlot(j) =>
      TrySlotFrame(s, j);
      QueueScan(s, j, ApplyTrySlot(s, j));
    case Undo(j) =>
      UndoFrame(s, j);
      QueueScan(s, j, ApplyUndo(s, j));
    case StartRunning(j) =>
      QueueRecordAndPhase(s, j, Running, NO_DETAILS, if Movable(s, j, Running) then Executing else Releasing(None));
    case SetupFail(j) => QueueSetup(s, j);
    case Finish(j, code) => QueueConclude(s, j, FinishState(code), code);
    case Interrupt(j, code) => QueueConclude(s, j, Cancelled, code);
  }

  /** Every step keeps the queue invariant. */
  lemma QueueStep(s: State, step: Step)
    requires PermitInv(s) && QueueInv(s) && Enabled(s, step)
    ensures QueueInv(Apply(s, step))
  {
    if QueueRecordStep(step) {
      QueueRecordStepKept(s, step);
    } else if QueueTicketStep(step) {
      QueueTicketStepKept(s, step);
    } else if QueueWorkerStep(step) {
      QueueWorkerStepKept(s, step);
    } else {
      QueueUntouched(s, step);
    }
  }

  ghost predicate Inv(s: State) {
    PermitInv(s) && QueueInv(s)
  }

  lemma InvNext(p: State, step: Step, s: State)
    requires Inv(p) && Next(p, step, s)
    ensures Inv(s)
  {
    PermitStep(p, step);
    QueueStep(p, step);
  }

  lemma InvReachable(s: State, capacity: nat, files: nat)
    requires 1 <= capacity <= files && Reachable(s, capacity, files)
    ensures Inv(s) && s.capacity == capacity && |s.locks| == files
  {
    PermitsReachable(s, capacity, files);
    forall p, step, q | Next(p, step, q) && Inv(p)
      ensures Inv(q)
    {
      InvNext(p, step, q);
    }
    assert Owners([]) == [];
    ArisesInvariant(StartsAs(capacity, files), Next, Inv, s);
  }
}
