/** What FIFO admission means for whole runs: order, no bypass, waiting, supersession. */
module FifoResults {
  import opened Collections
  import opened TicketNames
  import opened Lifecycle
  import opened Queue
  import opened Slots
  import opened Runs
  import opened Runner
  import opened Permits
  import opened Fifo

  /** Over every run, jobs are admitted in the order in which their tickets were written. */
  lemma AdmissionIsFifo(s: State, capacity: nat, files: nat)
    requires 1 <= capacity <= files && Reachable(s, capacity, files)
    ensures Subsequence(s.admitted, s.arrivals) && NoDuplicates(s.arrivals)
  {
    InvReachable(s, capacity, files);
    SubsequencePrefix(s.admitted, [], Owners(s.queue));
    assert s.admitted + [] == s.admitted;
    SubsequenceTransitive(s.admitted, s.admitted + Owners(s.queue), s.arrivals);
  }

  lemma AdmittedFirst(admitted: seq<string>, q: seq<Ticket>, arrivals: seq<string>, i: nat, m: nat, k: nat, l: nat)
    requires Subsequence(admitted + Owners(q), arrivals) && NoDuplicates(arrivals) && i < |admitted| && m < |q|
    requires k < |arrivals| && arrivals[k] == admitted[i] && l < |arrivals| && arrivals[l] == q[m].job
    ensures k < l
  {
    var all := admitted + Owners(q);
    assert all[i] == admitted[i] && all[|admitted| + m] == q[m].job;
    SubsequenceOrder(all, arrivals, i, |admitted| + m, k, l);
  }

  /** No bypass: whoever was admitted wrote its ticket before everyone still queued, so a later
      heavy job is never admitted while an older exclusive ticket remains. */
  lemma NoBypass(s: State, capacity: nat, files: nat, i: nat, t: Ticket, k: nat, l: nat)
    requires 1 <= capacity <= files && Reachable(s, capacity, files)
    requires i < |s.admitted| && t in s.queue
    requires k < |s.arrivals| && s.arrivals[k] == s.admitted[i]
    requires l < |s.arrivals| && s.arrivals[l] == t.job
    ensures k < l
  {
    InvReachable(s, capacity, files);
    var m :| 0 <= m < |s.queue| && s.queue[m] == t;
    AdmittedFirst(s.admitted, s.queue, s.arrivals, i, m, k, l);
  }

  // ---------------------------------------------------------------- waiting

  /** In a duplicate-free sequence, deleting elements keeps exactly the surviving elements
      in front of an element in front of it, and never moves it back. */
  lemma {:induction false} AheadShrinks<T>(a: seq<T>, b: seq<T>, i: nat, k: nat)
    requires Subsequence(a, b) && NoDuplicates(b) && i < |a| && k < |b| && a[i] == b[k]
    ensures i <= k
    ensures forall y :: y in a[..i] ==> y in b[..k]
    ensures forall y :: y in b[..k] && y in a ==> y in a[..i]
    decreases |b|
  {
    if a[0] == b[0] {
      if i == 0 {
        assert k == 0;
      } else {
        SubsequenceElement(a[1..], b[1..], a[1..][i - 1]);
        AheadShrinks(a[1..], b[1..], i - 1, k - 1);
        assert a[..i] == [a[0]] + a[1..][..i - 1];
        assert b[..k] == [b[0]] + b[1..][..k - 1];
      }
    } else {
      SubsequenceElement(a, b[1..], a[i]);
      AheadShrinks(a, b[1..], i, k - 1);
      assert b[..k] == [b[0]] + b[1..][..k - 1];
      forall y | y in b[..k] && y in a
        ensures y in a[..i]
      {
        SubsequenceElement(a, b[1..], y);
      }
    }
  }

  /** All of `new` except its last ticket, which is job `j`'s first one, comes from `old`. */
  ghost predicate Grew(old_: seq<Ticket>, new_: seq<Ticket>, j: string) {
    && new_ != [] && new_[|new_| - 1].job == j && Subsequence(new_[..|new_| - 1], old_)
    && forall u :: u in old_ ==> u.job != j
  }

  lemma NoTicketYet(s: State, j: string)
    requires QueueInv(s) && Known(s, j) && s.phases[j].Launched?
    ensures forall u :: u in s.queue ==> u.job != j
  {
    forall u | u in s.queue
      ensures u.job != j
    {
      assert TicketOk(s, u);
    }
  }

  lemma EnterChange(s: State, j: string, now: nat, dead: set<string>)
    requires QueueInv(s) && CanEnter(s, j, now, dead)
    ensures Subsequence(ApplyEnter(s, j, now, dead).queue, s.queue) || Grew(s.queue, ApplyEnter(s, j, now, dead).queue, j)
  {
    EnterQueue(s, j, now, dead);
    NoTicketYet(s, j);
    var new_ := ApplyEnter(s, j, now, dead).queue;
    var others := Supersede(Prune(s.queue, s.records, dead), j, s.specs[j].session);
    if new_ != others {
      assert new_[..|new_| - 1] == others;
    }
  }

  lemma QueueUnchanged(s: State, step: Step)
    requires Enabled(s, step)
    requires !QueueTicketStep(step)
    ensures Apply(s, step).queue == s.queue
  {
    if MovesRecord(step) {
      MovesRecordFrame(s, step);
    } else if step.TrySlot? {
      TrySlotFrame(s, step.job);
    } else if step.Undo? {
      UndoFrame(s, step.job);
    } else {
      QueueUnchangedElsewhere(s, step);
    }
  }

  lemma QueueUnchangedElsewhere(s: State, step: Step)
    requires Enabled(s, step) && !QueueTicketStep(step) && !MovesRecord(step) && !step.TrySlot? && !step.Undo?
    ensures Apply(s, step).queue == s.queue
  {
  }

  lemma QueueLoses(s: State, step: Step)
    requires Enabled(s, step) && QueueTicketStep(step) && !step.Enter?
    ensures Subsequence(Apply(s, step).queue, s.queue)
  {
    match step
    case Poll(j, dead) => FilterSubsequence(s.queue, Fresh(s.records, dead));
    case Snapshot(dead) => FilterSubsequence(s.queue, Fresh(s.records, dead));
    case Withdraw(j) => RemoveSubsequence(s.queue, j);
    case Admit(j) => RemoveSubsequence(s.queue, j);
  }

  /** How one step changes the queue: tickets disappear, and at most one joins at the end. */
  lemma QueueChange(s: State, step: Step)
    requires QueueInv(s) && Enabled(s, step)
    ensures Subsequence(Apply(s, step).queue, s.queue) || (step.Enter? && Grew(s.queue, Apply(s, step).queue, step.job))
  {
    if step.Enter? {
      EnterChange(s, step.job, step.now, step.dead);
    } else if QueueTicketStep(step) {
      QueueLoses(s, step);
    } else {
      QueueUnchanged(s, step);
      SubsequenceRefl(s.queue);
    }
  }

  lemma OrderedDistinct(q: seq<Ticket>)
    requires Ordered(q)
    ensures NoDuplicates(q)
  {
    forall i, j | 0 <= i < j < |q|
      ensures q[i] != q[j]
    {
      assert Before(q[i], q[j]);
    }
  }

  lemma GrewPosition(a: seq<Ticket>, b: seq<Ticket>, j: string, i: nat, k: nat)
    requires Grew(b, a, j) && NoDuplicates(b) && i < |a| && k < |b| && a[i] == b[k]
    ensures i <= k
    ensures forall y :: y in a[..i] <==> y in b[..k] && y in a
  {
    var kept := a[..|a| - 1];
    assert b[k] in b && a == kept + [a[|a| - 1]];
    AheadShrinks(kept, b, i, k);
    assert a[..i] == kept[..i];
    forall y | y in b[..k] && y in a
      ensures y in kept[..i]
    {
      assert y in b;
    }
  }

  /** A queued ticket never moves back, and the tickets ahead of it after a step are exactly
      those ahead of it before that are still queued: every removal moves it up by one. */
  lemma PositionNeverRises(s: State, step: Step, i: nat, k: nat)
    requires Inv(s) && Enabled(s, step)
    requires k < |s.queue| && i < |Apply(s, step).queue| && Apply(s, step).queue[i] == s.queue[k]
    ensures i <= k
    ensures forall y :: y in Apply(s, step).queue[..i] <==> y in s.queue[..k] && y in Apply(s, step).queue
  {
    var q, t := s.queue, Apply(s, step).queue;
    QueueChange(s, step);
    OrderedDistinct(q);
    if Subsequence(t, q) {
      AheadShrinks(t, q, i, k);
    } else {
      GrewPosition(t, q, step.job, i, k);
    }
  }

  /** The directory listing, sorted by name, is in every reachable state also the order of arrival. */
  lemma ListingIsSorted(s: State)
    requires QueueInv(s)
    ensures Sorted(s.queue)
  {
    forall i, j | 0 <= i < j < |s.queue|
      ensures s.queue[i].time < s.queue[j].time
    {
      assert Before(s.queue[i], s.queue[j]);
    }
    forall t | t in s.queue
      ensures t.time < Pow10(WIDTH)
    {
      assert TicketOk(s, t);
    }
    RisingIsSorted(s.queue);
  }

  // ---------------------------------------------------------------- supersession

  /** At most one queued ticket per identified session. */
  lemma OneTicketPerSession(s: State, capacity: nat, files: nat, i: nat, k: nat)
    requires 1 <= capacity <= files && Reachable(s, capacity, files)
    requires i < |s.queue| && k < |s.queue| && s.queue[i].session.Some? && s.queue[i].session == s.queue[k].session
    ensures i == k
  {
    InvReachable(s, capacity, files);
    OrderedIndices(s.queue, i, k);
  }

  lemma OrderedIndices(q: seq<Ticket>, i: nat, k: nat)
    requires Ordered(q) && i < |q| && k < |q|
    ensures q[i].job == q[k].job ==> i == k
    ensures q[i].session.Some? && q[i].session == q[k].session ==> i == k
  {
  }

  /** Ticket owners hold no slot unless they are being admitted under the queue lock. */
  lemma OwnersHoldNothing(s: State, t: Ticket)
    requires Inv(s) && t in s.queue && s.mutex != Some(t.job)
    ensures Held(s.locks, t.job) == {} && !RunsCommand(s, t.job) && !s.phases[t.job].Leased?
  {
    assert TicketOk(s, t);
    assert LeaseOk(s.phases[t.job], t.job, Need(s, t.job), s.mutex, s.locks);
  }

  /** Supersession asks only jobs without permits to cancel. */
  lemma SupersessionSparesHolders(s: State, j: string, now: nat, dead: set<string>, victim: string)
    requires Inv(s) && CanEnter(s, j, now, dead)
    requires victim in ApplyEnter(s, j, now, dead).cancels && victim !in s.cancels
    ensures Held(s.locks, victim) == {} && !RunsCommand(s, victim)
    ensures exists t :: t in s.queue && t.job == victim && t.session == s.specs[j].session && victim != j
  {
    var pruned := Prune(s.queue, s.records, dead);
    var t :| t in pruned && Superseded(t, j, s.specs[j].session) && t.job == victim;
    assert t in s.queue;
    OwnersHoldNothing(s, t);
  }

  /** A worker that waits, or has stopped waiting, with no ticket of its own in the queue. */
  ghost predicate Orphaned(s: State, j: string) {
    && j in s.phases && (s.phases[j].Waiting? || s.phases[j].Quitting? || s.phases[j].Gone?)
    && forall t :: t in s.queue ==> t.job != j
  }

  lemma PollNeedsTicket(s: State, k: string, dead: set<string>, j: string)
    requires forall t :: t in s.queue ==> t.job != j
    ensures ApplyPoll(s, k, dead).phases == s.phases || (k != j && ApplyPoll(s, k, dead).phases == s.phases[k := Scanning(0, [])])
  {
    var pruned := Prune(s.queue, s.records, dead);
    if pruned != [] {
      assert pruned[0] in pruned && pruned[0] in s.queue;
    }
  }

  lemma PhaseMoves(s: State, step: Step, j: string)
    requires Enabled(s, step) && Orphaned(s, j)
    ensures j in Apply(s, step).phases
    ensures Apply(s, step).phases[j] == s.phases[j] || Apply(s, step).phases[j].Quitting? || Apply(s, step).phases[j].Gone?
  {
    if step.Poll? {
      PollNeedsTicket(s, step.job, step.dead, j);
    } else if step.TrySlot? {
      TrySlotFrame(s, step.job);
    } else if step.Undo? {
      UndoFrame(s, step.job);
    } else if MovesRecord(step) {
      RecordMovesPhase(s, step, j);
    } else {
      OtherMovesPhase(s, step, j);
    }
  }

  lemma RecordMovesPhase(s: State, step: Step, j: string)
    requires Enabled(s, step) && Orphaned(s, j) && MovesRecord(step)
    ensures j in Apply(s, step).phases
    ensures Apply(s, step).phases[j] == s.phases[j] || Apply(s, step).phases[j].Quitting? || Apply(s, step).phases[j].Gone?
  {
    MovesRecordFrame(s, step);
    if step.job == j {
      OrphanRecord(s, step);
    }
  }

  lemma OrphanRecord(s: State, step: Step)
    requires Enabled(s, step) && MovesRecord(step) && Orphaned(s, step.job)
    ensures Apply(s, step).phases[step.job] == s.phases[step.job] || Apply(s, step).phases[step.job].Gone?
  {
  }

  lemma OtherMovesPhase(s: State, step: Step, j: string)
    requires Enabled(s, step) && Orphaned(s, j) && !MovesRecord(step) && !step.Poll? && !step.TrySlot? && !step.Undo?
    ensures j in Apply(s, step).phases
    ensures Apply(s, step).phases[j] == s.phases[j] || Apply(s, step).phases[j].Quitting? || Apply(s, step).phases[j].Gone?
  {
    if step.Enter? {
      EnterKeepsPhases(s, step.job, step.now, step.dead);
    } else if step.Withdraw? || step.Exit? || step.Crash? {
      LeavingMovesPhase(s, step, j);
    }
  }

  lemma LeavingMovesPhase(s: State, step: Step, j: string)
    requires Enabled(s, step) && Orphaned(s, j) && (step.Withdraw? || step.Exit? || step.Crash?)
    ensures j in Apply(s, step).phases
    ensures Apply(s, step).phases[j] == s.phases[j] || Apply(s, step).phases[j].Quitting? || Apply(s, step).phases[j].Gone?
  {
  }

  /** A job without a ticket never gets one again, is never admitted and never runs. */
  lemma OrphanStays(s: State, step: Step, j: string)
    requires Inv(s) && Enabled(s, step) && Orphaned(s, j)
    ensures Orphaned(Apply(s, step), j)
  {
    PhaseMoves(s, step, j);
    QueueChange(s, step);
    if step.Enter? {
      StrangersQueue(s.queue, Apply(s, step).queue, j, step.job);
    } else {
      OrderedPart(Apply(s, step).queue, s.queue);
    }
  }

  /** A job that has no ticket and does not enter has none afterwards. */
  lemma StrangersQueue(old_: seq<Ticket>, new_: seq<Ticket>, j: string, entering: string)
    requires Ordered(old_) && (forall t :: t in old_ ==> t.job != j) && j != entering
    requires Subsequence(new_, old_) || Grew(old_, new_, entering)
    ensures forall t :: t in new_ ==> t.job != j
  {
    if Subsequence(new_, old_) {
      OrderedPart(new_, old_);
    } else {
      OrderedPart(new_[..|new_| - 1], old_);
      assert new_ == new_[..|new_| - 1] + [new_[|new_| - 1]];
    }
  }

  /** Whatever removes a ticket other than its owner's admission orphans the owner. */
  lemma RemovalOrphans(s: State, step: Step, u: Ticket)
    requires Inv(s) && Enabled(s, step) && u in s.queue && u !in Apply(s, step).queue && step != Admit(u.job)
    ensures Orphaned(Apply(s, step), u.job)
  {
    QueueChange(s, step);
    OwnerGone(s.queue, Apply(s, step).queue, u, if step.Enter? then step.job else u.job);
    RemovalPhase(s, step, u);
  }

  lemma OwnerGone(old_: seq<Ticket>, new_: seq<Ticket>, u: Ticket, j: string)
    requires Ordered(old_) && u in old_ && u !in new_ && (Subsequence(new_, old_) || Grew(old_, new_, j))
    ensures forall v :: v in new_ ==> v.job != u.job
  {
    if Subsequence(new_, old_) {
      OrderedPart(new_, old_);
    } else {
      OrderedPart(new_[..|new_| - 1], old_);
      assert new_ == new_[..|new_| - 1] + [new_[|new_| - 1]];
    }
    forall v | v in new_
      ensures v.job != u.job
    {
      if v in old_ && v.job == u.job {
        SameOwnerSameTicket(old_, u, v);
      }
    }
  }

  lemma SameOwnerSameTicket(q: seq<Ticket>, u: Ticket, v: Ticket)
    requires Ordered(q) && u in q && v in q && u.job == v.job
    ensures u == v
  {
    var i :| 0 <= i < |q| && q[i] == u;
    var k :| 0 <= k < |q| && q[k] == v;
    OrderedIndices(q, i, k);
  }

  lemma AdmitKeepsOthers(s: State, k: string, u: Ticket)
    requires Inv(s) && At(s, k, Granted) && u in s.queue && u.job != k
    ensures u in ApplyAdmit(s, k).queue
  {
    HeadIsAdmitted(s, k);
    var i :| 0 <= i < |s.queue| && s.queue[i] == u;
    assert s.queue[1..][i - 1] == u;
  }

  lemma IdleOwner(s: State, u: Ticket)
    requires Inv(s) && u in s.queue && s.mutex.None?
    ensures u.job in s.phases && (s.phases[u.job].Waiting? || s.phases[u.job].Quitting? || s.phases[u.job].Gone?)
  {
    assert TicketOk(s, u);
    assert LeaseOk(s.phases[u.job], u.job, Need(s, u.job), s.mutex, s.locks);
  }

  /** While a worker holds the queue lock no ticket is removed except by its admission. */
  lemma RemovalPhase(s: State, step: Step, u: Ticket)
    requires Inv(s) && Enabled(s, step) && u in s.queue && u !in Apply(s, step).queue && step != Admit(u.job)
    ensures u.job in Apply(s, step).phases
    ensures var p := Apply(s, step).phases[u.job]; p.Waiting? || p.Quitting? || p.Gone?
  {
    if step.Admit? {
      AdmitKeepsOthers(s, step.job, u);
    } else if step.Enter? || step.Withdraw? || step.Snapshot? || step.Poll? {
      IdleOwner(s, u);
      IdleRemoval(s, step, u);
    } else {
      QueueUnchanged(s, step);
    }
  }

  lemma IdleRemoval(s: State, step: Step, u: Ticket)
    requires Enabled(s, step) && Ordered(s.queue) && u in s.queue && u !in Apply(s, step).queue
    requires step.Enter? || step.Withdraw? || step.Snapshot? || step.Poll?
    requires u.job in s.phases && (s.phases[u.job].Waiting? || s.phases[u.job].Quitting? || s.phases[u.job].Gone?)
    ensures u.job in Apply(s, step).phases
    ensures var p := Apply(s, step).phases[u.job]; p.Waiting? || p.Quitting? || p.Gone?
  {
    if step.Poll? {
      PollKeepsHead(s, step.job, step.dead, u);
    } else if step.Enter? {
      EnterKeepsPhases(s, step.job, step.now, step.dead);
    }
  }

  lemma EnterKeepsPhases(s: State, k: string, now: nat, dead: set<string>)
    requires Known(s, k)
    ensures ApplyEnter(s, k, now, dead).phases == s.phases[k := Waiting]
  {
  }

  lemma PollKeepsHead(s: State, k: string, dead: set<string>, u: Ticket)
    requires Ordered(s.queue) && u in s.queue && u !in ApplyPoll(s, k, dead).queue
    ensures ApplyPoll(s, k, dead).phases == s.phases || (k != u.job && ApplyPoll(s, k, dead).phases == s.phases[k := Scanning(0, [])])
  {
    var pruned := Prune(s.queue, s.records, dead);
    if pruned != [] && pruned[0].job == k && u.job == k {
      assert pruned[0] in pruned && pruned[0] in s.queue;
      SameOwnerSameTicket(s.queue, pruned[0], u);
    }
  }

  ghost function OrphanFrom(j: string): State -> bool {
    (s: State) => Inv(s) && Orphaned(s, j)
  }

  /** Over every continuation, a job whose ticket is gone never starts its command. */
  lemma OrphanNeverRuns(s: State, t: State, j: string)
    requires Inv(s) && Orphaned(s, j) && Continues(s, t)
    ensures Orphaned(t, j) && !RunsCommand(t, j)
  {
    forall p, step, q | Next(p, step, q) && OrphanFrom(j)(p)
      ensures OrphanFrom(j)(q)
    {
      InvNext(p, step, q);
      OrphanStays(p, step, j);
    }
    ArisesInvariant(Exactly(s), Next, OrphanFrom(j), t);
  }
}
