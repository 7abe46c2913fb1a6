/** Waiting workers: none loses its place with suffix-free ids, exactly when one is stranded, and
    what a snapshot tells them. */
module Waiters {
  import opened Collections
  import opened TicketNames
  import opened Lifecycle
  import opened Queue
  import opened Slots
  import opened Runs
  import opened Runner
  import opened Permits
  import opened Fifo
  import opened FifoResults
  import JobHistory
  import Polling
  import Pool = ResourcePool

  ghost predicate HasTicket(q: seq<Ticket>, j: string) {
    exists t :: t in q && t.job == j
  }

  /** A waiting worker is queued, or was asked to cancel, or its job is already final. */
  ghost predicate Accounted(s: State, j: string) {
    HasTicket(s.queue, j) || j in s.cancels || (j in s.records && Final(s.records[j].state))
  }

  ghost predicate NoneLost(s: State) {
    forall j :: j in s.phases && s.phases[j].Waiting? ==> Accounted(s, j)
  }

  ghost predicate WaitInv(s: State) {
    Inv(s) && JobHistory.HistoryInv(s) && (SuffixFree(s.specs.Keys) ==> NoneLost(s))
  }

  lemma PollPhases(s: State, k: string, dead: set<string>)
    ensures ApplyPoll(s, k, dead).phases == s.phases || ApplyPoll(s, k, dead).phases == s.phases[k := Phase.Scanning(0, [])]
  {
  }

  lemma BecomesWaiting(s: State, step: Step, j: string)
    requires Enabled(s, step) && j in Apply(s, step).phases && Apply(s, step).phases[j].Waiting?
    requires !(step.Enter? && step.job == j) && !(step.Undo? && step.job == j)
    ensures j in s.phases && s.phases[j].Waiting?
  {
    if step.Poll? {
      PollPhases(s, step.job, step.dead);
    } else if step.TrySlot? {
      TrySlotFrame(s, step.job);
    } else if step.Undo? {
      UndoFrame(s, step.job);
    } else {
      OtherPhases(s, step, j);
    }
  }

  lemma OtherPhases(s: State, step: Step, j: string)
    requires Enabled(s, step) && !step.Poll? && !step.TrySlot? && !step.Undo?
    requires j in Apply(s, step).phases && Apply(s, step).phases[j].Waiting? && !(step.Enter? && step.job == j)
    ensures j in s.phases && s.phases[j].Waiting?
  {
    if !QueueTicketStep(step) {
      PlainPhases(s, step, j);
    }
  }

  lemma PlainPhases(s: State, step: Step, j: string)
    requires Enabled(s, step) && !step.TrySlot? && !step.Undo? && !QueueTicketStep(step)
    requires j in Apply(s, step).phases && Apply(s, step).phases[j].Waiting?
    ensures j in s.phases && s.phases[j].Waiting?
  {
    if MovesRecord(step) {
      MovesRecordFrame(s, step);
      RecordPhases(s, step);
    }
  }

  lemma RecordPhases(s: State, step: Step)
    requires Enabled(s, step) && MovesRecord(step)
    ensures step.job in s.phases
    ensures var t := Apply(s, step); t.phases[step.job] == s.phases[step.job] || !t.phases[step.job].Waiting?
  {
  }

  lemma CancelsGrow(s: State, step: Step)
    requires Enabled(s, step)
    ensures s.cancels <= Apply(s, step).cancels && s.specs.Keys <= Apply(s, step).specs.Keys
  {
    if MovesRecord(step) {
      MovesRecordFrame(s, step);
    } else if step.TrySlot? {
      TrySlotFrame(s, step.job);
    } else if step.Undo? {
      UndoFrame(s, step.job);
    } else {
      CancelsGrowElsewhere(s, step);
    }
  }

  lemma CancelsGrowElsewhere(s: State, step: Step)
    requires Enabled(s, step) && !MovesRecord(step) && !step.TrySlot? && !step.Undo?
    ensures s.cancels <= Apply(s, step).cancels && s.specs.Keys <= Apply(s, step).specs.Keys
  {
  }

  /** Pruning leaves the ticket of a live worker whose job is not final. */
  lemma PruneKeepsLive(s: State, dead: set<string>, j: string)
    requires QueueInv(s) && HasTicket(s.queue, j) && AllInactive(s, dead)
    requires Known(s, j) && s.phases[j].Waiting? && !Final(s.records[j].state)
    ensures HasTicket(Prune(s.queue, s.records, dead), j)
  {
    var t :| t in s.queue && t.job == j;
    assert TicketOk(s, t);
    assert Fresh(s.records, dead)(t);
  }

  /** An entering job cancels every waiting job whose ticket it removes. */
  lemma EnterAccounts(s: State, k: string, now: nat, dead: set<string>, j: string)
    requires QueueInv(s) && CanEnter(s, k, now, dead) && j != k
    requires HasTicket(s.queue, j) && Known(s, j) && s.phases[j].Waiting? && !Final(s.records[j].state)
    ensures var t := ApplyEnter(s, k, now, dead); HasTicket(t.queue, j) || j in t.cancels
  {
    PruneKeepsLive(s, dead, j);
    var session := s.specs[k].session;
    var pruned := Prune(s.queue, s.records, dead);
    var u :| u in pruned && u.job == j;
    assert TicketOk(s, u);
    EnterQueue(s, k, now, dead);
    if Superseded(u, k, session) {
      assert u.job in Victims(pruned, k, session, s.records, dead);
    } else {
      assert Kept(k, session)(u);
      assert u in Supersede(pruned, k, session);
      assert u in ApplyEnter(s, k, now, dead).queue;
    }
  }

  /** With suffix-free ids the entering job itself gets a ticket. */
  lemma EnterWrites(s: State, j: string, now: nat, dead: set<string>)
    requires QueueInv(s) && CanEnter(s, j, now, dead) && SuffixFree(s.specs.Keys)
    ensures HasTicket(ApplyEnter(s, j, now, dead).queue, j) && ApplyEnter(s, j, now, dead).arrivals == s.arrivals + [j]
  {
    EnterQueue(s, j, now, dead);
    var others := Supersede(Prune(s.queue, s.records, dead), j, s.specs[j].session);
    NothingFound(s, j, others);
    var n := Ticket(now, j, Need(s, j), s.specs[j].session, true);
    assert n in others + [n];
  }

  lemma NothingFound(s: State, j: string, others: seq<Ticket>)
    requires QueueInv(s) && Known(s, j) && s.phases[j].Launched? && SuffixFree(s.specs.Keys) && Subsequence(others, s.queue)
    ensures Find(others, j).None?
  {
    OrderedPart(others, s.queue);
    forall t | t in others
      ensures t.job in s.specs.Keys && t.job != j
    {
      assert TicketOk(s, t);
    }
    FindOwn(others, j, s.specs.Keys);
  }

  lemma WithdrawKeepsOthers(s: State, k: string, j: string)
    requires QueueInv(s) && Known(s, k) && SuffixFree(s.specs.Keys) && j != k && HasTicket(s.queue, j)
    ensures HasTicket(Remove(s.queue, k), j)
  {
    var t :| t in s.queue && t.job == j;
    forall u | u in s.queue
      ensures u.job in s.specs.Keys
    {
      assert TicketOk(s, u);
    }
    FindOwn(s.queue, k, s.specs.Keys);
    RemoveKeeps(s.queue, k, t);
  }

  lemma RemoveKeeps(q: seq<Ticket>, k: string, t: Ticket)
    requires t in q && (Find(q, k).Some? ==> q[Find(q, k).value] != t)
    ensures t in Remove(q, k)
  {
    var i :| 0 <= i < |q| && q[i] == t;
    if Find(q, k).Some? {
      var m := Find(q, k).value;
      assert i < m ==> q[..m][i] == t;
      assert i > m ==> q[m + 1..][i - m - 1] == t;
    }
  }

  lemma AdmitKeepsWaiter(s: State, k: string, j: string)
    requires Inv(s) && At(s, k, Granted) && HasTicket(s.queue, j) && j != k
    ensures HasTicket(ApplyAdmit(s, k).queue, j)
  {
    var t :| t in s.queue && t.job == j;
    AdmitKeepsOthers(s, k, t);
  }

  lemma TicketAccounted(s: State, step: Step, j: string)
    requires Inv(s) && Enabled(s, step) && SuffixFree(s.specs.Keys)
    requires Known(s, j) && s.phases[j].Waiting? && !Final(s.records[j].state) && HasTicket(s.queue, j)
    requires j in Apply(s, step).phases && Apply(s, step).phases[j].Waiting?
    ensures HasTicket(Apply(s, step).queue, j) || j in Apply(s, step).cancels
  {
    if step.Enter? {
      EnterAccounts(s, step.job, step.now, step.dead, j);
    } else if step.Poll? || step.Snapshot? {
      PruneKeepsLive(s, step.dead, j);
    } else if step.Withdraw? {
      WithdrawKeepsOthers(s, step.job, j);
    } else if step.Admit? {
      AdmitKeepsWaiter(s, step.job, j);
    } else {
      QueueUnchanged(s, step);
    }
  }

  lemma UndoerHasTicket(s: State, j: string)
    requires Inv(s) && CanUndo(s, j)
    ensures HasTicket(s.queue, j)
  {
    assert LeaseOk(s.phases[j], j, Need(s, j), s.mutex, s.locks);
    assert s.queue[0] in s.queue;
  }

  /** A worker that waits before and after the step stays accounted for. */
  lemma StillAccounted(s: State, step: Step, j: string)
    requires WaitInv(s) && Enabled(s, step) && SuffixFree(s.specs.Keys) && j in s.phases && s.phases[j].Waiting?
    requires j in Apply(s, step).phases && Apply(s, step).phases[j].Waiting?
    ensures Accounted(Apply(s, step), j)
  {
    CancelsGrow(s, step);
    assert JobHistory.JobOk(s, j);
    if Final(s.records[j].state) {
      JobHistory.FinalAbsorbs(s, step, j);
    } else if HasTicket(s.queue, j) {
      TicketAccounted(s, step, j);
    }
  }

  lemma AccountedStep(s: State, step: Step, j: string)
    requires WaitInv(s) && Enabled(s, step) && SuffixFree(s.specs.Keys)
    requires j in Apply(s, step).phases && Apply(s, step).phases[j].Waiting?
    ensures Accounted(Apply(s, step), j)
  {
    if (step.Enter? || step.Undo?) && step.job == j {
      NewlyWaiting(s, step);
    } else {
      BecomesWaiting(s, step, j);
      StillAccounted(s, step, j);
    }
  }

  /** A worker that starts or resumes waiting has a ticket. */
  lemma NewlyWaiting(s: State, step: Step)
    requires Inv(s) && Enabled(s, step) && SuffixFree(s.specs.Keys) && (step.Enter? || step.Undo?)
    ensures HasTicket(Apply(s, step).queue, step.job)
  {
    if step.Enter? {
      EnterWrites(s, step.job, step.now, step.dead);
    } else {
      UndoerHasTicket(s, step.job);
      UndoFrame(s, step.job);
    }
  }

  lemma WaitStep(s: State, step: Step)
    requires WaitInv(s) && Enabled(s, step)
    ensures WaitInv(Apply(s, step))
  {
    var t := Apply(s, step);
    InvNext(s, step, t);
    JobHistory.HistoryStep(s, step);
    CancelsGrow(s, step);
    if SuffixFree(t.specs.Keys) {
      forall j | j in t.phases && t.phases[j].Waiting?
        ensures Accounted(t, j)
      {
        AccountedStep(s, step, j);
      }
    }
  }

  /** With suffix-free job ids no live waiting worker loses its place in the queue: it has a
      ticket, or was asked to cancel, or its job is already final. */
  lemma NoWaiterIsLost(s: State, capacity: nat, files: nat, j: string)
    requires 1 <= capacity <= files && Reachable(s, capacity, files) && SuffixFree(s.specs.Keys)
    requires j in s.phases && s.phases[j].Waiting?
    ensures Accounted(s, j)
  {
    forall p, step, q | Next(p, step, q) && WaitInv(p)
      ensures WaitInv(q)
    {
      WaitStep(p, step);
    }
    forall p | StartsAs(capacity, files)(p)
      ensures WaitInv(p)
    {
      assert Owners([]) == [];
    }
    ArisesInvariant(StartsAs(capacity, files), Next, WaitInv, s);
  }

  lemma PruneDropsFinal(s: State, dead: set<string>, j: string)
    requires j in s.records && Final(s.records[j].state)
    ensures !HasTicket(Prune(s.queue, s.records, dead), j)
  {
  }

  /** Exactly when a waiting worker is stranded by its own next poll: its job has been finalized
      by another process, or its ticket was already gone. */
  lemma StrandedExactly(s: State, capacity: nat, files: nat, j: string, dead: set<string>)
    requires 1 <= capacity <= files && Reachable(s, capacity, files) && CanPoll(s, j, dead)
    ensures Orphaned(ApplyPoll(s, j, dead), j) <==> Final(s.records[j].state) || !HasTicket(s.queue, j)
  {
    InvReachable(s, capacity, files);
    var pruned := Prune(s.queue, s.records, dead);
    if Final(s.records[j].state) {
      PruneDropsFinal(s, dead, j);
    } else if HasTicket(s.queue, j) {
      PruneKeepsLive(s, dead, j);
    }
    assert forall t :: t in pruned ==> t in s.queue;
    assert pruned != [] ==> pruned[0] in pruned;
  }

  /** With suffix-free ids a waiting worker that was not asked to cancel is stranded by its next
      poll if and only if its job has already been finalized. */
  lemma StrandedIff(s: State, capacity: nat, files: nat, j: string, dead: set<string>)
    requires 1 <= capacity <= files && Reachable(s, capacity, files) && SuffixFree(s.specs.Keys)
    requires CanPoll(s, j, dead) && j !in s.cancels
    ensures Orphaned(ApplyPoll(s, j, dead), j) <==> Final(s.records[j].state)
  {
    StrandedExactly(s, capacity, files, j, dead);
    NoWaiterIsLost(s, capacity, files, j);
  }

  // ---------------------------------------------------------------- snapshot

  /** The text read from a locked slot names its current holder, in slot order. */
  lemma {:induction false} HolderTextsNamed(s: State, i: nat)
    requires PermitInv(s) && i <= |s.locks|
    ensures forall x :: x in Pool.HolderTexts(s.locks, s.notes, i) ==> exists k :: i <= k < |s.locks| && s.locks[k] == Some(x)
    decreases |s.locks| - i
  {
    if i < |s.locks| {
      HolderTextsNamed(s, i + 1);
    }
  }

  /** What a report says, taken under the queue lock: permits add up, and a waiter is blocked by
      exactly the older waiters and the texts of the locked slots, each of which names a current
      holder; by no one twice and never by itself. */
  lemma SnapshotAgrees(s: State, capacity: nat, j: string, dead: set<string>)
    requires 1 <= capacity && Reachable(s, capacity, capacity) && s.mutex.None?
    ensures |s.notes| == |s.locks|
    ensures var r := Pool.Snapshot(capacity, Prune(s.queue, s.records, dead), s.locks, s.notes, j);
            && r.held + r.available == capacity && r.held == |TakenFrom(s.locks, 0)|
            && (r.waiter.Some? ==> NoDuplicates(r.waiter.value.blockedBy) && j !in r.waiter.value.blockedBy)
    ensures var q := Prune(s.queue, s.records, dead);
            var r := Pool.Snapshot(capacity, q, s.locks, s.notes, j);
            && (r.waiter.Some? <==> HasTicket(q, j))
            && (r.waiter.Some? ==>
                  forall x :: x in r.waiter.value.blockedBy <==> Older(q, j, x) || (x != "" && Holds(s.locks, x)))
  {
    InvReachable(s, capacity, capacity);
    FreePlusTaken(s.locks, 0);
    var q := Prune(s.queue, s.records, dead);
    if Pool.Position(q, j).Some? {
      NotBlockedByItself(s, q, j, dead);
      Blockers(s, q, j);
    }
  }

  lemma {:induction false} DistinctSize(q: seq<string>)
    requires NoDuplicates(q)
    ensures |set x | x in q| == |q|
  {
    if q != [] {
      DistinctSize(q[1..]);
      assert q == [q[0]] + q[1..];
      assert (set x | x in q) == {q[0]} + set x | x in q[1..];
    }
  }

  lemma QueuedOwners(q: seq<Ticket>)
    requires Ordered(q)
    ensures |set x | HasTicket(q, x) && x in Owners(q)| == |q|
  {
    var owners := Owners(q);
    forall i, k | 0 <= i < k < |owners|
      ensures owners[i] != owners[k]
    {
      assert Before(q[i], q[k]);
    }
    DistinctSize(owners);
    forall x | x in owners
      ensures HasTicket(q, x)
    {
      var i :| 0 <= i < |owners| && owners[i] == x;
      assert q[i] in q && q[i].job == x;
    }
    assert (set x | HasTicket(q, x) && x in owners) == set x | x in owners;
  }

  /** The permits of a heavy or exclusive job. */
  predicate Asks(s: State, j: string, permits: nat) {
    j in s.specs && permits == if s.specs[j].weight.Exclusive? then s.capacity else 1
  }

  lemma TicketAsks(s: State, t: Ticket)
    requires QueueInv(s) && t in s.queue
    ensures Asks(s, t.job, t.permits)
  {
    assert TicketOk(s, t);
  }

  lemma {:induction false} DistinctOwn(a: seq<string>)
    requires NoDuplicates(a)
    ensures Pool.Distinct(a) == a
  {
    if a != [] {
      var n := |a| - 1;
      assert a == a[..n] + [a[n]];
      DistinctOwn(a[..n]);
    }
  }

  lemma {:induction false} DistinctPrefix(a: seq<string>, b: seq<string>)
    requires NoDuplicates(a)
    ensures a <= Pool.Distinct(a + b)
    decreases |b|
  {
    if b == [] {
      assert a + b == a;
      DistinctOwn(a);
    } else {
      var n := |b| - 1;
      assert (a + b)[..|a + b| - 1] == a + b[..n];
      DistinctPrefix(a, b[..n]);
    }
  }

  lemma OwnersDistinct(q: seq<Ticket>, i: nat)
    requires Ordered(q) && i <= |q|
    ensures NoDuplicates(Owners(q[..i]))
  {
    forall m, k | 0 <= m < k < i
      ensures q[m].job != q[k].job
    {
      assert Before(q[m], q[k]);
    }
  }

  /** The other figures of a report: how many jobs are queued, whether one of them waits for all permits,
      the waiter's place among them and what it asks for; its blockers start with the older waiters in
      their order. */
  lemma SnapshotCounts(s: State, capacity: nat, files: nat, j: string, dead: set<string>)
    requires 1 <= capacity <= files && Reachable(s, capacity, files) && |s.notes| == |s.locks|
    ensures var q := Prune(s.queue, s.records, dead);
            var r := Pool.Snapshot(capacity, q, s.locks, s.notes, j);
            && r.queued == |set x | HasTicket(q, x) && x in Owners(q)|
            && (r.exclusiveWaiting <==> exists t :: t in q && Asks(s, t.job, capacity))
            && (r.waiter.Some? ==> && 1 <= r.waiter.value.position <= r.queued && q[r.waiter.value.position - 1].job == j
                                   && Asks(s, j, r.waiter.value.permits)
                                   && Owners(q[..r.waiter.value.position - 1]) <= r.waiter.value.blockedBy)
  {
    InvReachable(s, capacity, files);
    var q := Prune(s.queue, s.records, dead);
    FilterSubsequence(s.queue, Fresh(s.records, dead));
    OrderedPart(q, s.queue);
    QueuedOwners(q);
    forall t | t in q
      ensures Asks(s, t.job, t.permits)
    {
      TicketAsks(s, t);
    }
    var p := Pool.Position(q, j);
    if p.Some? {
      assert q[p.value] in q;
      OwnersDistinct(q, p.value);
      DistinctPrefix(Owners(q[..p.value]), Pool.HolderTexts(s.locks, s.notes, 0));
    }
  }

  /** Job `x` has a ticket before the first one of job `j`. */
  ghost predicate Older(q: seq<Ticket>, j: string, x: string) {
    exists i, k :: 0 <= i < k < |q| && q[i].job == x && q[k].job == j && forall m :: 0 <= m < k ==> q[m].job != j
  }

  ghost predicate Holds(locks: Locks, x: string) {
    exists k :: 0 <= k < |locks| && locks[k] == Some(x)
  }

  lemma {:induction false} HolderTextsComplete(s: State, i: nat, k: nat)
    requires PermitInv(s) && i <= k < |s.locks| && s.locks[k].Some? && s.locks[k].value != ""
    ensures s.locks[k].value in Pool.HolderTexts(s.locks, s.notes, i)
    decreases k - i
  {
    if i < k {
      HolderTextsComplete(s, i + 1, k);
    }
  }

  lemma {:induction false} HolderTextsNonempty(s: State, i: nat)
    requires PermitInv(s) && i <= |s.locks|
    ensures "" !in Pool.HolderTexts(s.locks, s.notes, i)
    decreases |s.locks| - i
  {
    if i < |s.locks| {
      HolderTextsNonempty(s, i + 1);
    }
  }

  lemma Blockers(s: State, q: seq<Ticket>, j: string)
    requires PermitInv(s) && Pool.Position(q, j).Some?
    ensures var i := Pool.Position(q, j).value;
            forall x :: x in Owners(q[..i]) + Pool.HolderTexts(s.locks, s.notes, 0) <==>
                        Older(q, j, x) || (x != "" && Holds(s.locks, x))
  {
    var i := Pool.Position(q, j).value;
    var texts := Pool.HolderTexts(s.locks, s.notes, 0);
    HolderTextsNamed(s, 0);
    HolderTextsNonempty(s, 0);
    forall x
      ensures x in texts <==> x != "" && Holds(s.locks, x)
    {
      if x != "" && Holds(s.locks, x) {
        var k :| 0 <= k < |s.locks| && s.locks[k] == Some(x);
        HolderTextsComplete(s, 0, k);
      }
    }
    forall x
      ensures x in Owners(q[..i]) <==> Older(q, j, x)
    {
      if x in Owners(q[..i]) {
        var m :| 0 <= m < i && q[..i][m].job == x;
        assert q[m].job == x && q[i].job == j;
      }
      if Older(q, j, x) {
        var m, k :| 0 <= m < k < |q| && q[m].job == x && q[k].job == j && forall n :: 0 <= n < k ==> q[n].job != j;
        assert k == i;
        assert Owners(q[..i])[m] == x;
      }
    }
  }

  lemma NotBlockedByItself(s: State, q: seq<Ticket>, j: string, dead: set<string>)
    requires Inv(s) && s.mutex.None? && q == Prune(s.queue, s.records, dead) && Pool.Position(q, j).Some?
    ensures j !in Owners(q[..Pool.Position(q, j).value]) + Pool.HolderTexts(s.locks, s.notes, 0)
  {
    var i := Pool.Position(q, j).value;
    assert q[i] in q && q[i] in s.queue;
    OwnersHoldNothing(s, q[i]);
    HolderTextsNamed(s, 0);
    assert forall k :: 0 <= k < |s.locks| && s.locks[k] == Some(j) ==> k in Held(s.locks, j);
  }

  lemma {:induction false} NoTextsAllFree(s: State, i: nat)
    requires PermitInv(s) && "" !in s.phases && i <= |s.locks| && Pool.HolderTexts(s.locks, s.notes, i) == []
    ensures forall k :: i <= k < |s.locks| ==> s.locks[k] == None
    decreases |s.locks| - i
  {
    if i < |s.locks| {
      NoTextsAllFree(s, i + 1);
    }
  }

  lemma DistinctEmpty(q: seq<string>)
    requires Pool.Distinct(q) == []
    ensures q == []
  {
    assert forall i :: 0 <= i < |q| ==> q[i] in q;
  }

  /** A waiting job reported as blocked by nobody is admitted by its own next poll. */
  lemma UnblockedIsAdmitted(s: State, capacity: nat, j: string, dead: set<string>)
    requires 1 <= capacity && Reachable(s, capacity, capacity) && "" !in s.phases
    requires CanPoll(s, j, dead)
    requires |s.notes| == |s.locks|
    requires var r := Pool.Snapshot(capacity, Prune(s.queue, s.records, dead), s.locks, s.notes, j);
             r.waiter.Some? && r.waiter.value.blockedBy == []
    ensures exists t :: Polling.Polls(s, j, true, t) && t.phases == s.phases[j := Leased]
  {
    InvReachable(s, capacity, capacity);
    var q := Prune(s.queue, s.records, dead);
    var i := Pool.Position(q, j).value;
    var blockers := Owners(q[..i]) + Pool.HolderTexts(s.locks, s.notes, 0);
    DistinctEmpty(blockers);
    assert |Owners(q[..i])| == i;
    assert Pool.HolderTexts(s.locks, s.notes, 0) == [];
    NoTextsAllFree(s, 0);
    Polling.IdlePoolAdmitsHead(s, capacity, capacity, j, dead);
  }
}
