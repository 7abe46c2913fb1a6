/** One poll as the machine runs it: it refines the scan of `_try_slots`, it admits the head of
    the queue when enough slots are free, and it always gives the queue lock back. */
module Polling {
  import opened Collections
  import opened Lifecycle
  import opened Queue
  import opened Slots
  import opened Runs
  import opened Runner
  import opened Permits
  import opened Fifo
  import opened FifoResults

  /** A step of job `j`'s own poll or, unless `quiet`, another worker ending its command, failing
      its setup, raising, crashing or releasing a slot. */
  predicate PollMove(j: string, quiet: bool, a: Step) {
    || ((a.Poll? || a.TrySlot? || a.Undo? || a.Admit?) && a.job == j)
    || (!quiet && Ends(a) && a.job != j)
  }

  predicate Ends(a: Step) {
    a.ReleaseOne? || a.Finish? || a.Interrupt? || a.SetupFail? || a.Escape? || a.Crash?
  }

  ghost function PollMoves(j: string, quiet: bool): (State, Step, State) -> bool {
    (p: State, a: Step, q: State) => Next(p, a, q) && PollMove(j, quiet, a)
  }

  /** `t` arises from `s` by such steps alone. */
  ghost predicate Polls(s: State, j: string, quiet: bool, t: State) {
    Arises(Exactly(s), PollMoves(j, quiet), t)
  }

  lemma PollsSelf(s: State, j: string, quiet: bool)
    ensures Polls(s, j, quiet, s)
  {
    assert After(Exactly(s), PollMoves(j, quiet), s, 0);
  }

  lemma PollsNext(s: State, j: string, quiet: bool, p: State, a: Step, q: State)
    requires Polls(s, j, quiet, p) && Enabled(p, a) && q == Apply(p, a) && PollMove(j, quiet, a)
    ensures Polls(s, j, quiet, q)
  {
    ArisesNext(Exactly(s), PollMoves(j, quiet), p, a, q);
  }

  /** Which slots others give up before each attempt of a scan: any, or none if `quiet`. */
  ghost predicate Schedule(locks: Locks, quiet: bool, freed: seq<set<nat>>) {
    |freed| == |locks| && (quiet ==> forall m :: 0 <= m < |freed| ==> freed[m] == {})
  }

  /** Between the two states job `j` may have polled, and, unless `quiet`, other workers may have
      come to the release of their leases. */
  ghost predicate Beside(s: State, t: State, j: string, quiet: bool) {
    && t == s.(phases := t.phases, records := t.records, histories := t.histories,
               locks := t.locks, notes := t.notes, mutex := t.mutex)
    && t.phases.Keys == s.phases.Keys && t.records.Keys == s.records.Keys && t.histories.Keys == s.histories.Keys
    && (forall k :: k in s.phases && k != j ==>
          t.phases[k] == s.phases[k] || (!quiet && t.phases[k].Releasing? && !Inactive(s.phases[k])))
    && (quiet ==> t.records == s.records && t.histories == s.histories)
    && (forall k :: k in s.records && (k == j || Final(s.records[k].state)) ==> t.records[k] == s.records[k])
    && |t.locks| == |s.locks|
  }

  lemma BesideThen(s: State, p: State, t: State, j: string, quiet: bool)
    requires Beside(s, p, j, quiet) && Beside(p, t, j, quiet)
    ensures Beside(s, t, j, quiet)
  {
  }

  lemma ConcludeBeside(s: State, k: string, j: string)
    requires Known(s, k) && k != j && s.phases[k].Executing?
    ensures var p := Conclude(s, k, Passed, 0);
            Beside(s, p, j, false) && p.locks == s.locks && p.mutex == s.mutex && p.phases[k].Releasing?
    ensures j in s.phases ==> Conclude(s, k, Passed, 0).phases[j] == s.phases[j]
  {
    MoveFrame(s, k, Passed, ExitWith(0));
  }

  lemma SetupBeside(s: State, k: string, j: string)
    requires Known(s, k) && k != j && s.phases[k].Leased?
    ensures var p := ApplySetupFail(s, k);
            Beside(s, p, j, false) && p.locks == s.locks && p.mutex == s.mutex && p.phases[k].Releasing?
    ensures j in s.phases ==> ApplySetupFail(s, k).phases[j] == s.phases[j]
  {
    MoveFrame(s, k, Failed, ExitWith(1));
  }

  lemma HolderPhase(s: State, k: string, i: nat)
    requires PermitInv(s) && s.mutex != Some(k) && i < |s.locks| && s.locks[i] == Some(k)
    ensures Known(s, k) && (s.phases[k].Releasing? || s.phases[k].Leased? || s.phases[k].Executing?)
  {
    assert LeaseOk(s.phases[k], k, Need(s, k), s.mutex, s.locks);
    assert i in Held(s.locks, k);
  }

  /** A worker that holds a slot outside the critical section can come to release its lease. */
  lemma StopWorker(s0: State, j: string, s: State, k: string, i: nat) returns (p: State)
    requires Polls(s0, j, false, s) && PermitInv(s) && k != j && s.mutex != Some(k)
    requires i < |s.locks| && s.locks[i] == Some(k)
    ensures Polls(s0, j, false, p) && PermitInv(p) && Beside(s, p, j, false)
    ensures p.locks == s.locks && p.mutex == s.mutex && k in p.phases && p.phases[k].Releasing?
    ensures j in s.phases ==> p.phases[j] == s.phases[j]
  {
    HolderPhase(s, k, i);
    if s.phases[k].Leased? {
      p := ApplySetupFail(s, k);
      PermitSetup(s, k);
      SetupBeside(s, k, j);
      PollsNext(s0, j, false, s, SetupFail(k), p);
    } else if s.phases[k].Executing? {
      p := Conclude(s, k, Passed, 0);
      PermitConclude(s, k, Passed, 0);
      ConcludeBeside(s, k, j);
      PollsNext(s0, j, false, s, Finish(k, 0), p);
    } else {
      p := s;
    }
  }

  lemma FreeOne(s0: State, j: string, s: State, i: nat) returns (t: State)
    requires Polls(s0, j, false, s) && PermitInv(s) && (s.mutex == Some(j) || s.mutex.None?)
    requires i < |s.locks| && s.locks[i].Some? && s.locks[i] != Some(j)
    ensures Polls(s0, j, false, t) && PermitInv(t) && Beside(s, t, j, false)
    ensures t.locks == s.locks[i := None] && t.mutex == s.mutex
    ensures j in s.phases ==> t.phases[j] == s.phases[j]
  {
    var k := s.locks[i].value;
    var p := StopWorker(s0, j, s, k, i);
    t := p.(locks := p.locks[i := None]);
    PermitRelease(p, k, i);
    PollsNext(s0, j, false, p, ReleaseOne(k, i), t);
  }

  lemma InterfereSplit(locks: Locks, j: string, freed: set<nat>, i: nat)
    requires i in freed
    ensures i < |locks| && locks[i].Some? && locks[i] != Some(j) ==>
              Interfere(locks[i := None], j, freed - {i}) == Interfere(locks, j, freed)
    ensures !(i < |locks| && locks[i].Some? && locks[i] != Some(j)) ==>
              Interfere(locks, j, freed - {i}) == Interfere(locks, j, freed)
  {
  }

  /** Whatever slots others are to give up, they can. */
  lemma {:induction false} InterfereRefines(s0: State, j: string, s: State, freed: set<nat>) returns (t: State)
    requires Polls(s0, j, false, s) && PermitInv(s) && (s.mutex == Some(j) || s.mutex.None?)
    ensures Polls(s0, j, false, t) && PermitInv(t) && Beside(s, t, j, false)
    ensures t.locks == Interfere(s.locks, j, freed) && t.mutex == s.mutex
    ensures j in s.phases ==> t.phases[j] == s.phases[j]
    decreases freed
  {
    if freed == {} {
      assert Interfere(s.locks, j, freed) == s.locks;
      t := s;
    } else {
      var i :| i in freed;
      InterfereSplit(s.locks, j, freed, i);
      if i < |s.locks| && s.locks[i].Some? && s.locks[i] != Some(j) {
        var p := FreeOne(s0, j, s, i);
        t := InterfereRefines(s0, j, p, freed - {i});
        BesideThen(s, p, t, j, false);
      } else {
        t := InterfereRefines(s0, j, s, freed - {i});
      }
    }
  }

  lemma {:induction false} UndoRefines(s0: State, j: string, quiet: bool, s: State)
    requires Polls(s0, j, quiet, s) && PermitInv(s) && Known(s, j) && s.phases[j].Undoing?
    ensures Polls(s0, j, quiet, s.(phases := s.phases[j := Waiting], mutex := None, locks := ReleaseAll(s.locks, j)))
    decreases |s.phases[j].acquired|
  {
    var acquired := s.phases[j].acquired;
    UndoEnabled(s, j);
    var p := ApplyUndo(s, j);
    PollsNext(s0, j, quiet, s, Undo(j), p);
    UndoShape(s, j);
    if acquired != [] {
      PermitUndo(s, j);
      UndoRefines(s0, j, quiet, p);
      assert p.phases[j := Waiting] == s.phases[j := Waiting];
    }
  }

  lemma UndoEnabled(s: State, j: string)
    requires PermitInv(s) && Known(s, j) && s.phases[j].Undoing?
    ensures CanUndo(s, j)
  {
    assert LeaseOk(s.phases[j], j, Need(s, j), s.mutex, s.locks);
    forall i | i in s.phases[j].acquired
      ensures i < |s.locks|
    {
      assert i in Held(s.locks, j);
    }
  }

  /** One step of the undoing gives one slot back, the last one the queue lock. */
  lemma UndoShape(s: State, j: string)
    requires PermitInv(s) && CanUndo(s, j)
    ensures var p, acquired := ApplyUndo(s, j), s.phases[j].acquired;
            && ReleaseAll(p.locks, j) == ReleaseAll(s.locks, j)
            && (acquired == [] ==> p == s.(phases := s.phases[j := Waiting], mutex := None) && s.locks == ReleaseAll(s.locks, j))
            && (acquired != [] ==> p == s.(phases := p.phases, locks := p.locks) && Known(p, j) && p.phases[j].Undoing?
                                   && |p.phases[j].acquired| < |acquired| && p.phases == s.phases[j := p.phases[j]])
  {
    var acquired := s.phases[j].acquired;
    assert LeaseOk(s.phases[j], j, Need(s, j), s.mutex, s.locks);
    if acquired == [] {
      NothingToRelease(s.locks, j);
    } else {
      assert acquired[|acquired| - 1] in acquired;
      assert acquired[|acquired| - 1] in Held(s.locks, j);
    }
  }

  /** What a scan leaves behind: the slots of `r`, and the worker granted or waiting again. */
  ghost predicate Scanned(s: State, j: string, quiet: bool, r: Outcome, t: State) {
    && Beside(s, t, j, quiet) && t.locks == r.locks
    && j in t.phases && t.phases[j] == (if r.lease.Some? then Granted else Waiting)
    && t.mutex == (if r.lease.Some? then s.mutex else None)
  }

  lemma ScanFails(s0: State, j: string, quiet: bool, s: State) returns (t: State)
    requires Polls(s0, j, quiet, s) && PermitInv(s) && Known(s, j) && s.phases[j].Scanning? && s.phases[j].next == |s.locks|
    ensures Polls(s0, j, quiet, t) && Scanned(s, j, quiet, Outcome(ReleaseAll(s.locks, j), None), t)
  {
    var p := Apply(s, TrySlot(j));
    PollsNext(s0, j, quiet, s, TrySlot(j), p);
    PermitTrySlot(s, j);
    UndoRefines(s0, j, quiet, p);
    t := p.(phases := p.phases[j := Waiting], mutex := None, locks := ReleaseAll(p.locks, j));
  }

  lemma Interrupted(s0: State, j: string, quiet: bool, s: State, freed: seq<set<nat>>, i: nat) returns (p: State)
    requires Polls(s0, j, quiet, s) && PermitInv(s) && Schedule(s.locks, quiet, freed) && i < |s.locks|
    requires s.mutex == Some(j) && j in s.phases
    ensures Polls(s0, j, quiet, p) && PermitInv(p) && Beside(s, p, j, quiet)
    ensures p.locks == Interfere(s.locks, j, freed[i]) && p.mutex == s.mutex && p.phases[j] == s.phases[j]
  {
    if quiet {
      p := s;
    } else {
      p := InterfereRefines(s0, j, s, freed[i]);
    }
  }

  /** One machine step on slot `i` does what one round of `Scan` does. */
  lemma TryShape(p: State, j: string, i: nat, acquired: seq<nat>)
    requires CanTry(p, j) && p.phases[j] == Phase.Scanning(i, acquired) && i < |p.locks|
    ensures var q := ApplyTrySlot(p, j);
            && q == p.(phases := p.phases[j := q.phases[j]], locks := q.locks, notes := q.notes)
            && (if p.locks[i].Some? then q.locks == p.locks && q.phases[j] == Phase.Scanning(i + 1, acquired)
                else q.locks == p.locks[i := Some(j)]
                     && q.phases[j] == if |acquired| + 1 == Need(p, j) then Granted else Phase.Scanning(i + 1, acquired + [i]))
  {
  }

  /** The scan from slot `i` on is the scan from the next slot on, after one machine step. */
  lemma ScanRound(locks: Locks, j: string, need: nat, freed: seq<set<nat>>, i: nat, acquired: seq<nat>, after: Locks, p: Phase)
    requires |freed| == |locks| && i < |locks|
    requires var now := Interfere(locks, j, freed[i]);
             if now[i].Some? then after == now && p == Phase.Scanning(i + 1, acquired)
             else after == now[i := Some(j)]
                  && p == if |acquired| + 1 == need then Granted else Phase.Scanning(i + 1, acquired + [i])
    ensures p.Granted? ==> Scan(locks, j, need, freed, i, acquired) == Outcome(after, Some(acquired + [i]))
    ensures p.Scanning? ==> |after| == |locks| && Scan(locks, j, need, freed, i, acquired) == Scan(after, j, need, freed, i + 1, p.acquired)
  {
  }

  lemma TryBeside(p: State, j: string, quiet: bool)
    requires CanTry(p, j)
    ensures Beside(p, ApplyTrySlot(p, j), j, quiet) && ApplyTrySlot(p, j).mutex == p.mutex
  {
    TrySlotSize(p, j);
    TrySlotFrame(p, j);
  }

  lemma ScanAttempt(s0: State, j: string, quiet: bool, s: State, freed: seq<set<nat>>, i: nat, acquired: seq<nat>) returns (q: State)
    requires Polls(s0, j, quiet, s) && PermitInv(s) && Schedule(s.locks, quiet, freed)
    requires Known(s, j) && s.phases[j] == Phase.Scanning(i, acquired) && i < |s.locks|
    ensures Polls(s0, j, quiet, q) && PermitInv(q) && Beside(s, q, j, quiet) && q.mutex == s.mutex && Known(q, j)
    ensures q.phases[j].Granted? ==> Scan(s.locks, j, Need(s, j), freed, i, acquired) == Outcome(q.locks, Some(acquired + [i]))
    ensures !q.phases[j].Granted? ==>
              && q.phases[j].Scanning? && q.phases[j].next == i + 1
              && Scan(s.locks, j, Need(s, j), freed, i, acquired) == Scan(q.locks, j, Need(s, j), freed, i + 1, q.phases[j].acquired)
  {
    assert LeaseOk(s.phases[j], j, Need(s, j), s.mutex, s.locks);
    var p := Interrupted(s0, j, quiet, s, freed, i);
    q := ApplyTrySlot(p, j);
    PollsNext(s0, j, quiet, p, TrySlot(j), q);
    PermitTrySlot(p, j);
    TryShape(p, j, i, acquired);
    TryBeside(p, j, quiet);
    BesideThen(s, p, q, j, quiet);
    ScanRound(s.locks, j, Need(s, j), freed, i, acquired, q.locks, q.phases[j]);
  }

  /** The machine's slot-by-slot scan, interleaved with releases, computes `Scan`. */
  lemma {:induction false} ScanRefines(s0: State, j: string, quiet: bool, s: State, freed: seq<set<nat>>, i: nat, acquired: seq<nat>)
    returns (t: State)
    requires Polls(s0, j, quiet, s) && PermitInv(s) && Schedule(s.locks, quiet, freed)
    requires Known(s, j) && s.phases[j] == Phase.Scanning(i, acquired) && i <= |s.locks|
    ensures Polls(s0, j, quiet, t) && Scanned(s, j, quiet, Scan(s.locks, j, Need(s, j), freed, i, acquired), t)
    decreases |s.locks| - i
  {
    if i == |s.locks| {
      t := ScanFails(s0, j, quiet, s);
    } else {
      var q := ScanAttempt(s0, j, quiet, s, freed, i, acquired);
      if q.phases[j].Granted? {
        t := q;
      } else {
        t := ScanRefines(s0, j, quiet, q, freed, i + 1, q.phases[j].acquired);
        BesideThen(s, q, t, j, quiet);
      }
    }
  }

  /** What a whole poll of a queue head leaves behind, given the scan's outcome. */
  ghost predicate Polled(s: State, j: string, dead: set<string>, quiet: bool, r: Outcome, t: State) {
    var pruned := Prune(s.queue, s.records, dead);
    && t.locks == r.locks && t.mutex == None && t.specs == s.specs && t.clock == s.clock && t.capacity == s.capacity
    && t.queue == (if r.lease.Some? && pruned != [] then pruned[1..] else pruned)
    && t.phases.Keys == s.phases.Keys && t.records.Keys == s.records.Keys
    && j in t.phases && t.phases[j] == (if r.lease.Some? then Leased else Waiting)
    && (forall k :: k in s.phases && k != j ==> t.phases[k] == s.phases[k] || (!quiet && t.phases[k].Releasing?))
    && (quiet ==> t.records == s.records)
    && (j in s.records ==> t.records[j] == s.records[j])
  }

  lemma AfterScan(s: State, j: string, dead: set<string>, quiet: bool, t: State, r: Outcome)
    requires Known(s, j) && Polls(s, j, quiet, t) && s.mutex.None? && Scanned(ApplyPoll(s, j, dead), j, quiet, r, t)
    requires var pruned := Prune(s.queue, s.records, dead); pruned != [] && pruned[0].job == j
    ensures exists u :: Polls(s, j, quiet, u) && Polled(s, j, dead, quiet, r, u)
  {
    if r.lease.Some? {
      RemoveHead(t.queue, j);
      var u := ApplyAdmit(t, j);
      PollsNext(s, j, quiet, t, Admit(j), u);
      assert Polled(s, j, dead, quiet, r, u);
    } else {
      assert Polled(s, j, dead, quiet, r, t);
    }
  }

  /** What the pool's class requires of a poll holds whenever a waiting worker can poll: the listing
      is sorted, the text of a locked slot file names its holder, the worker holds no slot. */
  lemma PollIsSafe(s: State, capacity: nat, files: nat, j: string, dead: set<string>)
    requires 1 <= capacity <= files && Reachable(s, capacity, files) && CanPoll(s, j, dead)
    ensures Sorted(s.queue) && capacity <= |s.locks| == |s.notes|
    ensures forall i :: 0 <= i < |s.locks| && s.locks[i].Some? ==> s.notes[i] == s.locks[i].value
    ensures Held(s.locks, j) == {} && Need(s, j) >= 1
  {
    InvReachable(s, capacity, files);
    ListingIsSorted(s);
    assert LeaseOk(s.phases[j], j, Need(s, j), s.mutex, s.locks);
  }

  /** The poll of the pool's class is a run of the machine: whatever slots other workers give up
      during the scan, by ending, crashing or releasing, the machine can reach exactly the
      directory, locks and outcome that the method `Poll` promises. */
  lemma PollRefines(s: State, j: string, dead: set<string>, quiet: bool, freed: seq<set<nat>>)
    requires Inv(s) && CanPoll(s, j, dead) && Schedule(s.locks, quiet, freed)
    requires var pruned := Prune(s.queue, s.records, dead); pruned != [] && pruned[0].job == j
    ensures exists t :: Polls(s, j, quiet, t) && Polled(s, j, dead, quiet, Scan(s.locks, j, Need(s, j), freed, 0, []), t)
  {
    var p := ApplyPoll(s, j, dead);
    PollsSelf(s, j, quiet);
    PollsNext(s, j, quiet, s, Step.Poll(j, dead), p);
    PermitPoll(s, j, dead);
    var t := ScanRefines(s, j, quiet, p, freed, 0, []);
    AfterScan(s, j, dead, quiet, t, Scan(s.locks, j, Need(s, j), freed, 0, []));
  }

  function Nobody(n: nat): (f: seq<set<nat>>)
    ensures |f| == n && forall m :: 0 <= m < n ==> f[m] == {}
  {
    seq(n, _ => {})
  }

  /** By its own next poll, undisturbed, the head of the queue is admitted if enough slots are
      free; otherwise it waits on with every lock as it was. */
  lemma HeadPollDecides(s: State, j: string, dead: set<string>)
    requires Inv(s) && CanPoll(s, j, dead)
    requires var pruned := Prune(s.queue, s.records, dead); pruned != [] && pruned[0].job == j
    ensures exists t :: && Polls(s, j, true, t)
                        && t.phases == s.phases[j := if FreeFrom(s.locks, 0) >= Need(s, j) then Leased else Waiting]
                        && (FreeFrom(s.locks, 0) < Need(s, j) ==> t.locks == s.locks)
  {
    var freed := Nobody(|s.locks|);
    PollRefines(s, j, dead, true, freed);
    QuietOutcome(s, j);
    var r := Scan(s.locks, j, Need(s, j), freed, 0, []);
    var t :| Polls(s, j, true, t) && Polled(s, j, dead, true, r, t);
    QuietPhases(s, j, dead, r, t);
  }

  lemma QuietPhases(s: State, j: string, dead: set<string>, r: Outcome, t: State)
    requires j in s.phases && Polled(s, j, dead, true, r, t)
    ensures t.phases == s.phases[j := if r.lease.Some? then Leased else Waiting]
  {
  }

  lemma QuietOutcome(s: State, j: string)
    requires PermitInv(s) && Known(s, j) && s.phases[j].Waiting?
    ensures var r := Scan(s.locks, j, Need(s, j), Nobody(|s.locks|), 0, []);
            && (r.lease.Some? <==> FreeFrom(s.locks, 0) >= Need(s, j))
            && (r.lease.None? ==> r.locks == s.locks)
  {
    assert LeaseOk(s.phases[j], j, Need(s, j), s.mutex, s.locks);
    assert Indices([]) == {};
    QuietScan(s.locks, j, Need(s, j), Nobody(|s.locks|), 0, []);
    NothingToRelease(s.locks, j);
  }

  lemma NothingToRelease(locks: Locks, j: string)
    requires Held(locks, j) == {}
    ensures ReleaseAll(locks, j) == locks
  {
    assert forall i :: 0 <= i < |locks| && locks[i] == Some(j) ==> i in Held(locks, j);
  }

  lemma {:induction false} AllFree(locks: Locks, i: nat)
    requires i <= |locks| && forall k :: 0 <= k < |locks| ==> locks[k] == None
    ensures FreeFrom(locks, i) == |locks| - i
    decreases |locks| - i
  {
    if i < |locks| {
      AllFree(locks, i + 1);
    }
  }

  /** In every reachable state in which no permit is held, the head of the pruned queue, if its
      worker waits, is admitted by its own next poll. */
  lemma IdlePoolAdmitsHead(s: State, capacity: nat, files: nat, j: string, dead: set<string>)
    requires 1 <= capacity <= files && Reachable(s, capacity, files)
    requires forall k :: 0 <= k < |s.locks| ==> s.locks[k] == None
    requires CanPoll(s, j, dead)
    requires var pruned := Prune(s.queue, s.records, dead); pruned != [] && pruned[0].job == j
    ensures exists t :: Polls(s, j, true, t) && t.phases == s.phases[j := Leased]
  {
    InvReachable(s, capacity, files);
    IdlePoll(s, j, dead);
  }

  lemma IdlePoll(s: State, j: string, dead: set<string>)
    requires Inv(s) && CanPoll(s, j, dead) && forall k :: 0 <= k < |s.locks| ==> s.locks[k] == None
    requires var pruned := Prune(s.queue, s.records, dead); pruned != [] && pruned[0].job == j
    ensures exists t :: Polls(s, j, true, t) && t.phases == s.phases[j := Leased]
  {
    AllFree(s.locks, 0);
    HeadPollDecides(s, j, dead);
  }

  lemma PollsInv(s: State, j: string, quiet: bool, t: State)
    requires Inv(s) && Polls(s, j, quiet, t)
    ensures Inv(t)
  {
    forall p, a, q | PollMoves(j, quiet)(p, a, q) && Inv(p)
      ensures Inv(q)
    {
      InvNext(p, a, q);
    }
    ArisesInvariant(Exactly(s), PollMoves(j, quiet), Inv, t);
  }

  ghost function PolledFrom(s: State, j: string): State -> bool {
    (t: State) => Polls(s, j, false, t)
  }

  lemma PollsThen(s: State, j: string, p: State, t: State)
    requires Polls(s, j, false, p) && Polls(p, j, true, t)
    ensures Polls(s, j, false, t)
  {
    forall q, a, r | PollMoves(j, true)(q, a, r) && PolledFrom(s, j)(q)
      ensures PolledFrom(s, j)(r)
    {
      PollsNext(s, j, false, q, a, r);
    }
    ArisesInvariant(Exactly(p), PollMoves(j, true), PolledFrom(s, j), t);
  }

  /** The first element kept stays the first one when fewer are kept. */
  lemma {:induction false} FilterHead<T>(q: seq<T>, keep: T -> bool, fewer: T -> bool)
    requires Filter(q, keep) != [] && fewer(Filter(q, keep)[0]) && forall x :: x in q && fewer(x) ==> keep(x)
    ensures Filter(q, fewer) != [] && Filter(q, fewer)[0] == Filter(q, keep)[0]
  {
    if !keep(q[0]) {
      FilterHead(q[1..], keep, fewer);
    }
  }

  lemma HeadStays(s: State, p: State, j: string, dead: set<string>)
    requires Inv(s) && CanPoll(s, j, dead) && Beside(s, p, j, false) && p.mutex == s.mutex && p.phases[j] == s.phases[j]
    requires var pruned := Prune(s.queue, s.records, dead); pruned != [] && pruned[0].job == j
    ensures CanPoll(p, j, dead)
    ensures var pruned := Prune(p.queue, p.records, dead); pruned != [] && pruned[0].job == j
  {
    var head := Prune(s.queue, s.records, dead)[0];
    assert Fresh(s.records, dead)(head);
    FilterHead(s.queue, Fresh(s.records, dead), Fresh(p.records, dead));
  }

  /** No deadlock: from every reachable state, whatever permits are held, the other workers'
      ending and releasing steps and the head's own poll can admit the head of the pruned queue. */
  lemma HeadCanBeAdmitted(s: State, capacity: nat, files: nat, j: string, dead: set<string>)
    requires 1 <= capacity <= files && Reachable(s, capacity, files)
    requires CanPoll(s, j, dead)
    requires var pruned := Prune(s.queue, s.records, dead); pruned != [] && pruned[0].job == j
    ensures exists t :: Polls(s, j, false, t) && j in t.phases && t.phases[j].Leased?
  {
    InvReachable(s, capacity, files);
    HeadAdmittedFrom(s, j, dead);
  }

  lemma HeadAdmittedFrom(s: State, j: string, dead: set<string>)
    requires Inv(s) && CanPoll(s, j, dead)
    requires var pruned := Prune(s.queue, s.records, dead); pruned != [] && pruned[0].job == j
    ensures exists t :: Polls(s, j, false, t) && j in t.phases && t.phases[j].Leased?
  {
    var p := EveryoneReleases(s, j);
    HeadStays(s, p, j, dead);
    IdlePoll(p, j, dead);
    var t :| Polls(p, j, true, t) && t.phases == p.phases[j := Leased];
    PollsThen(s, j, p, t);
  }

  // ---------------------------------------------------------------- crashed workers

  /** While the queue lock is free, a prune that is told of every inactive job leaves only tickets of
      workers that wait, or have stopped waiting and are about to record it. */
  lemma PruneLeavesLive(s: State, dead: set<string>)
    requires Inv(s) && s.mutex.None? && forall k :: k in s.phases && Inactive(s.phases[k]) ==> k in dead
    ensures forall t :: t in Prune(s.queue, s.records, dead) ==>
              t.job in s.phases && (s.phases[t.job].Waiting? || s.phases[t.job].Quitting?)
  {
    PruneExactly(s.queue, s.records, dead);
    forall t | t in Prune(s.queue, s.records, dead)
      ensures t.job in s.phases && (s.phases[t.job].Waiting? || s.phases[t.job].Quitting?)
    {
      IdleOwner(s, t);
    }
  }

  /** In every reachable state a poll that is told of every inactive job leaves a queue without tickets
      of ended workers: it is empty, or its head waits or has stopped waiting. */
  lemma PollClearsEnded(s: State, capacity: nat, files: nat, j: string, dead: set<string>)
    requires 1 <= capacity <= files && Reachable(s, capacity, files) && CanPoll(s, j, dead)
    requires forall k :: k in s.phases && Inactive(s.phases[k]) ==> k in dead
    ensures forall t :: t in ApplyPoll(s, j, dead).queue ==>
              t.job in s.phases && (s.phases[t.job].Waiting? || s.phases[t.job].Quitting?)
  {
    InvReachable(s, capacity, files);
    PruneLeavesLive(s, dead);
  }

  lemma {:induction false} FilterFirst<T>(q: seq<T>, keep: T -> bool, k: nat)
    requires k < |q| && keep(q[k]) && forall i :: 0 <= i < k ==> !keep(q[i])
    ensures Filter(q, keep) != [] && Filter(q, keep)[0] == q[k]
  {
    if k > 0 {
      FilterFirst(q[1..], keep, k - 1);
    }
  }

  lemma OldestLiveIsHead(s: State, j: string, dead: set<string>, k: nat)
    requires Inv(s) && CanPoll(s, j, dead) && k < |s.queue| && s.queue[k].job == j && !Final(s.records[j].state)
    requires forall i :: 0 <= i < k ==> s.queue[i].job in dead
    ensures var pruned := Prune(s.queue, s.records, dead); pruned != [] && pruned[0].job == j
  {
    assert TicketOk(s, s.queue[k]);
    FilterFirst(s.queue, Fresh(s.records, dead), k);
  }

  /** A crashed worker never blocks the queue: in every reachable state, when only ended workers'
      tickets are ahead of a live waiter's, its own poll, told of them, and the other workers' ending
      and releasing steps can admit it. */
  lemma CrashedNeverBlocks(s: State, capacity: nat, files: nat, j: string, dead: set<string>, k: nat)
    requires 1 <= capacity <= files && Reachable(s, capacity, files) && CanPoll(s, j, dead)
    requires forall x :: x in s.phases && Inactive(s.phases[x]) ==> x in dead
    requires k < |s.queue| && s.queue[k].job == j && !Final(s.records[j].state)
    requires forall i :: 0 <= i < k ==> s.queue[i].job in s.phases && s.phases[s.queue[i].job].Gone?
    ensures exists t :: Polls(s, j, false, t) && j in t.phases && t.phases[j].Leased?
  {
    InvReachable(s, capacity, files);
    OldestLiveIsHead(s, j, dead, k);
    HeadAdmittedFrom(s, j, dead);
  }

  lemma EveryoneReleases(s: State, j: string) returns (p: State)
    requires Inv(s) && Known(s, j) && s.phases[j].Waiting? && s.mutex.None?
    ensures Polls(s, j, false, p) && Inv(p) && Beside(s, p, j, false)
    ensures p.mutex == s.mutex && p.phases[j] == s.phases[j]
    ensures forall k :: 0 <= k < |p.locks| ==> p.locks[k] == None
  {
    PollsSelf(s, j, false);
    p := InterfereRefines(s, j, s, Below(|s.locks|));
    assert LeaseOk(s.phases[j], j, Need(s, j), s.mutex, s.locks);
    NobodyHolds(s.locks, p.locks, j);
    PollsInv(s, j, false, p);
  }

  function Below(n: nat): (r: set<nat>)
    ensures forall i: nat :: i in r <==> i < n
  {
    if n == 0 then {} else Below(n - 1) + {n - 1}
  }

  lemma NobodyHolds(locks: Locks, after: Locks, j: string)
    requires Held(locks, j) == {} && after == Interfere(locks, j, Below(|locks|))
    ensures forall k :: 0 <= k < |after| ==> after[k] == None
  {
    assert forall k :: 0 <= k < |locks| && locks[k] == Some(j) ==> k in Held(locks, j);
  }

  /** Whoever holds the queue lock can give it back by its own steps alone. */
  lemma QueueLockIsReturned(s: State, capacity: nat, files: nat, j: string)
    requires 1 <= capacity <= files && Reachable(s, capacity, files) && s.mutex == Some(j)
    ensures exists t :: Polls(s, j, true, t) && t.mutex == None
  {
    InvReachable(s, capacity, files);
    LockReturned(s, j);
  }

  lemma LockReturned(s: State, j: string)
    requires Inv(s) && s.mutex == Some(j)
    ensures exists t :: Polls(s, j, true, t) && t.mutex == None
  {
    assert LeaseOk(s.phases[j], j, Need(s, j), s.mutex, s.locks);
    PollsSelf(s, j, true);
    match s.phases[j]
    case Undoing(acquired) => UndoRefines(s, j, true, s);
    case Granted => GrantReturnsLock(s, j, s);
    case Scanning(i, acquired) =>
      var t := ScanRefines(s, j, true, s, Nobody(|s.locks|), i, acquired);
      if t.mutex.Some? {
        GrantReturnsLock(s, j, t);
      }
  }

  lemma GrantReturnsLock(s: State, j: string, t: State)
    requires Polls(s, j, true, t) && At(t, j, Granted)
    ensures exists u :: Polls(s, j, true, u) && u.mutex == None
  {
    PollsNext(s, j, true, t, Admit(j), ApplyAdmit(t, j));
  }
}
