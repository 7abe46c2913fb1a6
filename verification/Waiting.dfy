/** How long a ticket can wait: over every continuation, only those ahead of it overtake it. */
module Waiting {
  import opened Collections
  import opened Lifecycle
  import opened Queue
  import opened Runs
  import opened Runner
  import opened Permits
  import opened Fifo
  import opened FifoResults

  /** The jobs admitted since the log was `before`. */
  function Since(before: seq<string>, after: seq<string>): seq<string>
    requires before <= after
  {
    after[|before|..]
  }

  // ---------------------------------------------------------------- the admission log and the clock

  /** A step appends at most its own job to the admission log, and no step sets the clock back. */
  lemma LogChange(s: State, step: Step)
    requires Enabled(s, step)
    ensures Apply(s, step).admitted == if step.Admit? then s.admitted + [step.job] else s.admitted
    ensures s.clock <= Apply(s, step).clock
  {
    if MovesRecord(step) {
      MovesRecordFrame(s, step);
    } else if step.TrySlot? {
      TrySlotFrame(s, step.job);
    } else if step.Undo? {
      UndoFrame(s, step.job);
    } else if step.Enter? {
      EnterFrame(s, step.job, step.now, step.dead);
    } else {
      LogChangeElsewhere(s, step);
    }
  }

  lemma LogChangeElsewhere(s: State, step: Step)
    requires Enabled(s, step) && !MovesRecord(step) && !step.TrySlot? && !step.Undo? && !step.Enter?
    ensures Apply(s, step).admitted == if step.Admit? then s.admitted + [step.job] else s.admitted
    ensures s.clock <= Apply(s, step).clock
  {
  }

  /** Only tickets of the future are written. */
  lemma NoOldTicketReturns(s: State, step: Step, u: Ticket)
    requires QueueInv(s) && Enabled(s, step) && u.time < s.clock && u in Apply(s, step).queue
    ensures u in s.queue
  {
    if step.Enter? {
      EnteredTickets(s, step.job, step.now, step.dead, u);
    } else {
      QueueChange(s, step);
      OrderedPart(Apply(s, step).queue, s.queue);
    }
  }

  lemma EnteredTickets(s: State, j: string, now: nat, dead: set<string>, u: Ticket)
    requires QueueInv(s) && CanEnter(s, j, now, dead) && u.time < s.clock && u in ApplyEnter(s, j, now, dead).queue
    ensures u in s.queue
  {
    EnterQueue(s, j, now, dead);
    OrderedPart(Supersede(Prune(s.queue, s.records, dead), j, s.specs[j].session), s.queue);
  }

  // ---------------------------------------------------------------- one step of a waiting ticket

  /** In `p`, reached from a state in which the ticket `u` was behind `ahead` and `before` had been
      admitted: if the ticket is still queued, those now ahead of it and those admitted meanwhile were
      all ahead of it. */
  ghost predicate Behind(ahead: seq<Ticket>, before: seq<string>, u: Ticket, p: State) {
    && before <= p.admitted && u.time < p.clock
    && (u in p.queue ==>
          && (forall i :: 0 <= i < |p.queue| && p.queue[i] == u ==> forall y :: y in p.queue[..i] ==> y in ahead)
          && (forall a :: a in Since(before, p.admitted) ==> a in Owners(ahead)))
  }

  lemma AdmittedWasAhead(ahead: seq<Ticket>, before: seq<string>, u: Ticket, p: State, j: string)
    requires Inv(p) && At(p, j, Granted) && Behind(ahead, before, u, p) && u in p.queue && u in ApplyAdmit(p, j).queue
    ensures j in Owners(ahead)
  {
    HeadIsAdmitted(p, j);
    HeadWasAhead(ahead, u, p.queue, j);
  }

  lemma LogGrows(before: seq<string>, log: seq<string>, j: string)
    requires before <= log
    ensures before <= log + [j] && Since(before, log + [j]) == Since(before, log) + [j]
  {
  }

  /** The head is ahead of every ticket that stays when it is removed. */
  lemma HeadWasAhead(ahead: seq<Ticket>, u: Ticket, q: seq<Ticket>, j: string)
    requires q != [] && q[0].job == j && Ordered(q) && u in q[1..]
    requires forall i :: 0 <= i < |q| && q[i] == u ==> forall y :: y in q[..i] ==> y in ahead
    ensures j in Owners(ahead)
  {
    var m :| 0 <= m < |q[1..]| && q[1..][m] == u;
    assert q[m + 1] == u && q[..m + 1][0] == q[0];
    assert q[0] in ahead;
    var n :| 0 <= n < |ahead| && ahead[n] == q[0];
    assert Owners(ahead)[n] == j;
  }

  lemma StaysAhead(ahead: seq<Ticket>, before: seq<string>, u: Ticket, p: State, step: Step, i: nat)
    requires Inv(p) && Enabled(p, step) && Behind(ahead, before, u, p) && u in p.queue
    requires i < |Apply(p, step).queue| && Apply(p, step).queue[i] == u
    ensures forall y :: y in Apply(p, step).queue[..i] ==> y in ahead
  {
    var k :| 0 <= k < |p.queue| && p.queue[k] == u;
    PositionNeverRises(p, step, i, k);
  }

  lemma StaysBehind(ahead: seq<Ticket>, before: seq<string>, u: Ticket, p: State, step: Step)
    requires Inv(p) && Enabled(p, step) && Behind(ahead, before, u, p)
    ensures Behind(ahead, before, u, Apply(p, step))
  {
    var q := Apply(p, step);
    LogChange(p, step);
    if step.Admit? {
      LogGrows(before, p.admitted, step.job);
    }
    if u in q.queue {
      NoOldTicketReturns(p, step, u);
      if step.Admit? {
        AdmittedWasAhead(ahead, before, u, p, step.job);
      }
      forall i | 0 <= i < |q.queue| && q.queue[i] == u
        ensures forall y :: y in q.queue[..i] ==> y in ahead
      {
        StaysAhead(ahead, before, u, p, step, i);
      }
    }
  }

  ghost function BehindFrom(ahead: seq<Ticket>, before: seq<string>, u: Ticket): State -> bool {
    (p: State) => Inv(p) && Behind(ahead, before, u, p)
  }

  lemma ContinuesBehind(s: State, t: State, k: nat)
    requires Inv(s) && Continues(s, t) && k < |s.queue|
    ensures Inv(t) && Behind(s.queue[..k], s.admitted, s.queue[k], t)
  {
    var inv := BehindFrom(s.queue[..k], s.admitted, s.queue[k]);
    assert TicketOk(s, s.queue[k]);
    forall i | 0 <= i < |s.queue| && s.queue[i] == s.queue[k]
      ensures i == k
    {
      OrderedIndices(s.queue, i, k);
    }
    assert inv(s);
    forall p, step, q | Next(p, step, q) && inv(p)
      ensures inv(q)
    {
      InvNext(p, step, q);
      StaysBehind(s.queue[..k], s.admitted, s.queue[k], p, step);
    }
    ArisesInvariant(Exactly(s), Next, inv, t);
  }

  // ---------------------------------------------------------------- the bound

  lemma NoMoreThan(a: seq<string>, b: seq<string>)
    requires NoDuplicates(a) && forall x :: x in a ==> x in b
    ensures |a| <= |b|
    decreases |a|
  {
    if a != [] {
      assert a[0] in b;
      var i :| 0 <= i < |b| && b[i] == a[0];
      var rest := b[..i] + b[i + 1..];
      forall x | x in a[1..]
        ensures x in rest
      {
        assert x in b && x != a[0];
      }
      NoMoreThan(a[1..], rest);
    }
  }

  /** The jobs admitted lately and the owners of the first tickets are all different. */
  lemma LatelyDistinct(t: State, before: seq<string>, i: nat)
    requires QueueInv(t) && before <= t.admitted && i <= |t.queue|
    ensures NoDuplicates(Since(before, t.admitted) + Owners(t.queue[..i]))
  {
    var all := t.admitted + Owners(t.queue);
    NoDuplicatesPart(all, t.arrivals);
    assert Since(before, t.admitted) + Owners(t.queue[..i]) == all[|before|..|t.admitted| + i];
  }

  /** Waiting is bounded: over every continuation in which a ticket stays queued, whoever is admitted
      meanwhile was ahead of it at the start, and with every admission it moves up by at least one. */
  lemma WaitIsBounded(s: State, t: State, k: nat, i: nat)
    requires Inv(s) && Continues(s, t) && k < |s.queue| && i < |t.queue| && t.queue[i] == s.queue[k]
    ensures s.admitted <= t.admitted
    ensures forall a :: a in Since(s.admitted, t.admitted) ==> a in Owners(s.queue[..k])
    ensures i + |Since(s.admitted, t.admitted)| <= k
  {
    ContinuesBehind(s, t, k);
    LatelyDistinct(t, s.admitted, i);
    var lately := Since(s.admitted, t.admitted);
    forall x | x in lately + Owners(t.queue[..i])
      ensures x in Owners(s.queue[..k])
    {
      if x !in lately {
        OwnerIn(t.queue[..i], s.queue[..k], x);
      }
    }
    NoMoreThan(lately + Owners(t.queue[..i]), Owners(s.queue[..k]));
  }

  lemma OwnerIn(a: seq<Ticket>, b: seq<Ticket>, x: string)
    requires x in Owners(a) && forall y :: y in a ==> y in b
    ensures x in Owners(b)
  {
    var m :| 0 <= m < |a| && a[m].job == x;
    assert a[m] in b;
    var n :| 0 <= n < |b| && b[n] == a[m];
    assert Owners(b)[n] == x;
  }
}
