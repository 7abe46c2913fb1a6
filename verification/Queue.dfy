/** The ticket directory, as its listing sorted by file name, and what the pool does to it. */
module Queue {
  import opened Collections
  import opened Order
  import opened TicketNames
  import opened Lifecycle

  /** One file of the directory; a file that is not `intact` cannot be read as a ticket. */
  datatype Ticket = Ticket(time: nat, job: string, permits: nat, session: Option<string>, intact: bool)

  function Name(t: Ticket): string {
    TicketName(t.time, t.job)
  }

  function Owners(q: seq<Ticket>): (r: seq<string>)
    ensures |r| == |q| && forall i :: 0 <= i < |q| ==> r[i] == q[i].job
  {
    seq(|q|, i requires 0 <= i < |q| => q[i].job)
  }

  predicate Sorted(q: seq<Ticket>) {
    forall i, j :: 0 <= i < j < |q| ==> Less(Name(q[i]), Name(q[j]))
  }

  /** Writing a file into the directory; the same name replaces the file. */
  function Insert(q: seq<Ticket>, t: Ticket): seq<Ticket> {
    if q == [] || Less(Name(t), Name(q[0])) then [t] + q
    else if Name(t) == Name(q[0]) then [t] + q[1..]
    else [q[0]] + Insert(q[1..], t)
  }

  /** The first listed ticket whose file name ends with the job's suffix. */
  function Find(q: seq<Ticket>, job: string): (r: Option<nat>)
    ensures r.Some? ==> r.value < |q| && EndsWith(Name(q[r.value]), Suffix(job))
    ensures r.Some? ==> forall i :: 0 <= i < r.value ==> !EndsWith(Name(q[i]), Suffix(job))
    ensures r.None? ==> forall i :: 0 <= i < |q| ==> !EndsWith(Name(q[i]), Suffix(job))
  {
    if q == [] then None
    else if EndsWith(Name(q[0]), Suffix(job)) then Some(0)
    else match Find(q[1..], job)
      case None => None
      case Some(i) => Some(i + 1)
  }

  function Remove(q: seq<Ticket>, job: string): seq<Ticket> {
    match Find(q, job)
    case None => q
    case Some(i) => q[..i] + q[i + 1..]
  }

  function Write(q: seq<Ticket>, t: Ticket): seq<Ticket> {
    if Find(q, t.job).Some? then q else Insert(q, t)
  }

  /** `_ticket_is_stale` for a pool with a store; `dead` holds the jobs whose unit
      was reported inactive. */
  predicate Stale(records: map<string, Record>, dead: set<string>, job: string) {
    job !in records || Final(records[job].state) || job in dead
  }

  function Fresh(records: map<string, Record>, dead: set<string>): Ticket -> bool {
    (t: Ticket) => t.intact && !Stale(records, dead, t.job)
  }

  function Prune(q: seq<Ticket>, records: map<string, Record>, dead: set<string>): seq<Ticket> {
    Filter(q, Fresh(records, dead))
  }

  /** A ticket of another job in the given session is superseded. */
  predicate Superseded(t: Ticket, job: string, session: Option<string>) {
    session.Some? && t.job != job && t.session == session
  }

  function Kept(job: string, session: Option<string>): Ticket -> bool {
    (t: Ticket) => session.None? || (t.intact && !Superseded(t, job, session))
  }

  function Supersede(q: seq<Ticket>, job: string, session: Option<string>): seq<Ticket> {
    Filter(q, Kept(job, session))
  }

  /** The jobs asked to cancel by a supersession: owners of superseded, not stale tickets. */
  function Victims(q: seq<Ticket>, job: string, session: Option<string>,
                   records: map<string, Record>, dead: set<string>): set<string> {
    set t | t in q && t.intact && Superseded(t, job, session) && !Stale(records, dead, t.job) :: t.job
  }

  function Permits(capacity: nat, weight: Weight): nat {
    match weight
    case Light => 0
    case Heavy => 1
    case Exclusive => capacity
  }

  // ---------------------------------------------------------------- lemmas

  /** What a prune leaves, in the order it was: the readable tickets whose owner is stored, not yet
      passed, failed or cancelled, and not reported inactive. */
  lemma PruneExactly(q: seq<Ticket>, records: map<string, Record>, dead: set<string>)
    ensures Subsequence(Prune(q, records, dead), q)
    ensures forall t :: t in Prune(q, records, dead) <==>
              && t in q && t.intact && t.job in records && t.job !in dead
              && (records[t.job].state.Preparing? || records[t.job].state.Queued? || records[t.job].state.Running?)
  {
    FilterSubsequence(q, Fresh(records, dead));
  }

  /** What a supersession leaves, in the order it was: with an identified session every readable ticket
      but those of the session's other jobs, otherwise everything. */
  lemma SupersedeExactly(q: seq<Ticket>, job: string, session: Option<string>)
    ensures Subsequence(Supersede(q, job, session), q) && (session.None? ==> Supersede(q, job, session) == q)
    ensures session.Some? ==> forall t :: t in Supersede(q, job, session) <==>
              t in q && t.intact && (t.job == job || t.session != session)
  {
    FilterSubsequence(q, Kept(job, session));
    if session.None? {
      FilterAll(q, Kept(job, session));
    }
  }

  /** Who is asked to cancel: exactly the owners of such tickets whose job is stored, still open and
      not reported inactive. */
  lemma VictimsExactly(q: seq<Ticket>, job: string, session: Option<string>, records: map<string, Record>, dead: set<string>, x: string)
    ensures x in Victims(q, job, session, records, dead) <==>
            && session.Some? && x != job && x in records && x !in dead
            && (records[x].state.Preparing? || records[x].state.Queued? || records[x].state.Running?)
            && exists t :: t in q && t.intact && t.job == x && t.session == session
  {
    if t :| t in q && t.intact && t.job == x && t.session == session {
      assert session.Some? && x != job ==> Superseded(t, job, session);
    }
  }

  /** No queued job id ends in a hyphen and another job's id. */
  ghost predicate SuffixFree(owners: set<string>) {
    forall a, b :: a in owners && b in owners ==> !EndsWith(a, "-" + b)
  }

  /** The head of the directory is found first by its owner, whatever the other ids are. */
  lemma RemoveHead(q: seq<Ticket>, job: string)
    requires q != [] && q[0].job == job
    ensures Remove(q, job) == q[1..]
  {
    SuffixMatch(q[0].time, q[0].job, job);
    assert q[..0] + q[1..] == q[1..];
  }

  /** A job gets a ticket exactly when no queued id equals its own or ends in a hyphen and it. */
  lemma WriteAddsTicket(q: seq<Ticket>, t: Ticket)
    ensures Find(q, t.job).None? <==> forall u :: u in q ==> u.job != t.job && !EndsWith(u.job, "-" + t.job)
  {
    forall i | 0 <= i < |q|
      ensures EndsWith(Name(q[i]), Suffix(t.job)) <==> q[i].job == t.job || EndsWith(q[i].job, "-" + t.job)
    {
      SuffixMatch(q[i].time, q[i].job, t.job);
    }
    var found := Find(q, t.job);
    if found.Some? {
      assert q[found.value] in q;
    }
  }

  /** With suffix-free ids the search finds a job's own ticket and nothing else. */
  lemma FindOwn(q: seq<Ticket>, job: string, owners: set<string>)
    requires SuffixFree(owners) && job in owners && forall t :: t in q ==> t.job in owners
    ensures Find(q, job).Some? <==> exists t :: t in q && t.job == job
    ensures Find(q, job).Some? ==> q[Find(q, job).value].job == job
  {
    WriteAddsTicket(q, Ticket(0, job, 0, None, true));
    var found := Find(q, job);
    if found.Some? {
      SuffixMatch(q[found.value].time, q[found.value].job, job);
      assert q[found.value] in q;
    }
  }

  /** A short id loses its place behind a longer id that ends in it. */
  lemma ShortIdLosesPlace(time: nat, now: nat)
    ensures Write([Ticket(time, "a-b", 1, None, true)], Ticket(now, "b", 1, None, true)) == [Ticket(time, "a-b", 1, None, true)]
    ensures Remove([Ticket(time, "a-b", 1, None, true)], "b") == []
  {
    assert EndsWith("a-b", "-" + "b");
    SuffixMatch(time, "a-b", "b");
  }

  lemma OlderSortsFirst(u: Ticket, t: Ticket)
    requires u.time < t.time < Pow10(WIDTH)
    ensures !Less(Name(t), Name(u)) && Name(t) != Name(u)
  {
    NamesSortByTime(u.time, u.job, t.time, t.job);
    PrecedesIsTotal(CharRank, Name(u), Name(t));
  }

  lemma InsertBehind(u: Ticket, rest: seq<Ticket>, t: Ticket)
    requires !Less(Name(t), Name(u)) && Name(t) != Name(u)
    ensures Insert([u] + rest, t) == [u] + Insert(rest, t)
  {
    assert ([u] + rest)[1..] == rest;
  }

  lemma {:induction false} InsertLast(q: seq<Ticket>, t: Ticket)
    requires forall u :: u in q ==> !Less(Name(t), Name(u)) && Name(t) != Name(u)
    ensures Insert(q, t) == q + [t]
  {
    if q != [] {
      assert q[0] in q;
      InsertLast(q[1..], t);
      InsertBehind(q[0], q[1..], t);
      assert q == [q[0]] + q[1..];
      Associate([q[0]], q[1..], [t]);
    }
  }

  /** With a clock that only rises below 10^20, a new ticket goes to the end of the listing. */
  lemma InsertIsAppend(q: seq<Ticket>, t: Ticket)
    requires t.time < Pow10(WIDTH) && forall u :: u in q ==> u.time < t.time
    ensures Insert(q, t) == q + [t]
  {
    forall u | u in q
      ensures !Less(Name(t), Name(u)) && Name(t) != Name(u)
    {
      OlderSortsFirst(u, t);
    }
    InsertLast(q, t);
  }

  /** Rising times make the listing sorted by name. */
  lemma RisingIsSorted(q: seq<Ticket>)
    requires forall i, j :: 0 <= i < j < |q| ==> q[i].time < q[j].time
    requires forall t :: t in q ==> t.time < Pow10(WIDTH)
    ensures Sorted(q)
  {
    forall i, j | 0 <= i < j < |q|
      ensures Less(Name(q[i]), Name(q[j]))
    {
      assert q[i] in q && q[j] in q;
      NamesSortByTime(q[i].time, q[i].job, q[j].time, q[j].job);
    }
  }
}
