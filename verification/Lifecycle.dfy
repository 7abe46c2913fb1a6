/** The stored lifecycle of a job: states, transitions and the job store. */
module Lifecycle {
  import opened Collections

  datatype JobState = Preparing | Queued | Running | Passed | Failed | Cancelled

  predicate Final(s: JobState) {
    s.Passed? || s.Failed? || s.Cancelled?
  }

  /** The final states in which other processes give a job up. */
  predicate GivenUp(s: JobState) {
    s.Cancelled? || s.Failed?
  }

  /** The transition table. */
  predicate Allowed(from: JobState, to: JobState) {
    match from
    case Preparing => to.Queued? || to.Failed? || to.Cancelled?
    case Queued => to.Running? || to.Failed? || to.Cancelled?
    case Running => Final(to)
    case _ => false
  }

  /** Keyword details of one transition; an absent exit code leaves the recorded one. */
  datatype Details = Details(exitCode: Option<int>, fields: map<string, string>)

  const NO_DETAILS := Details(None, map[])

  datatype Record = Record(state: JobState, exitCode: Option<int>, fields: map<string, string>)

  const NEW_RECORD := Record(Preparing, None, map[])

  function Advance(r: Record, to: JobState, details: Details): Result<Record, string> {
    if !Allowed(r.state, to) then Failure("invalid job transition")
    else Success(Record(to, if details.exitCode.Some? then details.exitCode else r.exitCode, r.fields + details.fields))
  }

  function FinishState(code: int): JobState {
    if code == 0 then Passed else Failed
  }

  function ExitWith(code: int): Details {
    Details(Some(code), map[])
  }

  /** The exit code that `execute` reports for a final record. */
  function ExecuteCode(r: Record): int {
    match r.exitCode
    case Some(code) => code
    case None => if r.state.Passed? then 0 else 1
  }

  function Rank(s: JobState): nat {
    match s
    case Preparing => 0
    case Queued => 1
    case Running => 2
    case _ => 3
  }

  /** A sequence of states that starts a job and follows the table. */
  ghost predicate Path(h: seq<JobState>) {
    h != [] && h[0] == Preparing && forall i :: 0 < i < |h| ==> Allowed(h[i - 1], h[i])
  }

  lemma {:induction false} RankRises(h: seq<JobState>, i: nat, j: nat)
    requires Path(h) && i < j < |h|
    ensures Rank(h[i]) + (j - i) <= Rank(h[j])
  {
    if i < j - 1 {
      RankRises(h, i, j - 1);
    }
    assert Allowed(h[j - 1], h[j]);
  }

  /** A job makes at most three transitions, a final state is the last one, and success
      is reached only through `queued` and `running`. */
  lemma PathShape(h: seq<JobState>)
    requires Path(h)
    ensures |h| <= 4
    ensures forall i :: 0 <= i < |h| && Final(h[i]) ==> i == |h| - 1
    ensures h[|h| - 1].Passed? ==> h == [Preparing, Queued, Running, Passed]
    ensures Running in h ==> |h| >= 3 && h[1] == Queued && h[2] == Running
  {
    if |h| > 1 {
      RankRises(h, 0, |h| - 1);
      assert Allowed(h[0], h[1]);
      if |h| > 2 {
        assert Allowed(h[1], h[2]);
        if |h| > 3 {
          assert Allowed(h[2], h[3]);
        }
      }
    }
    assert |h| <= 4;
  }

  datatype Weight = Light | Heavy | Exclusive

  /** The part of a job contract that scheduling reads. */
  datatype Spec = Spec(weight: Weight, session: Option<string>)

  /** One directory per job: its contract, its status record and its cancellation marker. */
  class JobStore {
    var specs: map<string, Spec>
    var records: map<string, Record>
    var cancels: set<string>

    constructor ()
      ensures specs == map[] && records == map[] && cancels == {}
    {
      specs, records, cancels := map[], map[], {};
    }

    method Create(job: string, spec: Spec) returns (ok: bool)
      modifies this
      ensures ok == (job !in old(records))
      ensures ok ==> specs == old(specs)[job := spec] && records == old(records)[job := NEW_RECORD]
      ensures !ok ==> specs == old(specs) && records == old(records)
      ensures cancels == old(cancels)
    {
      ok := job !in records;
      if ok {
        specs := specs[job := spec];
        records := records[job := NEW_RECORD];
      }
    }

    /** Either one record moves along the table, or the call is refused and nothing changes. */
    method Transition(job: string, to: JobState, details: Details) returns (r: Result<Record, string>)
      modifies this`records
      ensures r.Success? <==> job in old(records) && Allowed(old(records)[job].state, to)
      ensures r.Success? ==> records == old(records)[job := r.value]
                             && Advance(old(records)[job], to, details) == r
      ensures r.Failure? ==> records == old(records)
    {
      if job !in records {
        return Failure("missing job");
      }
      r := Advance(records[job], to, details);
      if r.Success? {
        records := records[job := r.value];
      }
    }

    method Finish(job: string, code: int) returns (r: Result<Record, string>)
      modifies this`records
      ensures r.Success? <==> job in old(records) && Allowed(old(records)[job].state, FinishState(code))
      ensures r.Success? ==> records == old(records)[job := r.value]
                             && r.value.exitCode == Some(code) && r.value.fields == old(records)[job].fields
                             && r.value.state == FinishState(code)
      ensures r.Failure? ==> records == old(records)
    {
      r := Transition(job, FinishState(code), ExitWith(code));
    }

    method RequestCancel(job: string)
      modifies this`cancels
      ensures cancels == old(cancels) + {job}
    {
      cancels := cancels + {job};
    }
  }
}
