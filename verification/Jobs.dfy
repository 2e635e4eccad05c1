/**
  The job table and its guarded status transitions (internal/catalog/jobs.go).

  A `RowOp` is one conditional single-row statement: `Matches` is its WHERE clause on the
  status, `Apply` what it writes. `JobStore` is the store itself; `IsHistory` and the lemmas
  below it say what any run made of such statements does to one job.
*/
module Jobs {
  import opened Prelude

  type JobId = nat
  type SystemId = nat
  type PolicyId = nat
  type Time = int

  datatype Status = Pending | Running | Success | Failed | Cancelled

  predicate Terminal(s: Status) { s.Success? || s.Failed? || s.Cancelled? }

  /** What `error_summary` holds: a reported text, or one of the reaper's two fixed messages. */
  datatype Summary = Reported(text: string) | NoAgentHeartbeat | NeverPickedUp

  datatype Job = Job(
    sys: SystemId,
    policy: PolicyId,
    status: Status,
    createdAt: Time,
    startedAt: Option<Time>,
    finishedAt: Option<Time>,
    lastProgressAt: Option<Time>,
    cancelRequestedAt: Option<Time>,
    cancelReason: string,
    bytesUploaded: Option<int>,
    errorSummary: Option<Summary>)

  type Table = map<JobId, Job>

  /** A freshly inserted job. */
  function NewJob(sys: SystemId, policy: PolicyId, now: Time): Job {
    Job(sys, policy, Pending, now, None, None, None, None, "", None, None)
  }

  datatype RowOp =
    | Start(now: Time)
    | Complete(now: Time, bytes: int)
    | Fail(now: Time, summary: string)
    | Cancel(now: Time, reason: string)
    | RequestCancel(now: Time, reason: string)
    | ReportProgress(now: Time)
    | Remove

  predicate Matches(op: RowOp, j: Job) {
    match op
    case Start(_) => j.status == Pending
    case Complete(_, _) => j.status == Running
    case Fail(_, _) => j.status == Running || j.status == Pending
    case Cancel(_, _) => j.status == Running
    case RequestCancel(_, _) => j.status == Pending || j.status == Running
    case ReportProgress(_) => true
    case Remove => true
  }

  /** The row after the statement; `None` when the row is gone. */
  function Write(op: RowOp, j: Job): Option<Job> {
    match op
    case Start(now) => Some(j.(status := Running, startedAt := Some(now)))
    case Complete(now, bytes) => Some(j.(status := Success, finishedAt := Some(now), bytesUploaded := Some(bytes)))
    case Fail(now, summary) => Some(j.(status := Failed, finishedAt := Some(now), errorSummary := Some(Reported(summary))))
    case Cancel(now, reason) =>
      Some(j.(status := Cancelled, finishedAt := Some(now), errorSummary := if reason == "" then None else Some(Reported(reason))))
    case RequestCancel(now, reason) => Some(j.(cancelRequestedAt := Some(now), cancelReason := reason))
    case ReportProgress(now) => Some(j.(lastProgressAt := Some(now)))
    case Remove => None
  }

  predicate Hits(t: Table, id: JobId, op: RowOp) {
    id in t && Matches(op, t[id])
  }

  function Apply(t: Table, id: JobId, op: RowOp): Table {
    if !Hits(t, id, op) then t
    else match Write(op, t[id])
      case Some(j) => t[id := j]
      case None => t - {id}
  }

  // ── What a statement may do to a row ─────────────────────────────────────────

  /** The documented edges of the lifecycle. */
  predicate Edge(a: Status, b: Status) {
    || (a == Pending && (b == Running || b == Failed))
    || (a == Running && Terminal(b))
  }

  /** Outcome columns are those written together with the status. */
  predicate SameOutcome(a: Job, b: Job) {
    && a.status == b.status
    && a.finishedAt == b.finishedAt
    && a.startedAt == b.startedAt
    && a.bytesUploaded == b.bytesUploaded
    && a.errorSummary == b.errorSummary
  }

  predicate RowEvolves(a: Job, b: Job) {
    && a.sys == b.sys && a.policy == b.policy && a.createdAt == b.createdAt
    && (a.cancelRequestedAt.Some? ==> b.cancelRequestedAt.Some?)
    && (SameOutcome(a, b) || (Edge(a.status, b.status) && (Terminal(b.status) <==> b.finishedAt.Some?)))
  }

  predicate Newborn(j: Job) {
    j.status == Pending && j.finishedAt == None
  }

  ghost predicate Evolves(t: Table, u: Table) {
    && (forall id :: id in t && id in u ==> RowEvolves(t[id], u[id]))
    && (forall id :: id in u && id !in t ==> Newborn(u[id]))
  }

  /** From `t` to `u` rows evolve, and of the ids issued before only rows of `t` are present. */
  ghost predicate TableStep(t: Table, issued: set<JobId>, u: Table, issued': set<JobId>) {
    && Evolves(t, u)
    && issued <= issued'
    && (forall id :: id in u && id in issued ==> id in t)
  }

  /** A row carries a finish time exactly when it is terminal. */
  ghost predicate Coherent(t: Table) {
    forall id :: id in t ==> (Terminal(t[id].status) <==> t[id].finishedAt.Some?)
  }

  /** Every guarded statement respects the lifecycle, hit or miss. */
  lemma ApplyEvolves(t: Table, id: JobId, op: RowOp)
    requires Coherent(t)
    ensures Evolves(t, Apply(t, id, op)) && Coherent(Apply(t, id, op))
  {
    if Hits(t, id, op) {
      var j := t[id];
      match Write(op, j) {
        case Some(k) => assert RowEvolves(j, k);
        case None =>
      }
    }
  }

  // ── Whole histories of the table ─────────────────────────────────────────────

  /** Consecutive tables evolve, and an id that was deleted is never issued again (UUIDs). */
  ghost predicate IsHistory(run: seq<Table>) {
    && (forall i :: 0 <= i < |run| - 1 ==> Evolves(run[i], run[i + 1]))
    && (forall i, j, k, id: JobId :: 0 <= i < j < k < |run| && id in run[i] && id !in run[j] ==> id !in run[k])
  }

  /** The statuses a job has shown, in order and without repetition. */
  function Path(run: seq<Table>, id: JobId): seq<Status> {
    if run == [] then []
    else
      var p := Path(run[..|run| - 1], id);
      var t := run[|run| - 1];
      if id in t && (p == [] || p[|p| - 1] != t[id].status) then p + [t[id].status] else p
  }

  /** How often the finish time of a job was written. */
  function FinishWrites(run: seq<Table>, id: JobId): nat {
    if run == [] then 0
    else
      var n := FinishWrites(run[..|run| - 1], id);
      var t := run[|run| - 1];
      if id !in t || t[id].finishedAt == None then n
      else if |run| >= 2 && id in run[|run| - 2] && SameOutcome(run[|run| - 2][id], t[id]) then n
      else n + 1
  }

  predicate LegalPath(p: seq<Status>) {
    || p == [] || p == [Pending] || p == [Pending, Running] || p == [Pending, Failed]
    || (|p| == 3 && p[0] == Pending && p[1] == Running && Terminal(p[2]))
  }

  predicate HasEnded(p: seq<Status>) { p != [] && Terminal(p[|p| - 1]) }

  lemma PrefixIsHistory(run: seq<Table>)
    requires IsHistory(run) && run != []
    ensures IsHistory(run[..|run| - 1])
  {
  }

  /** What a protocol has to show of its tables: `issued` remembers every id ever inserted. */
  lemma StepsMakeHistory(run: seq<Table>, issued: seq<set<JobId>>)
    requires |run| == |issued|
    requires forall i :: 0 <= i < |run| ==> run[i].Keys <= issued[i]
    requires forall i :: 0 <= i < |run| - 1 ==> TableStep(run[i], issued[i], run[i + 1], issued[i + 1])
    ensures IsHistory(run)
  {
    forall i, j, k, id: JobId | 0 <= i < j < k < |run| && id in run[i] && id !in run[j] ensures id !in run[k] {
      GoneStaysGone(run, issued, i, j, id);
      GoneStaysGone(run, issued, j, k, id);
    }
  }

  lemma {:induction false} GoneStaysGone(run: seq<Table>, issued: seq<set<JobId>>, i: nat, k: nat, id: JobId)
    requires |run| == |issued| && i <= k < |run|
    requires forall i :: 0 <= i < |run| - 1 ==> TableStep(run[i], issued[i], run[i + 1], issued[i + 1])
    requires id in issued[i]
    ensures id in issued[k]
    ensures id !in run[i] ==> id !in run[k]
  {
    if i < k {
      GoneStaysGone(run, issued, i, k - 1, id);
      assert TableStep(run[k - 1], issued[k - 1], run[k - 1 + 1], issued[k - 1 + 1]);
    }
  }

  /** A job present at two moments is present in between. */
  lemma PresentBetween(run: seq<Table>, i: nat, j: nat, k: nat, id: JobId)
    requires IsHistory(run) && i <= j <= k < |run|
    requires id in run[i] && id in run[k]
    ensures id in run[j]
  {
  }

  /** System, policy and creation time of a job never change. */
  lemma {:induction false} IdentityStays(run: seq<Table>, i: nat, k: nat, id: JobId)
    requires IsHistory(run) && i <= k < |run| && id in run[i] && id in run[k]
    ensures run[k][id].sys == run[i][id].sys && run[k][id].policy == run[i][id].policy
    ensures run[k][id].createdAt == run[i][id].createdAt
  {
    if i < k {
      PresentBetween(run, i, k - 1, k, id);
      IdentityStays(run, i, k - 1, id);
      assert Evolves(run[k - 1], run[k - 1 + 1]);
      assert RowEvolves(run[k - 1][id], run[k][id]);
    }
  }

  /** A job that once left `pending` never shows it again; one that ended keeps its outcome. */
  lemma {:induction false} NoWayBack(run: seq<Table>, i: nat, k: nat, id: JobId)
    requires IsHistory(run) && i <= k < |run| && id in run[i] && id in run[k]
    ensures run[i][id].status != Pending ==> run[k][id].status != Pending
    ensures Terminal(run[i][id].status) ==> SameOutcome(run[i][id], run[k][id])
  {
    if i < k {
      PresentBetween(run, i, k - 1, k, id);
      NoWayBack(run, i, k - 1, id);
      assert Evolves(run[k - 1], run[k - 1 + 1]);
      assert RowEvolves(run[k - 1][id], run[k][id]);
    }
  }

  /** A job whose path is empty has not been seen in the run. */
  lemma {:induction false} UnseenIsAbsent(run: seq<Table>, id: JobId, i: nat)
    requires i < |run| && Path(run, id) == []
    ensures id !in run[i]
  {
    if i < |run| - 1 {
      UnseenIsAbsent(run[..|run| - 1], id, i);
    }
  }

  lemma {:induction false} SeenSomewhere(run: seq<Table>, id: JobId) returns (i: nat)
    requires Path(run, id) != []
    ensures i < |run| && id in run[i]
  {
    if id in run[|run| - 1] {
      i := |run| - 1;
    } else {
      i := SeenSomewhere(run[..|run| - 1], id);
    }
  }

  /** One step of one row, on the path it has shown so far. */
  lemma PathStaysLegal(p: seq<Status>, s: Job, t: Job)
    requires RowEvolves(s, t) && LegalPath(p) && p != [] && p[|p| - 1] == s.status
    requires Terminal(s.status) <==> s.finishedAt.Some?
    ensures var p' := if s.status != t.status then p + [t.status] else p;
            && LegalPath(p')
            && (Terminal(t.status) <==> t.finishedAt.Some?)
            && (HasEnded(p') <==> t.finishedAt.Some?)
            && (t.finishedAt.Some? ==> (HasEnded(p) <==> SameOutcome(s, t)))
  {
  }

  /**
    Over any history that starts without the job: its statuses follow
    pending→running→terminal or pending→failed, and its finish time is written exactly once
    when it became terminal and never otherwise.
  */
  lemma {:induction false} LifecycleOfOneJob(run: seq<Table>, id: JobId)
    requires IsHistory(run) && run != [] && id !in run[0]
    ensures LegalPath(Path(run, id))
    ensures FinishWrites(run, id) == if HasEnded(Path(run, id)) then 1 else 0
    ensures var t := run[|run| - 1];
            id in t ==>
              && Path(run, id) != [] && Path(run, id)[|Path(run, id)| - 1] == t[id].status
              && (Terminal(t[id].status) <==> t[id].finishedAt.Some?)
  {
    if |run| == 1 {
      assert run[..0] == [];
    } else {
      var q := run[..|run| - 1];
      PrefixIsHistory(run);
      LifecycleOfOneJob(q, id);
      var s, t := q[|q| - 1], run[|run| - 1];
      assert s == run[|run| - 2] && Evolves(run[|run| - 2], run[|run| - 2 + 1]);
      if id in t {
        if id in s {
          PathStaysLegal(Path(q, id), s[id], t[id]);
        } else if Path(q, id) != [] {
          var i := SeenSomewhere(q, id);
          assert false;
        }
      }
    }
  }

  // ── The store ────────────────────────────────────────────────────────────────

  datatype TransitionResult = Applied | NotFound | IllegalTransition(current: Status)

  class JobStore {
    var rows: Table

    constructor ()
      ensures rows == map[]
    {
      rows := map[];
    }

    /** One guarded UPDATE; on a miss a second statement tells a missing job from a wrong state. */
    method ApplyTransition(id: JobId, op: RowOp) returns (r: TransitionResult)
      requires op.Start? || op.Complete? || op.Fail? || op.Cancel?
      requires Coherent(rows)
      modifies this
      ensures Coherent(rows) && Evolves(old(rows), rows)
      ensures r.Applied? <==> Hits(old(rows), id, op)
      ensures r.NotFound? <==> id !in old(rows)
      ensures r.IllegalTransition? ==> id in rows && r.current == rows[id].status
      ensures !r.Applied? ==> rows == old(rows)
      ensures r.Applied? ==> id in rows && Write(op, old(rows)[id]) == Some(rows[id])
      ensures forall other :: other != id ==> (other in rows <==> other in old(rows))
      ensures forall other :: other != id && other in rows ==> rows[other] == old(rows)[other]
    {
      ApplyEvolves(rows, id, op);
      var affected := if Hits(rows, id, op) then 1 else 0;
      rows := Apply(rows, id, op);
      if affected > 0 {
        return Applied;
      }
      if id !in rows {
        return NotFound;
      }
      return IllegalTransition(rows[id].status);
    }

    method StartJob(id: JobId, now: Time) returns (r: TransitionResult)
      requires Coherent(rows)
      modifies this
      ensures Coherent(rows) && Evolves(old(rows), rows)
      ensures r.Applied? <==> id in old(rows) && old(rows)[id].status == Pending
      ensures r.NotFound? <==> id !in old(rows)
      ensures rows == if r.Applied? then old(rows)[id := old(rows)[id].(status := Running, startedAt := Some(now))]
                      else old(rows)
    {
      r := ApplyTransition(id, Start(now));
    }

    method CompleteJob(id: JobId, now: Time, bytes: int) returns (r: TransitionResult)
      requires Coherent(rows)
      modifies this
      ensures Coherent(rows) && Evolves(old(rows), rows)
      ensures r.Applied? <==> id in old(rows) && old(rows)[id].status == Running
      ensures r.NotFound? <==> id !in old(rows)
      ensures rows == if r.Applied?
                      then old(rows)[id := old(rows)[id].(status := Success, finishedAt := Some(now), bytesUploaded := Some(bytes))]
                      else old(rows)
    {
      r := ApplyTransition(id, Complete(now, bytes));
    }

    method FailJob(id: JobId, now: Time, summary: string) returns (r: TransitionResult)
      requires Coherent(rows)
      modifies this
      ensures Coherent(rows) && Evolves(old(rows), rows)
      ensures r.Applied? <==> id in old(rows) && !Terminal(old(rows)[id].status)
      ensures r.NotFound? <==> id !in old(rows)
      ensures rows == if r.Applied?
                      then old(rows)[id := old(rows)[id].(status := Failed, finishedAt := Some(now), errorSummary := Some(Reported(summary)))]
                      else old(rows)
    {
      r := ApplyTransition(id, Fail(now, summary));
    }

    method CancelJob(id: JobId, now: Time, reason: string) returns (r: TransitionResult)
      requires Coherent(rows)
      modifies this
      ensures Coherent(rows) && Evolves(old(rows), rows)
      ensures r.Applied? <==> id in old(rows) && old(rows)[id].status == Running
      ensures r.NotFound? <==> id !in old(rows)
      ensures rows == if r.Applied?
                      then old(rows)[id := old(rows)[id].(status := Cancelled, finishedAt := Some(now),
                                                          errorSummary := if reason == "" then None else Some(Reported(reason)))]
                      else old(rows)
    {
      r := ApplyTransition(id, Cancel(now, reason));
    }

    /** Flags a pending or running job; a finished or missing job answers `false`. */
    method RequestCancellation(id: JobId, now: Time, reason: string) returns (found: bool)
      requires Coherent(rows)
      modifies this
      ensures Coherent(rows) && Evolves(old(rows), rows)
      ensures found <==> id in old(rows) && !Terminal(old(rows)[id].status)
      ensures rows == if found
                      then old(rows)[id := old(rows)[id].(cancelRequestedAt := Some(now), cancelReason := reason)]
                      else old(rows)
    {
      ApplyEvolves(rows, id, RequestCancel(now, reason));
      found := Hits(rows, id, RequestCancel(now, reason));
      rows := Apply(rows, id, RequestCancel(now, reason));
    }

    /** A sign of life; it is recorded whatever the job's status. */
    method UpdateProgress(id: JobId, now: Time) returns (found: bool)
      requires Coherent(rows)
      modifies this
      ensures Coherent(rows) && Evolves(old(rows), rows)
      ensures found <==> id in old(rows)
      ensures rows == if found then old(rows)[id := old(rows)[id].(lastProgressAt := Some(now))] else old(rows)
    {
      ApplyEvolves(rows, id, ReportProgress(now));
      found := Hits(rows, id, ReportProgress(now));
      rows := Apply(rows, id, ReportProgress(now));
    }

    method Delete(id: JobId) returns (found: bool)
      requires Coherent(rows)
      modifies this
      ensures Coherent(rows) && Evolves(old(rows), rows)
      ensures found <==> id in old(rows)
      ensures rows == old(rows) - {id}
    {
      ApplyEvolves(rows, id, Remove);
      found := Hits(rows, id, Remove);
      rows := Apply(rows, id, Remove);
    }
  }
}
