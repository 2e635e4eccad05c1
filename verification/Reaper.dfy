/**
  The stale-job reaper: `FailStaleJobs` (internal/catalog/jobs.go) and the cadence it is run
  with (internal/scheduler/scheduler.go).
*/
module Reaper {
  import opened Prelude
  import opened Jobs

  const MINUTE := 60
  const PROGRESS_GRACE := 30 * MINUTE
  const START_GRACE := 12 * 60 * MINUTE
  const PENDING_GRACE := 6 * 60 * MINUTE
  const CHECK_EVERY := 10 * MINUTE

  datatype Deadlines = Deadlines(progress: Time, start: Time, pending: Time)

  function DeadlinesAt(now: Time): Deadlines {
    Deadlines(now - PROGRESS_GRACE, now - START_GRACE, now - PENDING_GRACE)
  }

  /** The two UPDATE statements of a pass, and its end. */
  datatype Phase = Silent | Unclaimed | Over

  /** When a running job that never reported progress counts as started. */
  function StartedOrCreated(j: Job): Time {
    if j.startedAt.Some? then j.startedAt.value else j.createdAt
  }

  /** Their WHERE clauses. */
  predicate Stale(d: Deadlines, phase: Phase, j: Job) {
    match phase
    case Silent =>
      && j.status == Running
      && (|| (j.lastProgressAt.Some? && j.lastProgressAt.value < d.progress)
          || (j.lastProgressAt == None && StartedOrCreated(j) < d.start))
    case Unclaimed => j.status == Pending && j.createdAt < d.pending
    case Over => false
  }

  function FailAll(t: Table, ids: set<JobId>, now: Time, summary: Summary): Table {
    map id | id in t ::
      if id in ids then t[id].(status := Failed, finishedAt := Some(now), errorSummary := Some(summary)) else t[id]
  }

  function ReasonFor(phase: Phase): Summary {
    if phase.Silent? then NoAgentHeartbeat else NeverPickedUp
  }

  function StaleIds(t: Table, d: Deadlines, phase: Phase): set<JobId> {
    set id | id in t && Stale(d, phase, t[id])
  }

  /** Neither statement of a pass would touch the row. */
  predicate WithinGrace(d: Deadlines, j: Job) { !Stale(d, Silent, j) && !Stale(d, Unclaimed, j) }

  lemma FailAllEvolves(t: Table, ids: set<JobId>, now: Time, summary: Summary)
    requires Coherent(t) && forall id :: id in ids && id in t ==> !Terminal(t[id].status)
    ensures var u := FailAll(t, ids, now, summary);
            && u.Keys == t.Keys && Coherent(u) && Evolves(t, u)
            && (forall id :: id in t && id !in ids ==> u[id] == t[id])
  {
  }

  /** The row as failed by the reaper. */
  function FailedFor(j: Job, stamp: Time, why: Summary): Job {
    j.(status := Failed, finishedAt := Some(stamp), errorSummary := Some(why))
  }

  /**
    What a pass makes of one row. A running job is measured from its last progress, or without any
    from its start, or without that from its creation; a pending one from its creation.
  */
  ghost predicate PassMeans(j: Job, after: Job, now: Time, stamp: Time,
                            progressGrace: Time, startGrace: Time, pendingGrace: Time) {
    match j.status
    case Running =>
      var overdue := if j.lastProgressAt.Some? then now - j.lastProgressAt.value > progressGrace
                     else if j.startedAt.Some? then now - j.startedAt.value > startGrace
                     else now - j.createdAt > startGrace;
      after == if overdue then FailedFor(j, stamp, NoAgentHeartbeat) else j
    case Pending =>
      after == if now - j.createdAt > pendingGrace then FailedFor(j, stamp, NeverPickedUp) else j
    case _ => after == j
  }

  /**
    One pass: exactly the stale jobs are failed, each with the reason that fits it, every other row
    is untouched, and nothing stale is left.
  */
  method FailStaleJobs(store: JobStore, now: Time, stamp: Time,
                       progressGrace: Time, startGrace: Time, pendingGrace: Time) returns (n: nat)
    requires Coherent(store.rows)
    modifies store
    ensures Coherent(store.rows) && Evolves(old(store.rows), store.rows) && store.rows.Keys == old(store.rows).Keys
    ensures forall id :: id in store.rows ==>
              PassMeans(old(store.rows)[id], store.rows[id], now, stamp, progressGrace, startGrace, pendingGrace)
    ensures var d := Deadlines(now - progressGrace, now - startGrace, now - pendingGrace);
            && (forall id :: id in store.rows ==> WithinGrace(d, store.rows[id]))
            && n == |set id | id in old(store.rows) && !WithinGrace(d, old(store.rows)[id])|
  {
    var d := Deadlines(now - progressGrace, now - startGrace, now - pendingGrace);
    ghost var before := store.rows;
    var silent := StaleIds(store.rows, d, Silent);
    store.rows := FailAll(store.rows, silent, stamp, ReasonFor(Silent));
    var unclaimed := StaleIds(store.rows, d, Unclaimed);
    store.rows := FailAll(store.rows, unclaimed, stamp, ReasonFor(Unclaimed));
    n := |silent| + |unclaimed|;
    TwoStatements(before, d, stamp);
    RowsArePassed(before, now, stamp, progressGrace, startGrace, pendingGrace);
  }

  lemma RowsArePassed(t: Table, now: Time, stamp: Time, progressGrace: Time, startGrace: Time, pendingGrace: Time)
    requires Coherent(t)
    ensures var u := AfterPass(t, Deadlines(now - progressGrace, now - startGrace, now - pendingGrace), stamp);
            u.Keys == t.Keys && forall id :: id in u ==> PassMeans(t[id], u[id], now, stamp, progressGrace, startGrace, pendingGrace)
  {
    TwoStatements(t, Deadlines(now - progressGrace, now - startGrace, now - pendingGrace), stamp);
  }

  /** One tick of the scheduler's reaper: 30 minutes without progress, 12 hours without any, 6 hours unclaimed. */
  method Tick(store: JobStore, now: Time, stamp: Time) returns (n: nat)
    requires Coherent(store.rows)
    modifies store
    ensures Coherent(store.rows) && Evolves(old(store.rows), store.rows) && store.rows.Keys == old(store.rows).Keys
    ensures forall id :: id in store.rows ==>
              PassMeans(old(store.rows)[id], store.rows[id], now, stamp, 1800, 43200, 21600)
    ensures forall id :: id in store.rows ==> WithinGrace(DeadlinesAt(now), store.rows[id])
  {
    n := FailStaleJobs(store, now, stamp, PROGRESS_GRACE, START_GRACE, PENDING_GRACE);
  }

  /** The table after both statements of a pass. */
  function AfterPass(t: Table, d: Deadlines, stamp: Time): Table {
    var between := FailAll(t, StaleIds(t, d, Silent), stamp, ReasonFor(Silent));
    FailAll(between, StaleIds(between, d, Unclaimed), stamp, ReasonFor(Unclaimed))
  }

  lemma OneStatement(t: Table, d: Deadlines, phase: Phase, stamp: Time)
    requires Coherent(t)
    ensures var u := FailAll(t, StaleIds(t, d, phase), stamp, ReasonFor(phase));
            && u.Keys == t.Keys && Coherent(u)
            && (forall id :: id in t ==>
                  u[id] == if Stale(d, phase, t[id]) then FailedFor(t[id], stamp, ReasonFor(phase)) else t[id])
  {
  }

  lemma TwoStatements(t: Table, d: Deadlines, stamp: Time)
    requires Coherent(t)
    ensures var u := AfterPass(t, d, stamp);
            && u.Keys == t.Keys
            && (forall id :: id in u ==>
                  u[id] == if Stale(d, Silent, t[id]) then FailedFor(t[id], stamp, NoAgentHeartbeat)
                           else if Stale(d, Unclaimed, t[id]) then FailedFor(t[id], stamp, NeverPickedUp)
                           else t[id])
            && (forall id :: id in u ==> WithinGrace(d, u[id]))
            && Coherent(u) && Evolves(t, u)
    ensures var between := FailAll(t, StaleIds(t, d, Silent), stamp, ReasonFor(Silent));
            |StaleIds(t, d, Silent)| + |StaleIds(between, d, Unclaimed)| == |set id | id in t && !WithinGrace(d, t[id])|
  {
    var between := FailAll(t, StaleIds(t, d, Silent), stamp, ReasonFor(Silent));
    var u := AfterPass(t, d, stamp);
    OneStatement(t, d, Silent, stamp);
    OneStatement(between, d, Unclaimed, stamp);
    forall id | id in t
      ensures Stale(d, Unclaimed, between[id]) <==> Stale(d, Unclaimed, t[id])
      ensures RowEvolves(t[id], u[id]) && WithinGrace(d, u[id])
    {
    }
    CountBoth(t, d, between);
  }

  lemma CountBoth(t: Table, d: Deadlines, between: Table)
    requires between.Keys == t.Keys
    requires forall id :: id in t ==> (Stale(d, Unclaimed, between[id]) <==> Stale(d, Unclaimed, t[id]))
    ensures |StaleIds(t, d, Silent)| + |StaleIds(between, d, Unclaimed)| == |set id | id in t && !WithinGrace(d, t[id])|
  {
    var a, b := StaleIds(t, d, Silent), StaleIds(between, d, Unclaimed);
    assert a !! b;
    assert a + b == set id | id in t && !WithinGrace(d, t[id]);
  }

  // ── What the cadence buys ────────────────────────────────────────────────────

  /**
    A history of the job table with the time each table was installed and whether that was by
    a reaper pass. A pass leaves nothing stale.
  */
  datatype Timeline = Timeline(run: seq<Table>, at: seq<Time>, pass: seq<bool>)

  ghost predicate IsTimeline(ts: Timeline) {
    && |ts.run| == |ts.at| == |ts.pass|
    && IsHistory(ts.run)
    && (forall i, j :: 0 <= i < j < |ts.at| ==> ts.at[i] <= ts.at[j])
    && (forall i :: 0 <= i < |ts.run| && ts.pass[i] ==>
          forall id :: id in ts.run[i] ==> WithinGrace(DeadlinesAt(ts.at[i]), ts.run[i][id]))
  }

  /** While time goes on, a pass is followed by another at most ten minutes later. */
  ghost predicate EveryTenMinutes(ts: Timeline)
    requires IsTimeline(ts)
  {
    forall p {:trigger FollowedInTime(ts, p)} :: 0 <= p < |ts.run| && ts.pass[p] ==> FollowedInTime(ts, p)
  }

  ghost predicate FollowedInTime(ts: Timeline, p: nat)
    requires IsTimeline(ts) && p < |ts.run|
  {
    ts.at[|ts.at| - 1] > ts.at[p] + CHECK_EVERY ==>
      exists q :: p < q < |ts.run| && ts.pass[q] && ts.at[q] <= ts.at[p] + CHECK_EVERY
  }

  /** The three ways a job can be waiting for the reaper, with the time it is measured from. */
  datatype Stuck = WentSilent | NeverReported | NeverClaimed

  function Grace(k: Stuck): Time {
    match k
    case WentSilent => PROGRESS_GRACE
    case NeverReported => START_GRACE
    case NeverClaimed => PENDING_GRACE
  }

  predicate StuckSince(k: Stuck, j: Job, since: Time) {
    match k
    case WentSilent => j.status == Running && j.lastProgressAt == Some(since)
    case NeverReported => j.status == Running && j.lastProgressAt == None && StartedOrCreated(j) == since
    case NeverClaimed => j.status == Pending && j.createdAt == since
  }

  lemma {:induction false} NextPassAfter(ts: Timeline, p: nat, due: Time) returns (q: nat)
    requires IsTimeline(ts) && EveryTenMinutes(ts)
    requires p < |ts.run| && ts.pass[p] && ts.at[p] <= due && ts.at[|ts.at| - 1] > due + CHECK_EVERY
    ensures q < |ts.run| && ts.pass[q] && due < ts.at[q] <= due + CHECK_EVERY
    decreases |ts.run| - p
  {
    assert FollowedInTime(ts, p);
    q :| p < q < |ts.run| && ts.pass[q] && ts.at[q] <= ts.at[p] + CHECK_EVERY;
    if ts.at[q] <= due {
      q := NextPassAfter(ts, q, due);
    }
  }

  lemma LatePassEndsIt(ts: Timeline, k: Stuck, id: JobId, i: nat, since: Time, q: nat, end: nat)
    requires IsTimeline(ts) && i <= q <= end < |ts.run| && id in ts.run[i]
    requires ts.pass[q] && ts.at[q] > since + Grace(k)
    requires id in ts.run[q] ==> Terminal(ts.run[q][id].status) || StuckSince(k, ts.run[q][id], since)
    ensures id in ts.run[end] ==> Terminal(ts.run[end][id].status)
  {
    if id in ts.run[end] {
      PresentBetween(ts.run, i, q, end, id);
      assert WithinGrace(DeadlinesAt(ts.at[q]), ts.run[q][id]);
      NoWayBack(ts.run, q, end, id);
    }
  }

  /**
    A job that from moment `i` on is stuck since `since`, unless it has ended, has ended or is
    gone once its grace and one more check interval are over.
  */
  lemma StuckJobIsReaped(ts: Timeline, k: Stuck, id: JobId, i: nat, since: Time, p: nat, end: nat)
    requires IsTimeline(ts) && EveryTenMinutes(ts)
    requires i < |ts.run| && id in ts.run[i] && ts.at[i] <= since + Grace(k)
    requires forall n :: i <= n < |ts.run| && id in ts.run[n] ==>
               Terminal(ts.run[n][id].status) || StuckSince(k, ts.run[n][id], since)
    requires p < |ts.run| && ts.pass[p] && ts.at[p] <= since + Grace(k)
    requires end < |ts.run| && ts.at[end] > since + Grace(k) + CHECK_EVERY
    ensures id in ts.run[end] ==> Terminal(ts.run[end][id].status)
  {
    assert ts.at[|ts.at| - 1] >= ts.at[end];
    var q := NextPassAfter(ts, p, since + Grace(k));
    LatePassEndsIt(ts, k, id, i, since, q, end);
  }

  /** A running job that stops reporting progress is terminal within 40 minutes. */
  lemma SilentJobEndsIn40Minutes(ts: Timeline, id: JobId, i: nat, p: nat, end: nat)
    requires IsTimeline(ts) && EveryTenMinutes(ts)
    requires i < |ts.run| && id in ts.run[i] && ts.run[i][id].status == Running
    requires forall n :: i <= n < |ts.run| && id in ts.run[n] ==> ts.run[n][id].lastProgressAt == Some(ts.at[i])
    requires p < |ts.run| && ts.pass[p] && ts.at[p] <= ts.at[i] + PROGRESS_GRACE
    requires end < |ts.run| && ts.at[end] > ts.at[i] + 40 * MINUTE
    ensures id in ts.run[end] ==> Terminal(ts.run[end][id].status)
  {
    forall n | i <= n < |ts.run| && id in ts.run[n]
      ensures Terminal(ts.run[n][id].status) || StuckSince(WentSilent, ts.run[n][id], ts.at[i])
    {
      NoWayBack(ts.run, i, n, id);
    }
    StuckJobIsReaped(ts, WentSilent, id, i, ts.at[i], p, end);
  }

  /** A job no agent claims is terminal within 6 hours and 10 minutes. */
  lemma UnclaimedJobEndsIn370Minutes(ts: Timeline, id: JobId, i: nat, p: nat, end: nat)
    requires IsTimeline(ts) && EveryTenMinutes(ts)
    requires i < |ts.run| && id in ts.run[i] && ts.run[i][id].createdAt == ts.at[i]
    requires forall n :: i <= n < |ts.run| && id in ts.run[n] ==> ts.run[n][id].status != Running
    requires p < |ts.run| && ts.pass[p] && ts.at[p] <= ts.at[i] + 360 * MINUTE
    requires end < |ts.run| && ts.at[end] > ts.at[i] + 370 * MINUTE
    ensures id in ts.run[end] ==> Terminal(ts.run[end][id].status)
  {
    forall n | i <= n < |ts.run| && id in ts.run[n]
      ensures Terminal(ts.run[n][id].status) || StuckSince(NeverClaimed, ts.run[n][id], ts.at[i])
    {
      IdentityStays(ts.run, i, n, id);
    }
    StuckJobIsReaped(ts, NeverClaimed, id, i, ts.at[i], p, end);
  }

  /** A running job that never reports progress is terminal within 12 hours and 10 minutes of its start. */
  lemma UnreportingJobEndsIn730Minutes(ts: Timeline, id: JobId, i: nat, p: nat, end: nat)
    requires IsTimeline(ts) && EveryTenMinutes(ts)
    requires i < |ts.run| && id in ts.run[i] && ts.run[i][id].status == Running
    requires forall n :: i <= n < |ts.run| && id in ts.run[n] ==>
               ts.run[n][id].lastProgressAt == None && ts.run[n][id].startedAt == Some(ts.at[i])
    requires p < |ts.run| && ts.pass[p] && ts.at[p] <= ts.at[i] + 720 * MINUTE
    requires end < |ts.run| && ts.at[end] > ts.at[i] + 730 * MINUTE
    ensures id in ts.run[end] ==> Terminal(ts.run[end][id].status)
  {
    forall n | i <= n < |ts.run| && id in ts.run[n]
      ensures Terminal(ts.run[n][id].status) || StuckSince(NeverReported, ts.run[n][id], ts.at[i])
    {
      NoWayBack(ts.run, i, n, id);
    }
    StuckJobIsReaped(ts, NeverReported, id, i, ts.at[i], p, end);
  }
}
