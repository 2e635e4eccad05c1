/** What the delivery protocol guarantees over whole runs. */
module DeliveryTheorems {
  import opened Prelude
  import opened Jobs
  import opened Delivery
  import opened DeliverySafety

  lemma RunGrows(me: SystemId, run: seq<State>, k: nat)
    requires IsRun(me, run) && k + 1 < |run|
    ensures Grows(run[k], run[k + 1])
  {
    var step := StepOf(me, run, k);
  }

  ghost predicate Growing(run: seq<State>) {
    forall i :: 0 <= i < |run| - 1 ==> run[i].log.enqueued <= run[i + 1].log.enqueued
  }

  lemma {:induction false} EnqueuedForever(run: seq<State>, i: nat, k: nat)
    requires Growing(run) && i <= k < |run|
    ensures run[i].log.enqueued <= run[k].log.enqueued
  {
    if i < k {
      EnqueuedForever(run, i, k - 1);
      assert run[k - 1].log.enqueued <= run[k - 1 + 1].log.enqueued;
    }
  }

  /**
    Once `Enqueue` for a job has returned, at every later moment the outbox holds an event for
    the job, or the control plane has it terminal or deleted, or a 401 was answered for it:
    through crashes, lost answers, duplicates, and a stale `Ack` of the other thread.
  */
  lemma OutcomeNeverLost(me: SystemId, run: seq<State>, i: nat, k: nat)
    requires IsRun(me, run) && i < k < |run|
    requires run[i].runner.Reporting? && run[i + 1] == Do(me, run[i], ByRunner(EnqueueSucceeds))
    ensures var j := run[i].runner.e.job;
            || j in run[k].outbox
            || j !in run[k].jobs || Terminal(run[k].jobs[j].status)
            || j in run[k].log.rejected
  {
    forall n | 0 <= n < |run| - 1 ensures run[n].log.enqueued <= run[n + 1].log.enqueued {
      RunGrows(me, run, n);
    }
    EnqueuedForever(run, i + 1, k);
    RunKeepsInv(me, run, k);
  }

  /** `Ack` is only ever about to run for a job whose outcome is settled, whichever event it then removes. */
  lemma AcksAreSafe(me: SystemId, run: seq<State>, k: nat)
    requires IsRun(me, run) && k < |run|
    ensures run[k].runner.Acking? ==> Resolved(run[k], run[k].runner.job)
    ensures run[k].drainer.DrainAcking? ==> Resolved(run[k], run[k].drainer.job)
  {
    RunKeepsInv(me, run, k);
  }

  /** A 409 is decided by the second statement, on a row the first one has shown to be terminal. */
  lemma ConflictAnswer(me: SystemId, s: State, q: RequestId, a: HandlerStep)
    requires Enabled(me, s, ByHandler(q, a)) && HandlerGood(me, s, s.handlers[q]) && s.handlers[q].call.Report?
    requires DoHandler(me, s, q, a).handlers[q].pc == Replied(Conflict)
    ensures var j := s.handlers[q].job;
            j in DoHandler(me, s, q, a).jobs && Terminal(DoHandler(me, s, q, a).jobs[j].status)
  {
  }

  /** Only a handler's own steps change it. */
  lemma OthersLeaveHandlers(me: SystemId, s: State, step: Step, q: RequestId)
    requires Enabled(me, s, step) && q in s.handlers && (step.ByHandler? ==> step.q != q)
    ensures q in Do(me, s, step).handlers && Do(me, s, step).handlers[q] == s.handlers[q]
  {
    match step {
      case ByRunner(r) => RunnerIsRemote(me, s, r);
      case ByDrainer(d) => DrainerIsRemote(s, d);
      case ByHandler(p, a) => HandlerIsLocal(me, s, p, a);
      case ByWorld(w) =>
    }
  }

  /** The two-statement answer 409 to a terminal report is given only when the job is already terminal. */
  lemma ConflictMeansTerminal(me: SystemId, run: seq<State>, k: nat, q: RequestId)
    requires IsRun(me, run) && k + 1 < |run| && q in run[k].handlers && q in run[k + 1].handlers
    requires run[k].handlers[q].call.Report? && !run[k].handlers[q].pc.Replied?
    requires run[k + 1].handlers[q].pc == Replied(Conflict)
    ensures var j := run[k].handlers[q].job;
            j in run[k + 1].jobs && Terminal(run[k + 1].jobs[j].status)
  {
    var step := StepOf(me, run, k);
    assert HandlerGood(me, run[k], run[k].handlers[q]);
    if step.ByHandler? && step.q == q {
      ConflictAnswer(me, run[k], q, step.a);
    } else {
      OthersLeaveHandlers(me, run[k], step, q);
    }
  }

  /** Nor is any other permanent answer given while the job could still take the report. */
  lemma PermanentMeansResolved(me: SystemId, run: seq<State>, k: nat, q: RequestId)
    requires IsRun(me, run) && k < |run| && q in run[k].handlers
    requires run[k].handlers[q].call.Report? && run[k].handlers[q].pc.Replied?
    requires IsPermanent(run[k].handlers[q].pc.reply) || run[k].handlers[q].pc.reply.OK?
    ensures Resolved(run[k], run[k].handlers[q].job)
  {
    RunKeepsInv(me, run, k);
    assert HandlerGood(me, run[k], run[k].handlers[q]);
  }

  /** Complete and cancelled events exist only for jobs that are no longer pending. */
  lemma OutcomesFollowStarts(me: SystemId, run: seq<State>, k: nat, j: JobId)
    requires IsRun(me, run) && k < |run| && j in run[k].outbox && !run[k].outbox[j].kind.FailKind?
    ensures j in run[k].jobs ==> run[k].jobs[j].status != Pending
  {
    RunKeepsInv(me, run, k);
  }

  // ── Where outcomes come from ─────────────────────────────────────────────────

  /** At step `i` the backup of job `j` ended without error, having uploaded `bytes`. */
  ghost predicate RanOkAt(me: SystemId, run: seq<State>, i: nat, j: JobId, bytes: int) {
    && i + 1 < |run| && run[i].runner.Executing? && run[i].runner.job == j
    && run[i + 1] == Do(me, run[i], ByRunner(BackupSucceeds(bytes)))
  }

  /** At step `i` preparing job `j` failed, or its backup did and no operator had asked to stop it. */
  ghost predicate FailedAt(me: SystemId, run: seq<State>, i: nat, j: JobId, summary: string) {
    && i + 1 < |run|
    && (|| (run[i].runner == Preparing(j) && run[i + 1] == Do(me, run[i], ByRunner(LookupFails(summary))))
        || (run[i].runner == Executing(j, false) && run[i + 1] == Do(me, run[i], ByRunner(BackupFails(summary)))))
  }

  /** At step `i` the backup of job `j` ended after the agent had seen the operator's request. */
  ghost predicate StoppedAt(me: SystemId, run: seq<State>, i: nat, j: JobId) {
    && i + 1 < |run| && run[i].runner == Executing(j, true)
    && exists summary :: run[i + 1] == Do(me, run[i], ByRunner(BackupFails(summary)))
  }

  /** At step `i` the reaper failed job `j`. */
  ghost predicate ReapedAt(me: SystemId, run: seq<State>, i: nat, j: JobId) {
    i + 1 < |run| && exists now :: WorldEnabled(me, run[i], ReapJob(j, now)) && run[i + 1] == DoWorld(run[i], ReapJob(j, now))
  }

  /** What one step adds to the log of outcomes. */
  lemma LogGrowsBy(me: SystemId, s: State, step: Step)
    requires Enabled(me, s, step)
    ensures var t := Do(me, s, step);
            && t.log.ranOk == s.log.ranOk
                 + (if step.ByRunner? && step.r.BackupSucceeds? then {(s.runner.job, step.r.bytes)} else {})
            && t.log.failEvents == s.log.failEvents
                 + (if step.ByRunner? && (step.r.LookupFails? || (step.r.BackupFails? && !s.runner.cancelSeen))
                    then {(s.runner.job, step.r.summary)} else {})
            && t.log.stopped == s.log.stopped
                 + (if step.ByRunner? && step.r.BackupFails? && s.runner.cancelSeen then {s.runner.job} else {})
            && t.log.reaped == s.log.reaped + (if step.ByWorld? && step.w.ReapJob? then {step.w.job} else {})
  {
    match step {
      case ByRunner(r) =>
      case ByDrainer(d) => DrainLogs(s, d);
      case ByHandler(q, a) => HandlerLogs(me, s, q, a);
      case ByWorld(w) => WorldLogs(me, s, w);
    }
  }

  lemma DrainLogs(s: State, d: DrainStep)
    requires DrainEnabled(s, d)
    ensures DoDrain(s, d).log == s.log
  {
  }

  lemma HandlerLogs(me: SystemId, s: State, q: RequestId, a: HandlerStep)
    requires q in s.handlers && HandlerEnabled(s.handlers[q], a)
    ensures var t := DoHandler(me, s, q, a); t.log == s.log.(rejected := t.log.rejected)
  {
  }

  lemma WorldLogs(me: SystemId, s: State, w: WorldStep)
    requires WorldEnabled(me, s, w)
    ensures DoWorld(s, w).log == s.log.(reaped := s.log.reaped + (if w.ReapJob? then {w.job} else {}))
  {
  }

  lemma {:induction false} ReapIsOfTheRun(me: SystemId, run: seq<State>, k: nat, j: JobId) returns (i: nat)
    requires IsRun(me, run) && k < |run| && j in run[k].log.reaped
    ensures i < k && ReapedAt(me, run, i, j)
  {
    assert k > 0;
    var step := StepOf(me, run, k - 1);
    LogGrowsBy(me, run[k - 1], step);
    if j in run[k - 1].log.reaped {
      i := ReapIsOfTheRun(me, run, k - 1, j);
    } else {
      i := k - 1;
      assert WorldEnabled(me, run[i], step.w) && run[i + 1] == DoWorld(run[i], step.w);
    }
  }

  lemma {:induction false} RanOkIsOfTheRun(me: SystemId, run: seq<State>, k: nat, j: JobId, bytes: int) returns (i: nat)
    requires IsRun(me, run) && k < |run| && (j, bytes) in run[k].log.ranOk
    ensures i < k && RanOkAt(me, run, i, j, bytes)
  {
    assert k > 0;
    var step := StepOf(me, run, k - 1);
    LogGrowsBy(me, run[k - 1], step);
    if (j, bytes) in run[k - 1].log.ranOk {
      i := RanOkIsOfTheRun(me, run, k - 1, j, bytes);
    } else {
      i := k - 1;
    }
  }

  lemma {:induction false} FailureIsOfTheRun(me: SystemId, run: seq<State>, k: nat, j: JobId, summary: string) returns (i: nat)
    requires IsRun(me, run) && k < |run| && (j, summary) in run[k].log.failEvents
    ensures i < k && FailedAt(me, run, i, j, summary)
  {
    assert k > 0;
    var step := StepOf(me, run, k - 1);
    LogGrowsBy(me, run[k - 1], step);
    if (j, summary) in run[k - 1].log.failEvents {
      i := FailureIsOfTheRun(me, run, k - 1, j, summary);
    } else {
      i := k - 1;
    }
  }

  lemma {:induction false} StopIsOfTheRun(me: SystemId, run: seq<State>, k: nat, j: JobId) returns (i: nat)
    requires IsRun(me, run) && k < |run| && j in run[k].log.stopped
    ensures i < k && StoppedAt(me, run, i, j)
  {
    assert k > 0;
    var step := StepOf(me, run, k - 1);
    LogGrowsBy(me, run[k - 1], step);
    if j in run[k - 1].log.stopped {
      i := StopIsOfTheRun(me, run, k - 1, j);
    } else {
      i := k - 1;
    }
  }

  /**
    Why a job of this agent has the terminal status it has. Success: at an earlier step the agent's
    own backup of it ended without error, with exactly the bytes recorded. Cancelled: an operator's
    request is recorded, and the agent had seen it when the backup ended. Failed: an earlier step of
    the agent failed with exactly the summary recorded and had seen no request, or the reaper did it.
  */
  lemma TerminalStatusIsEarned(me: SystemId, run: seq<State>, k: nat, j: JobId) returns (i: nat)
    requires IsRun(me, run) && k < |run| && j in run[k].jobs && run[k].jobs[j].sys == me
    ensures var row := run[k].jobs[j];
            match row.status
            case Success => row.bytesUploaded.Some? && i < k && RanOkAt(me, run, i, j, row.bytesUploaded.value)
            case Cancelled => row.cancelRequestedAt.Some? && i < k && StoppedAt(me, run, i, j)
            case Failed =>
              && i < k
              && (|| ReapedAt(me, run, i, j)
                  || (row.errorSummary.Some? && row.errorSummary.value.Reported?
                      && FailedAt(me, run, i, j, row.errorSummary.value.text)))
            case _ => true
  {
    RunKeepsInv(me, run, k);
    var row := run[k].jobs[j];
    assert RowProvenance(row, j, run[k].log);
    i := 0;
    if row.status == Success {
      i := RanOkIsOfTheRun(me, run, k, j, row.bytesUploaded.value);
    } else if row.status == Cancelled {
      i := StopIsOfTheRun(me, run, k, j);
    } else if row.status == Failed && j in run[k].log.reaped {
      i := ReapIsOfTheRun(me, run, k, j);
    } else if row.status == Failed {
      i := FailureIsOfTheRun(me, run, k, j, row.errorSummary.value.text);
    }
  }

  /** However often and concurrently a completion is delivered: one snapshot at most, and only for a success. */
  lemma AtMostOneSnapshot(me: SystemId, run: seq<State>, k: nat, j: JobId)
    requires IsRun(me, run) && k < |run|
    ensures run[k].snapshots[j] <= 1
    ensures run[k].snapshots[j] == 1 ==> j in run[k].jobs && run[k].jobs[j].status == Success
  {
    RunKeepsInv(me, run, k);
  }

  // ── Job histories ────────────────────────────────────────────────────────────

  function Tables(run: seq<State>): seq<Table> {
    seq(|run|, i requires 0 <= i < |run| => run[i].jobs)
  }

  /** Every job of every run: legal status path, finish time written exactly once when it ended. */
  lemma JobsLiveOnce(me: SystemId, run: seq<State>, id: JobId)
    requires IsRun(me, run)
    ensures LegalPath(Path(Tables(run), id))
    ensures FinishWrites(Tables(run), id) == if HasEnded(Path(Tables(run), id)) then 1 else 0
  {
    var issued := seq(|run|, i requires 0 <= i < |run| => run[i].issued);
    forall i | 0 <= i < |run| ensures run[i].jobs.Keys <= run[i].issued {
      RunKeepsInv(me, run, i);
    }
    forall i | 0 <= i < |run| - 1
      ensures TableStep(run[i].jobs, run[i].issued, run[i + 1].jobs, run[i + 1].issued)
    {
      var step := StepOf(me, run, i);
    }
    StepsMakeHistory(Tables(run), issued);
    LifecycleOfOneJob(Tables(run), id);
  }

  // ── Delivery is always still possible ────────────────────────────────────────

  ghost predicate IsPath(me: SystemId, path: seq<State>) {
    path != [] && forall i :: 0 <= i < |path| - 1 ==> Next(me, path[i], path[i + 1])
  }

  /** `t` can be reached from `s`. */
  ghost predicate Reaches(me: SystemId, s: State, t: State) {
    exists path :: IsPath(me, path) && path[0] == s && path[|path| - 1] == t
  }

  lemma OneMore(me: SystemId, s: State, t: State, step: Step)
    requires Reaches(me, s, t) && Enabled(me, t, step)
    ensures Reaches(me, s, Do(me, t, step))
  {
    var path :| IsPath(me, path) && path[0] == s && path[|path| - 1] == t;
    var longer := path + [Do(me, t, step)];
    forall i | 0 <= i < |longer| - 1 ensures Next(me, longer[i], longer[i + 1]) {
      if i < |path| - 1 {
        assert Next(me, path[i], path[i + 1]);
      }
    }
    assert IsPath(me, longer);
  }

  /** The drain loop can send the event and the control plane can accept the token. */
  lemma CanBeAuthenticated(me: SystemId, s: State, j: JobId) returns (t: State, q: RequestId)
    requires Inv(me, s) && j in s.outbox
    ensures Reaches(me, s, t) && Inv(me, t) && q in t.handlers
    ensures t.handlers[q] == Handler(j, Report(s.outbox[j].kind), Authenticated)
  {
    var e := s.outbox[j];
    q := FreshNumber(s.handlers.Keys);
    assert IsPath(me, [s]) && [s][0] == s;
    t := CanStep(me, s, s, ByWorld(Crash));
    t := CanStep(me, s, t, ByDrainer(ListOutbox([e])));
    t := CanStep(me, s, t, ByDrainer(DrainSend(q)));
    t := CanStep(me, s, t, ByHandler(q, Authenticate(true)));
  }

  lemma CanStep(me: SystemId, s: State, t: State, step: Step) returns (u: State)
    requires Reaches(me, s, t) && Inv(me, t) && Enabled(me, t, step)
    ensures u == Do(me, t, step) && Reaches(me, s, u) && Inv(me, u)
  {
    u := Do(me, t, step);
    OneMore(me, s, t, step);
    StepKeepsInv(me, t, step);
  }

  /** From there the guarded transition leaves the job ended, whether it hits or misses. */
  lemma CanBeDecided(me: SystemId, s: State, t: State, q: RequestId) returns (u: State)
    requires Reaches(me, s, t) && Inv(me, t) && q in t.handlers
    requires t.handlers[q].call.Report? && t.handlers[q].pc.Authenticated? && t.handlers[q].job in t.jobs
    ensures Reaches(me, s, u) && Ended(u, t.handlers[q].job)
  {
    assert HandlerGood(me, t, t.handlers[q]);
    u := CanStep(me, s, t, ByHandler(q, Claim));
    assert u.handlers[q].pc.Claimed?;
    u := CanStep(me, s, u, ByHandler(q, Transition(0, true)));
    assert HandlerGood(me, u, u.handlers[q]);
  }

  /**
    From every reachable moment at which the outbox holds an event for a job, the system can still
    get to a moment at which the control plane has the job's outcome: no reachable state is a trap.
  */
  lemma DeliveryStillPossible(me: SystemId, run: seq<State>, k: nat, j: JobId) returns (u: State)
    requires IsRun(me, run) && k < |run| && j in run[k].outbox
    ensures Reaches(me, run[k], u) && Ended(u, j)
  {
    RunKeepsInv(me, run, k);
    var q;
    u, q := CanBeAuthenticated(me, run[k], j);
    if j in u.jobs {
      u := CanBeDecided(me, run[k], u, q);
    }
  }
}
