/** Linearizability, deadlock freedom and job histories of the dispatch protocol. */
module DispatchTheorems {
  import opened Prelude
  import opened Jobs
  import opened OperationState
  import opened Reaper
  import opened Dispatch
  import opened DispatchMeaning
  import opened DispatchSafety

  // ── Every answer is the answer of one atomic guard ───────────────────────────

  /** At state `j` of the run the transaction of session `sid` was open for `job`. */
  ghost predicate OpenAt(run: seq<State>, j: nat, sid: SessionId, job: JobId) {
    && j < |run| && sid in run[j].sessions
    && run[j].sessions[sid].Admit? && run[j].sessions[sid].job == job && Unfinished(run[j].sessions[sid])
  }

  /** Some table seen while the transaction was open makes the atomic guard answer `o`. */
  ghost predicate AnsweredAtomically(c: Config, run: seq<State>, k: nat, sid: SessionId, job: JobId,
                                     gate: Option<BlockReason>, o: Outcome) {
    exists j: nat :: j < k && OpenAt(run, j, sid, job) && AtomicGuard(c, run[j].jobs, job, gate) == o
  }

  /** The table on which a transaction decides to block makes the atomic guard block for the same reason. */
  lemma BlockDecision(c: Config, s: State, sid: SessionId, a: AdmitStep)
    requires Inv(c, s) && Enabled(s, sid, InAdmit(a))
    requires Do(c, s, sid, InAdmit(a)).sessions[sid].pc.Blocking?
    ensures var y := Do(c, s, sid, InAdmit(a)).sessions[sid];
            AtomicGuard(c, s.jobs, y.job, y.gate) == Blocked(y.pc.reason)
  {
    assert SessionGood(c, s.jobs, s.sessions[sid]);
  }

  /** So do the tables on which it returns without a decision to block, and the one it commits on. */
  lemma ReturnDecision(c: Config, s: State, sid: SessionId, a: AdmitStep)
    requires Inv(c, s) && Enabled(s, sid, InAdmit(a)) && !a.CommitBlocked? && !a.Update?
    requires Do(c, s, sid, InAdmit(a)).sessions[sid].pc.Returned?
    ensures var y := Do(c, s, sid, InAdmit(a)).sessions[sid];
            y.pc.outcome == TechnicalFailure || AtomicGuard(c, s.jobs, y.job, y.gate) == y.pc.outcome
  {
    assert SessionGood(c, s.jobs, s.sessions[sid]);
  }

  lemma {:induction false} BlockingWasDecided(c: Config, run: seq<State>, k: nat, sid: SessionId)
    requires IsRun(c, run) && k < |run|
    requires sid in run[k].sessions && run[k].sessions[sid].Admit? && run[k].sessions[sid].pc.Blocking?
    ensures var x := run[k].sessions[sid];
            AnsweredAtomically(c, run, k, sid, x.job, x.gate, Blocked(x.pc.reason))
  {
    var x := run[k].sessions[sid];
    var who, step := StepOf(c, run, k - 1);
    if sid != who || step.Insert? {
      OnlyMoverChanges(c, run[k - 1], who, step, sid);
      BlockingWasDecided(c, run, k - 1, sid);
    } else {
      BlockDecision(c, run[k - 1], sid, step.a);
      assert OpenAt(run, k - 1, sid, x.job);
    }
  }

  /**
    Given the gate result it read, an interleaved `AdmitStart` answers (allowed, or blocked with
    this very reason, or not found, or not pending) as one atomic guard run at a single point
    inside its transaction, although its three counts come from three snapshots.
  */
  lemma {:induction false} AdmitStartLinearizes(c: Config, run: seq<State>, k: nat, sid: SessionId)
    requires IsRun(c, run) && k < |run|
    requires sid in run[k].sessions && run[k].sessions[sid].Admit? && run[k].sessions[sid].pc.Returned?
    requires run[k].sessions[sid].pc.outcome != TechnicalFailure
    ensures var x := run[k].sessions[sid];
            AnsweredAtomically(c, run, k, sid, x.job, x.gate, x.pc.outcome)
  {
    var x := run[k].sessions[sid];
    var who, step := StepOf(c, run, k - 1);
    if sid != who || step.Insert? {
      OnlyMoverChanges(c, run[k - 1], who, step, sid);
      AdmitStartLinearizes(c, run, k - 1, sid);
    } else {
      assert OpenAt(run, k - 1, sid, x.job);
      if step.a.CommitBlocked? {
        BlockingWasDecided(c, run, k - 1, sid);
      } else {
        StepIsNoAnomaly(c, run[k - 1], sid, step);
        ReturnDecision(c, run[k - 1], sid, step.a);
      }
    }
  }

  /** At step `i` the session read this operation state and heartbeat, at that time. */
  ghost predicate ReadAt(c: Config, run: seq<State>, i: nat, sid: SessionId, op: OpState, lastSeen: Option<int>, at: Time) {
    && i + 1 < |run| && Enabled(run[i], sid, InAdmit(ReadSystem(op, lastSeen, at)))
    && run[i + 1] == Do(c, run[i], sid, InAdmit(ReadSystem(op, lastSeen, at)))
  }

  predicate PastTheGates(pc: AdmitPc) {
    !pc.Begun? && !pc.Loaded? && (pc.Returned? ==> pc.outcome.Allowed? || pc.outcome.Blocked?)
  }

  /** Every step past the gates keeps the gate result, except the one that reads it. */
  lemma GateStays(c: Config, s: State, sid: SessionId, step: Step)
    requires Enabled(s, sid, step) && !step.Insert?
    requires var t := Do(c, s, sid, step); sid in t.sessions && t.sessions[sid].Admit? && PastTheGates(t.sessions[sid].pc)
    ensures step.InAdmit?
    ensures !step.a.ReadSystem? ==>
              && sid in s.sessions && s.sessions[sid].Admit? && PastTheGates(s.sessions[sid].pc)
              && Do(c, s, sid, step).sessions[sid].gate == s.sessions[sid].gate
    ensures step.a.ReadSystem? ==>
              Do(c, s, sid, step).sessions[sid].gate == Gate(step.a.opState, step.a.lastSeen, step.a.at)
  {
  }

  /** The gate result a session goes by is that of an operation state and heartbeat it has read. */
  lemma {:induction false} GateWasRead(c: Config, run: seq<State>, k: nat, sid: SessionId)
    returns (i: nat, op: OpState, lastSeen: Option<int>, at: Time)
    requires IsRun(c, run) && k < |run|
    requires sid in run[k].sessions && run[k].sessions[sid].Admit? && PastTheGates(run[k].sessions[sid].pc)
    ensures i < k && ReadAt(c, run, i, sid, op, lastSeen, at)
    ensures run[k].sessions[sid].gate == Gate(op, lastSeen, at)
  {
    assert k > 0;
    var who, step := StepOf(c, run, k - 1);
    if sid != who || step.Insert? {
      OnlyMoverChanges(c, run[k - 1], who, step, sid);
      i, op, lastSeen, at := GateWasRead(c, run, k - 1, sid);
    } else {
      GateStays(c, run[k - 1], sid, step);
      if step.a.ReadSystem? {
        i, op, lastSeen, at := k - 1, step.a.opState, step.a.lastSeen, step.a.at;
        ItWasRead(c, run, i, sid, step);
      } else {
        i, op, lastSeen, at := GateWasRead(c, run, k - 1, sid);
      }
    }
  }

  lemma ItWasRead(c: Config, run: seq<State>, i: nat, sid: SessionId, step: Step)
    requires i + 1 < |run| && Enabled(run[i], sid, step) && run[i + 1] == Do(c, run[i], sid, step)
    requires step.InAdmit? && step.a.ReadSystem?
    ensures ReadAt(c, run, i, sid, step.a.opState, step.a.lastSeen, step.a.at)
  {
  }

  /**
    What an interleaved `AdmitStart` answers is true of the data: of the operation state and the
    heartbeat it read in its transaction, and of the job table at one moment of the transaction.
  */
  lemma AnswersAreTrueOfTheData(c: Config, run: seq<State>, k: nat, sid: SessionId)
    returns (j: nat, op: OpState, lastSeen: Option<int>, at: Time)
    requires IsRun(c, run) && k < |run|
    requires sid in run[k].sessions && run[k].sessions[sid].Admit? && run[k].sessions[sid].pc.Returned?
    requires run[k].sessions[sid].pc.outcome != TechnicalFailure
    ensures var x := run[k].sessions[sid];
            && j < k && OpenAt(run, j, sid, x.job)
            && OutcomeMeans(c, run[j].jobs, x.job, op, lastSeen, at, x.pc.outcome)
            && WithinLimits(c, run[j].jobs)
            && (x.pc.outcome.Allowed? || x.pc.outcome.Blocked? ==>
                  exists i: nat :: i < k && ReadAt(c, run, i, sid, op, lastSeen, at))
  {
    var x := run[k].sessions[sid];
    AdmitStartLinearizes(c, run, k, sid);
    j :| j < k && OpenAt(run, j, sid, x.job) && AtomicGuard(c, run[j].jobs, x.job, x.gate) == x.pc.outcome;
    CeilingsHold(c, run, j);
    op, lastSeen, at := Active, None, 0;
    if PastTheGates(x.pc) {
      var i;
      i, op, lastSeen, at := GateWasRead(c, run, k, sid);
    }
    GuardMeans(c, run[j].jobs, x.job, op, lastSeen, at, x.pc.outcome);
  }

  /** "Allowed" is only answered by the very commit that turned the pending row into a running one. */
  lemma AllowedMeansStarted(c: Config, run: seq<State>, k: nat, sid: SessionId)
    requires IsRun(c, run) && k + 1 < |run|
    requires sid in run[k + 1].sessions && run[k + 1].sessions[sid].Admit?
    requires run[k + 1].sessions[sid].pc == Returned(Allowed)
    requires sid in run[k].sessions ==> run[k].sessions[sid] != run[k + 1].sessions[sid]
    ensures var job := run[k + 1].sessions[sid].job;
            && job in run[k].jobs && run[k].jobs[job].status == Pending
            && job in run[k + 1].jobs && run[k + 1].jobs[job].status == Running
  {
    var who, step := StepOf(c, run, k);
    if sid != who || step.Insert? {
      OnlyMoverChanges(c, run[k], who, step, sid);
    } else {
      assert SessionGood(c, run[k].jobs, run[k].sessions[sid]);
    }
  }

  // ── No deadlock ──────────────────────────────────────────────────────────────

  /** Session `a` cannot go on before session `b` gives up a lock. */
  predicate WaitsFor(s: State, a: SessionId, b: SessionId) {
    && a in s.sessions
    && match s.sessions[a]
       case Admit(job, _, pc) =>
         || (pc.Begun? && job in s.jobs && job in s.locks && s.locks[job] == b)
         || (pc.Gated? && s.advisory == Some(b))
       case Single(target, op, pc) =>
         pc.Waiting? && Hits(s.jobs, target, op) && target in s.locks && s.locks[target] == b
       case Reap(_, _, phase, scanning, todo, _) =>
         && !phase.Over? && scanning && todo != [] && todo[0] in s.jobs
         && todo[0] in s.locks && s.locks[todo[0]] == b
  }

  /** Who may wait for whom: first statements, then the reaper, then the advisory queue. */
  function Rank(x: Session): nat {
    match x
    case Admit(_, _, pc) => if pc.Begun? then 3 else if pc.Gated? then 1 else 0
    case Single(_, _, pc) => if pc.Waiting? then 3 else 0
    case Reap(_, _, _, _, _, _) => 2
  }

  /** Every wait is for an unfinished session of strictly lower rank. */
  lemma WaitsGoDown(c: Config, s: State, a: SessionId, b: SessionId)
    requires Inv(c, s) && WaitsFor(s, a, b)
    ensures b in s.sessions && Unfinished(s.sessions[b]) && Rank(s.sessions[b]) < Rank(s.sessions[a])
  {
    var x := s.sessions[a];
    assert SessionGood(c, s.jobs, x);
    if x.Admit? && x.pc.Gated? {
      assert InDecision(s.sessions[b]);
    } else {
      var id := if x.Admit? then x.job else if x.Single? then x.target else x.todo[0];
      assert Holds(s.sessions[b], id);
      assert SessionGood(c, s.jobs, s.sessions[b]);
      if x.Reap? && s.sessions[b].Reap? {
        assert ActiveReaper(s, a) && ActiveReaper(s, b);
      }
    }
  }

  ghost predicate WaitsAt(s: State, walk: seq<SessionId>, i: nat)
    requires i + 1 < |walk|
  {
    WaitsFor(s, walk[i], walk[i + 1])
  }

  /** No walk along waits ever comes back to where it started. */
  lemma NoWaitCycle(c: Config, run: seq<State>, k: nat, walk: seq<SessionId>)
    requires IsRun(c, run) && k < |run|
    requires |walk| >= 2 && walk[0] == walk[|walk| - 1]
    ensures exists i: nat :: i + 1 < |walk| && !WaitsAt(run[k], walk, i)
  {
    RunKeepsInv(c, run, k);
    if forall i: nat :: i + 1 < |walk| ==> WaitsAt(run[k], walk, i) {
      RanksFall(c, run[k], walk, |walk| - 1);
    }
  }

  lemma {:induction false} RanksFall(c: Config, s: State, walk: seq<SessionId>, i: nat)
    requires Inv(c, s) && 0 < i < |walk|
    requires forall j: nat :: j + 1 < |walk| ==> WaitsAt(s, walk, j)
    ensures walk[0] in s.sessions && walk[i] in s.sessions
    ensures Rank(s.sessions[walk[i]]) < Rank(s.sessions[walk[0]])
  {
    assert WaitsAt(s, walk, i - 1);
    WaitsGoDown(c, s, walk[i - 1], walk[i]);
    if i > 1 {
      RanksFall(c, s, walk, i - 1);
    }
  }

  /** Any set can be listed; the order a table scan happens to use. */
  lemma SomeOrder(ids: set<JobId>) returns (order: seq<JobId>)
    ensures forall id :: id in order <==> id in ids
    ensures forall i, j :: 0 <= i < j < |order| ==> order[i] != order[j]
  {
    if ids == {} {
      order := [];
    } else {
      var id :| id in ids;
      var rest := SomeOrder(ids - {id});
      order := [id] + rest;
    }
  }

  predicate OwnStep(step: Step) {
    (step.InAdmit? && !step.a.Abort?) || step.InSingle? || step.InReap?
  }

  /** An unfinished session that waits for nobody has an enabled statement. */
  lemma UnblockedCanStep(c: Config, s: State, sid: SessionId) returns (step: Step)
    requires Inv(c, s) && sid in s.sessions && Unfinished(s.sessions[sid])
    requires forall b :: !WaitsFor(s, sid, b)
    ensures OwnStep(step) && Enabled(s, sid, step)
  {
    match s.sessions[sid] {
      case Admit(job, _, pc) =>
        assert pc.Begun? && job in s.jobs && job in s.locks ==> WaitsFor(s, sid, s.locks[job]);
        assert pc.Gated? && s.advisory.Some? ==> WaitsFor(s, sid, s.advisory.value);
        step := InAdmit(match pc
          case Begun => LoadJob
          case Loaded(_, _) => ReadSystem(Active, None, 0)
          case Gated(_, _) => TakeAdvisory
          case Serialized(_, _) => CountGlobal
          case CountedGlobal(_, _, _) => CountRepo
          case CountedRepo(_, _, _, _) => CountAgent
          case CountedAgent(_, _, _, _, _) => Update
          case Updated(_, _) => CommitAdmit(0, true)
          case _ => CommitBlocked);
      case Single(target, op, pc) =>
        assert pc.Waiting? && Hits(s.jobs, target, op) && target in s.locks ==> WaitsFor(s, sid, s.locks[target]);
        step := InSingle(if pc.Holding? then CommitRow else if Hits(s.jobs, target, op) then LockRow else Miss);
      case Reap(d, _, phase, scanning, todo, _) =>
        if !scanning {
          var order := SomeOrder(set id | id in s.jobs && Stale(d, phase, s.jobs[id]));
          assert ScanOrder(s.jobs, d, phase, order);
          step := InReap(Scan(order));
        } else if todo == [] {
          step := InReap(CommitReap);
        } else {
          assert todo[0] in s.jobs && todo[0] in s.locks ==> WaitsFor(s, sid, s.locks[todo[0]]);
          step := InReap(Visit);
        }
    }
  }

  lemma {:induction false} SomeoneCanStep(c: Config, s: State, sid: SessionId) returns (mover: SessionId, step: Step)
    requires Inv(c, s) && sid in s.sessions && Unfinished(s.sessions[sid])
    ensures mover in s.sessions && Unfinished(s.sessions[mover]) && OwnStep(step) && Enabled(s, mover, step)
    decreases Rank(s.sessions[sid])
  {
    if b :| WaitsFor(s, sid, b) {
      WaitsGoDown(c, s, sid, b);
      mover, step := SomeoneCanStep(c, s, b);
    } else {
      mover := sid;
      step := UnblockedCanStep(c, s, sid);
    }
  }

  /** While any session is unfinished, some unfinished session has a statement that need not wait. */
  lemma NoDeadlock(c: Config, run: seq<State>, k: nat, sid: SessionId) returns (mover: SessionId, step: Step)
    requires IsRun(c, run) && k < |run|
    requires sid in run[k].sessions && Unfinished(run[k].sessions[sid])
    ensures mover in run[k].sessions && Unfinished(run[k].sessions[mover])
    ensures OwnStep(step) && Enabled(run[k], mover, step)
  {
    RunKeepsInv(c, run, k);
    mover, step := SomeoneCanStep(c, run[k], sid);
  }

  // ── The committed tables form a history ──────────────────────────────────────

  lemma AdmitEvolves(c: Config, s: State, sid: SessionId, a: AdmitStep)
    requires Coherent(s.jobs) && Enabled(s, sid, InAdmit(a))
    ensures var s' := Do(c, s, sid, InAdmit(a));
            TableStep(s.jobs, s.issued, s'.jobs, s'.issued)
  {
    if a.CommitAdmit? {
      ApplyEvolves(s.jobs, s.sessions[sid].job, Start(a.now));
    }
  }

  lemma ReapEvolves(c: Config, s: State, sid: SessionId, r: ReapStep)
    requires Coherent(s.jobs) && Enabled(s, sid, InReap(r))
    requires forall id :: id in s.sessions[sid].held ==> id in s.jobs && !Terminal(s.jobs[id].status)
    ensures var s' := Do(c, s, sid, InReap(r));
            TableStep(s.jobs, s.issued, s'.jobs, s'.issued)
  {
  }

  lemma OtherStepsEvolve(c: Config, s: State, sid: SessionId, step: Step)
    requires Coherent(s.jobs) && Enabled(s, sid, step) && !step.InAdmit? && !step.InReap?
    ensures var s' := Do(c, s, sid, step);
            s.jobs.Keys <= s.issued ==> TableStep(s.jobs, s.issued, s'.jobs, s'.issued)
  {
    if step.InSingle? {
      ApplyEvolves(s.jobs, s.sessions[sid].target, s.sessions[sid].op);
    }
  }

  lemma RunEvolves(c: Config, run: seq<State>, k: nat)
    requires IsRun(c, run) && k + 1 < |run|
    ensures TableStep(run[k].jobs, run[k].issued, run[k + 1].jobs, run[k + 1].issued)
  {
    var sid, step := StepOf(c, run, k);
    match step {
      case InAdmit(a) => AdmitEvolves(c, run[k], sid, a);
      case InReap(r) =>
        assert SessionGood(c, run[k].jobs, run[k].sessions[sid]);
        ReapEvolves(c, run[k], sid, r);
      case _ => OtherStepsEvolve(c, run[k], sid, step);
    }
  }

  function Tables(run: seq<State>): seq<Table> {
    seq(|run|, i requires 0 <= i < |run| => run[i].jobs)
  }

  /** Hence `LifecycleOfOneJob` holds of every run of the protocol. */
  lemma RunIsHistory(c: Config, run: seq<State>)
    requires IsRun(c, run)
    ensures IsHistory(Tables(run))
  {
    var issued := seq(|run|, i requires 0 <= i < |run| => run[i].issued);
    forall i | 0 <= i < |run| - 1
      ensures TableStep(run[i].jobs, run[i].issued, run[i + 1].jobs, run[i + 1].issued)
    {
      RunEvolves(c, run, i);
    }
    forall i | 0 <= i < |run| ensures run[i].jobs.Keys <= run[i].issued {
      RunKeepsInv(c, run, i);
    }
    StepsMakeHistory(Tables(run), issued);
  }

  /** Every job of every run: legal status path, finish time written exactly once when it ended. */
  lemma JobsLiveOnce(c: Config, run: seq<State>, id: JobId)
    requires IsRun(c, run)
    ensures LegalPath(Path(Tables(run), id))
    ensures FinishWrites(Tables(run), id) == if HasEnded(Path(Tables(run), id)) then 1 else 0
  {
    RunIsHistory(c, run);
    LifecycleOfOneJob(Tables(run), id);
  }
}
