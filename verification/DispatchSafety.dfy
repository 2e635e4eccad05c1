/** Invariants of every run of the dispatch protocol, and the ceilings that follow. */
module DispatchSafety {
  import opened Prelude
  import opened Jobs
  import opened OperationState
  import opened Reaper
  import opened Dispatch

  // ── The invariant, one concern per predicate ─────────────────────────────────

  /** The lock table and the sessions agree on who holds which row. */
  ghost predicate LocksMatch(s: State) {
    && (forall id :: id in s.locks ==> s.locks[id] in s.sessions && Holds(s.sessions[s.locks[id]], id))
    && (forall sid, id :: sid in s.sessions && Holds(s.sessions[sid], id) ==> id in s.locks && s.locks[id] == sid)
  }

  /** Exactly the session inside the resource decision holds the advisory lock. */
  ghost predicate AdvisoryMatches(s: State) {
    && (s.advisory.Some? ==> s.advisory.value in s.sessions && InDecision(s.sessions[s.advisory.value]))
    && (forall sid :: sid in s.sessions && InDecision(s.sessions[sid]) ==> s.advisory == Some(sid))
  }

  predicate InDecision(x: Session) { x.Admit? && HoldsAdvisory(x.pc) }

  /** What a transaction read from its locked job row is still what the committed row says. */
  ghost predicate ReadsStillTrue(c: Config, t: Table, job: JobId, gate: Option<BlockReason>, pc: AdmitPc) {
    && (HoldsRow(pc) ==>
          job in t && t[job].status == Pending && t[job].policy in c.policies)
    && (HoldsRow(pc) && !pc.Blocking? ==> pc.sys == t[job].sys && pc.repo == c.policies[t[job].policy])
    && (HoldsRow(pc) && !pc.Blocking? && !pc.Loaded? ==> gate == None)
    && (pc.Blocking? && !HoldsAdvisory(pc) ==> gate == Some(pc.reason))
  }

  /** Counts taken earlier under the advisory lock are upper bounds now, and below the limits. */
  ghost predicate CountsStillBound(c: Config, t: Table, pc: AdmitPc) {
    && (pc.CountedGlobal? || pc.CountedRepo? || pc.CountedAgent? ==>
          |RunningJobs(t)| <= pc.g < c.limits.global)
    && ((pc.CountedRepo? || pc.CountedAgent?) && pc.repo.Some? ==>
          |RunningInRepo(c, t, pc.repo.value)| <= pc.r < c.limits.perRepository)
    && (pc.CountedAgent? ==> |RunningOnAgent(t, pc.sys)| <= pc.a < c.limits.perAgent)
    && (pc.Updated? ==>
          && |RunningJobs(t)| < c.limits.global
          && (pc.repo.Some? ==> |RunningInRepo(c, t, pc.repo.value)| < c.limits.perRepository)
          && |RunningOnAgent(t, pc.sys)| < c.limits.perAgent)
  }

  ghost predicate SessionGood(c: Config, t: Table, x: Session) {
    match x
    case Admit(job, gate, pc) => ReadsStillTrue(c, t, job, gate, pc) && CountsStillBound(c, t, pc)
    case Single(target, op, spc) => !op.Start? && (spc.Holding? ==> Hits(t, target, op))
    case Reap(d, _, phase, scanning, todo, held) =>
      && (forall id :: id in held ==> id in t && Stale(d, phase, t[id]))
      && (phase.Over? || !scanning ==> held == {})
      && (forall id :: id in todo ==> id !in held)
      && (forall i, j :: 0 <= i < j < |todo| ==> todo[i] != todo[j])
  }

  predicate ActiveReaper(s: State, sid: SessionId) {
    sid in s.sessions && s.sessions[sid].Reap? && Unfinished(s.sessions[sid])
  }

  ghost predicate OneReaper(s: State) {
    forall a, b :: ActiveReaper(s, a) && ActiveReaper(s, b) ==> a == b
  }

  ghost predicate Inv(c: Config, s: State) {
    && LocksMatch(s)
    && AdvisoryMatches(s)
    && (forall sid :: sid in s.sessions ==> SessionGood(c, s.jobs, s.sessions[sid]))
    && OneReaper(s)
    && s.jobs.Keys <= s.issued
    && Coherent(s.jobs)
    && WithinLimits(c, s.jobs)
  }

  // ── How the running sets move ────────────────────────────────────────────────

  /** No row became running, and rows that stay running keep agent and policy. */
  ghost predicate NoNewRunning(t: Table, u: Table) {
    forall id :: id in u && u[id].status == Running ==>
      id in t && t[id].status == Running && t[id].sys == u[id].sys && t[id].policy == u[id].policy
  }

  lemma CountsOnlyFall(c: Config, t: Table, u: Table)
    requires NoNewRunning(t, u)
    ensures |RunningJobs(u)| <= |RunningJobs(t)|
    ensures forall repo :: |RunningInRepo(c, u, repo)| <= |RunningInRepo(c, t, repo)|
    ensures forall sys :: |RunningOnAgent(u, sys)| <= |RunningOnAgent(t, sys)|
    ensures WithinLimits(c, t) ==> WithinLimits(c, u)
  {
    SubsetCardinality(RunningJobs(u), RunningJobs(t));
    forall repo ensures |RunningInRepo(c, u, repo)| <= |RunningInRepo(c, t, repo)| {
      SubsetCardinality(RunningInRepo(c, u, repo), RunningInRepo(c, t, repo));
    }
    forall sys ensures |RunningOnAgent(u, sys)| <= |RunningOnAgent(t, sys)| {
      SubsetCardinality(RunningOnAgent(u, sys), RunningOnAgent(t, sys));
    }
  }

  /** Admitting one more job below every limit it falls under stays within all limits. */
  lemma AdmitKeepsCeilings(c: Config, t: Table, id: JobId, at: Time)
    requires WithinLimits(c, t) && id in t && t[id].status == Pending && t[id].policy in c.policies
    requires |RunningJobs(t)| < c.limits.global
    requires var repo := c.policies[t[id].policy];
             repo.Some? ==> |RunningInRepo(c, t, repo.value)| < c.limits.perRepository
    requires |RunningOnAgent(t, t[id].sys)| < c.limits.perAgent
    ensures WithinLimits(c, Apply(t, id, Start(at)))
  {
    var u := Apply(t, id, Start(at));
    assert |RunningJobs(u)| <= |RunningJobs(t)| + 1 by {
      AtMostOneMore(RunningJobs(t), RunningJobs(u), id);
    }
    forall repo ensures |RunningInRepo(c, u, repo)| <= c.limits.perRepository {
      if WritesTo(c, t[id], repo) {
        AtMostOneMore(RunningInRepo(c, t, repo), RunningInRepo(c, u, repo), id);
      } else {
        SubsetCardinality(RunningInRepo(c, u, repo), RunningInRepo(c, t, repo));
      }
    }
    forall sys ensures |RunningOnAgent(u, sys)| <= c.limits.perAgent {
      if t[id].sys == sys {
        AtMostOneMore(RunningOnAgent(t, sys), RunningOnAgent(u, sys), id);
      } else {
        SubsetCardinality(RunningOnAgent(u, sys), RunningOnAgent(t, sys));
      }
    }
  }

  lemma AtMostOneMore(a: set<JobId>, b: set<JobId>, id: JobId)
    requires b <= a + {id}
    ensures |b| <= |a| + 1
  {
    SubsetCardinality(b, a + {id});
  }

  // ── Preservation ─────────────────────────────────────────────────────────────

  /** Rows locked by other sessions are untouched. */
  ghost predicate OthersRowsKept(s: State, sid: SessionId, u: Table) {
    forall id :: id in s.locks && s.locks[id] != sid ==> (id in u <==> id in s.jobs) && (id in u ==> u[id] == s.jobs[id])
  }

  /** A session that did not move stays good when no row starts running and its rows are kept. */
  lemma BystanderStaysGood(c: Config, s: State, sid: SessionId, s': State, other: SessionId)
    requires Inv(c, s) && other in s.sessions && other != sid
    requires OthersRowsKept(s, sid, s'.jobs)
    requires NoNewRunning(s.jobs, s'.jobs) || s.advisory == Some(sid)
    ensures SessionGood(c, s'.jobs, s.sessions[other])
  {
    var x := s.sessions[other];
    match x {
      case Admit(job, gate, pc) =>
        if HoldsRow(pc) {
          assert Holds(x, job);
          assert s.locks[job] == other;
        }
        if HoldsAdvisory(pc) {
          assert InDecision(x);
          assert s.advisory == Some(other);
          CountsOnlyFall(c, s.jobs, s'.jobs);
        }
        assert SessionGood(c, s.jobs, x);
      case Single(target, op, spc) =>
        if spc.Holding? {
          assert Holds(x, target);
          assert s.locks[target] == other;
        }
        assert SessionGood(c, s.jobs, x);
      case Reap(d, _, phase, _, _, held) =>
        forall id | id in held ensures id in s'.jobs && Stale(d, phase, s'.jobs[id]) {
          assert Holds(x, id);
          assert s.locks[id] == other;
          assert SessionGood(c, s.jobs, x);
        }
        assert SessionGood(c, s.jobs, x);
    }
  }

  // The three ways a session can move: go on, go on with one more row lock, end.

  /** Everything the invariant asks beyond locks, once the moving session is good. */
  lemma RestOfInv(c: Config, s: State, sid: SessionId, s': State, to: Session)
    requires Inv(c, s) && s'.sessions == s.sessions[sid := to]
    requires LocksMatch(s') && AdvisoryMatches(s') && SessionGood(c, s'.jobs, to)
    requires OthersRowsKept(s, sid, s'.jobs)
    requires NoNewRunning(s.jobs, s'.jobs) || s.advisory == Some(sid)
    requires to.Reap? ==> MayReap(s, sid)
    requires s'.jobs.Keys <= s'.issued && Coherent(s'.jobs) && WithinLimits(c, s'.jobs)
    ensures Inv(c, s')
  {
    forall other | other in s'.sessions ensures SessionGood(c, s'.jobs, s'.sessions[other]) {
      if other != sid {
        BystanderStaysGood(c, s, sid, s', other);
      }
    }
    forall a, b | ActiveReaper(s', a) && ActiveReaper(s', b) ensures a == b {
      assert a != sid ==> ActiveReaper(s, a);
      assert b != sid ==> ActiveReaper(s, b);
    }
  }

  ghost predicate MayReap(s: State, sid: SessionId) {
    ActiveReaper(s, sid) || forall r :: r in s.sessions && s.sessions[r].Reap? ==> !Unfinished(s.sessions[r])
  }

  ghost predicate HoldsTheSame(s: State, sid: SessionId, to: Session) {
    forall id :: Holds(to, id) <==> sid in s.sessions && Holds(s.sessions[sid], id)
  }

  lemma MovedKeepsInv(c: Config, s: State, sid: SessionId, to: Session)
    requires Inv(c, s) && HoldsTheSame(s, sid, to)
    requires InDecision(to) == (sid in s.sessions && InDecision(s.sessions[sid]))
    requires SessionGood(c, s.jobs, to) && (to.Reap? ==> MayReap(s, sid))
    ensures Inv(c, Moved(s, sid, to))
  {
    RestOfInv(c, s, sid, Moved(s, sid, to), to);
  }

  lemma AdvisoryKeepsInv(c: Config, s: State, sid: SessionId, to: Session)
    requires Inv(c, s) && sid in s.sessions && HoldsTheSame(s, sid, to)
    requires s.advisory == None && InDecision(to)
    requires SessionGood(c, s.jobs, to)
    ensures Inv(c, Moved(s, sid, to).(advisory := Some(sid)))
  {
    RestOfInv(c, s, sid, Moved(s, sid, to).(advisory := Some(sid)), to);
  }

  lemma LockedKeepsInv(c: Config, s: State, sid: SessionId, id: JobId, to: Session)
    requires Inv(c, s) && Free(s, id) && sid in s.sessions
    requires forall other :: Holds(to, other) <==> Holds(s.sessions[sid], other) || other == id
    requires InDecision(to) == InDecision(s.sessions[sid])
    requires SessionGood(c, s.jobs, to) && (to.Reap? ==> MayReap(s, sid))
    ensures Inv(c, Locked(s, sid, id, to))
  {
    RestOfInv(c, s, sid, Locked(s, sid, id, to), to);
  }

  lemma EndedKeepsInv(c: Config, s: State, sid: SessionId, jobs: Table, to: Session)
    requires Inv(c, s) && sid in s.sessions
    requires !InDecision(to) && forall id :: !Holds(to, id)
    requires SessionGood(c, jobs, to) && (to.Reap? ==> MayReap(s, sid))
    requires OthersRowsKept(s, sid, jobs)
    requires NoNewRunning(s.jobs, jobs) || s.advisory == Some(sid)
    requires jobs.Keys <= s.jobs.Keys && Coherent(jobs) && WithinLimits(c, jobs)
    ensures Inv(c, Ended(s, sid, jobs, to))
  {
    RestOfInv(c, s, sid, Ended(s, sid, jobs, to), to);
  }

  lemma LoadKeepsInv(c: Config, s: State, sid: SessionId)
    requires Inv(c, s) && Enabled(s, sid, InAdmit(LoadJob))
    ensures Inv(c, Do(c, s, sid, InAdmit(LoadJob)))
  {
    var x := s.sessions[sid];
    var y := Do(c, s, sid, InAdmit(LoadJob)).sessions[sid];
    assert SessionGood(c, s.jobs, x);
    if y.pc.Returned? {
      EndedKeepsInv(c, s, sid, s.jobs, y);
    } else {
      LockedKeepsInv(c, s, sid, x.job, y);
    }
  }

  lemma GateKeepsInv(c: Config, s: State, sid: SessionId, a: AdmitStep)
    requires Inv(c, s) && Enabled(s, sid, InAdmit(a)) && (a.ReadSystem? || a.TakeAdvisory?)
    ensures Inv(c, Do(c, s, sid, InAdmit(a)))
  {
    var x := s.sessions[sid];
    var y := Do(c, s, sid, InAdmit(a)).sessions[sid];
    assert SessionGood(c, s.jobs, x);
    if a.ReadSystem? {
      GateIsNoLimit(a.opState, a.lastSeen, a.at);
      MovedKeepsInv(c, s, sid, y);
    } else {
      AdvisoryKeepsInv(c, s, sid, y);
    }
  }

  lemma CountKeepsInv(c: Config, s: State, sid: SessionId, a: AdmitStep)
    requires Inv(c, s) && Enabled(s, sid, InAdmit(a)) && (a.CountGlobal? || a.CountRepo? || a.CountAgent?)
    ensures Inv(c, Do(c, s, sid, InAdmit(a)))
  {
    assert SessionGood(c, s.jobs, s.sessions[sid]);
    MovedKeepsInv(c, s, sid, Do(c, s, sid, InAdmit(a)).sessions[sid]);
  }

  lemma WriteKeepsInv(c: Config, s: State, sid: SessionId, a: AdmitStep)
    requires Inv(c, s) && Enabled(s, sid, InAdmit(a))
    requires a.Update? || a.CommitBlocked? || a.Abort?
    ensures Inv(c, Do(c, s, sid, InAdmit(a)))
  {
    var x := s.sessions[sid];
    var y := Do(c, s, sid, InAdmit(a)).sessions[sid];
    assert SessionGood(c, s.jobs, x);
    if a.Update? {
      MovedKeepsInv(c, s, sid, y);
    } else {
      EndedKeepsInv(c, s, sid, s.jobs, y);
    }
  }

  lemma CommitKeepsInv(c: Config, s: State, sid: SessionId, now: Time, acknowledged: bool)
    requires Inv(c, s) && Enabled(s, sid, InAdmit(CommitAdmit(now, acknowledged)))
    ensures Inv(c, Do(c, s, sid, InAdmit(CommitAdmit(now, acknowledged))))
  {
    var x := s.sessions[sid];
    var jobs := Apply(s.jobs, x.job, Start(now));
    assert SessionGood(c, s.jobs, x);
    assert s.locks[x.job] == sid by { assert Holds(x, x.job); }
    assert s.advisory == Some(sid) by { assert InDecision(x); }
    AdmitKeepsCeilings(c, s.jobs, x.job, now);
    ApplyEvolves(s.jobs, x.job, Start(now));
    EndedKeepsInv(c, s, sid, jobs, Admit(x.job, x.gate, Returned(if acknowledged then Allowed else TechnicalFailure)));
  }

  lemma AdmitStepKeepsInv(c: Config, s: State, sid: SessionId, a: AdmitStep)
    requires Inv(c, s) && Enabled(s, sid, InAdmit(a))
    ensures Inv(c, Do(c, s, sid, InAdmit(a)))
  {
    match a {
      case LoadJob => LoadKeepsInv(c, s, sid);
      case ReadSystem(_, _, _) => GateKeepsInv(c, s, sid, a);
      case TakeAdvisory => GateKeepsInv(c, s, sid, a);
      case CountGlobal => CountKeepsInv(c, s, sid, a);
      case CountRepo => CountKeepsInv(c, s, sid, a);
      case CountAgent => CountKeepsInv(c, s, sid, a);
      case CommitAdmit(now, acknowledged) => CommitKeepsInv(c, s, sid, now, acknowledged);
      case _ => WriteKeepsInv(c, s, sid, a);
    }
  }

  lemma GateIsNoLimit(o: OpState, lastSeen: Option<int>, now: int)
    ensures Gate(o, lastSeen, now) !in {Some(GlobalLimit), Some(RepositoryLimit), Some(AgentLimit)}
  {
  }

  lemma SingleStepKeepsInv(c: Config, s: State, sid: SessionId, b: SingleStep)
    requires Inv(c, s) && Enabled(s, sid, InSingle(b))
    ensures Inv(c, Do(c, s, sid, InSingle(b)))
  {
    var x := s.sessions[sid];
    var y := Do(c, s, sid, InSingle(b)).sessions[sid];
    assert SessionGood(c, s.jobs, x);
    match b {
      case Miss => MovedKeepsInv(c, s, sid, y);
      case LockRow => LockedKeepsInv(c, s, sid, x.target, y);
      case CommitRow =>
        var jobs := Apply(s.jobs, x.target, x.op);
        assert s.locks[x.target] == sid by { assert Holds(x, x.target); }
        ApplyEvolves(s.jobs, x.target, x.op);
        CountsOnlyFall(c, s.jobs, jobs);
        EndedKeepsInv(c, s, sid, jobs, y);
    }
  }

  lemma FailAllFalls(t: Table, ids: set<JobId>, now: Time, summary: Summary)
    ensures NoNewRunning(t, FailAll(t, ids, now, summary))
  {
  }

  /** A reaper commit, for any table that differs from the old one on its own rows only. */
  lemma ReapEndKeepsInv(c: Config, s: State, sid: SessionId, jobs: Table, to: Session)
    requires Inv(c, s) && ActiveReaper(s, sid) && to.Reap? && to.held == {} && to.todo == []
    requires jobs.Keys == s.jobs.Keys && Coherent(jobs) && NoNewRunning(s.jobs, jobs)
    requires forall id :: id in jobs && id !in s.sessions[sid].held ==> jobs[id] == s.jobs[id]
    ensures Inv(c, Ended(s, sid, jobs, to))
  {
    CountsOnlyFall(c, s.jobs, jobs);
    forall id | id in s.sessions[sid].held ensures id in s.locks && s.locks[id] == sid {
      assert Holds(s.sessions[sid], id);
    }
    EndedKeepsInv(c, s, sid, jobs, to);
  }

  lemma HeldRowsAreLive(c: Config, s: State, sid: SessionId)
    requires Inv(c, s) && ActiveReaper(s, sid)
    ensures forall id :: id in s.sessions[sid].held ==> id in s.jobs && !Terminal(s.jobs[id].status)
  {
  }

  lemma ReapCommitIs(c: Config, s: State, sid: SessionId) returns (jobs: Table, to: Session)
    requires Coherent(s.jobs) && Enabled(s, sid, InReap(CommitReap))
    requires forall id :: id in s.sessions[sid].held ==> id in s.jobs && !Terminal(s.jobs[id].status)
    ensures Do(c, s, sid, InReap(CommitReap)) == Ended(s, sid, jobs, to)
    ensures to.Reap? && to.held == {} && to.todo == []
    ensures jobs.Keys == s.jobs.Keys && Coherent(jobs) && NoNewRunning(s.jobs, jobs)
    ensures forall id :: id in jobs && id !in s.sessions[sid].held ==> jobs[id] == s.jobs[id]
  {
    var x := s.sessions[sid];
    jobs := FailAll(s.jobs, x.held, x.now, ReasonFor(x.phase));
    to := x.(phase := if x.phase.Silent? then Unclaimed else Over, scanning := false, held := {});
    FailAllEvolves(s.jobs, x.held, x.now, ReasonFor(x.phase));
    FailAllFalls(s.jobs, x.held, x.now, ReasonFor(x.phase));
  }

  lemma ReapCommitKeepsInv(c: Config, s: State, sid: SessionId)
    requires Inv(c, s) && Enabled(s, sid, InReap(CommitReap))
    ensures Inv(c, Do(c, s, sid, InReap(CommitReap)))
  {
    HeldRowsAreLive(c, s, sid);
    var jobs, to := ReapCommitIs(c, s, sid);
    ReapEndKeepsInv(c, s, sid, jobs, to);
  }

  lemma ReapStepKeepsInv(c: Config, s: State, sid: SessionId, r: ReapStep)
    requires Inv(c, s) && Enabled(s, sid, InReap(r))
    ensures Inv(c, Do(c, s, sid, InReap(r)))
  {
    var x := s.sessions[sid];
    assert SessionGood(c, s.jobs, x) && ActiveReaper(s, sid);
    match r {
      case Scan(order) => MovedKeepsInv(c, s, sid, x.(scanning := true, todo := order));
      case Visit =>
        var id := x.todo[0];
        if id in s.jobs && Stale(x.deadlines, x.phase, s.jobs[id]) {
          LockedKeepsInv(c, s, sid, id, x.(todo := x.todo[1..], held := x.held + {id}));
        } else {
          MovedKeepsInv(c, s, sid, x.(todo := x.todo[1..]));
        }
      case CommitReap => ReapCommitKeepsInv(c, s, sid);
    }
  }

  lemma OpeningKeepsInv(c: Config, s: State, sid: SessionId, step: Step)
    requires Inv(c, s) && Enabled(s, sid, step)
    requires step.Insert? || step.OpenAdmit? || step.OpenSingle? || step.OpenReap?
    ensures Inv(c, Do(c, s, sid, step))
  {
    if step.Insert? {
      InsertKeepsInv(c, s, sid, step);
    } else {
      MovedKeepsInv(c, s, sid, Do(c, s, sid, step).sessions[sid]);
    }
  }

  lemma InsertKeepsInv(c: Config, s: State, sid: SessionId, step: Step)
    requires Inv(c, s) && Enabled(s, sid, step) && step.Insert?
    ensures Inv(c, Do(c, s, sid, step))
  {
    var s' := Do(c, s, sid, step);
    CountsOnlyFall(c, s.jobs, s'.jobs);
    forall other | other in s.sessions ensures SessionGood(c, s'.jobs, s.sessions[other]) {
      InsertIsInvisible(c, s, s', other, step.id);
    }
    assert forall a :: ActiveReaper(s', a) <==> ActiveReaper(s, a);
  }

  lemma InsertIsInvisible(c: Config, s: State, s': State, other: SessionId, id: JobId)
    requires Inv(c, s) && other in s.sessions && id !in s.jobs
    requires s'.jobs.Keys == s.jobs.Keys + {id} && forall k :: k in s.jobs ==> s'.jobs[k] == s.jobs[k]
    requires s'.jobs[id].status == Pending
    ensures SessionGood(c, s'.jobs, s.sessions[other])
  {
    assert SessionGood(c, s.jobs, s.sessions[other]);
    CountsOnlyFall(c, s.jobs, s'.jobs);
  }

  lemma StepKeepsInv(c: Config, s: State, sid: SessionId, step: Step)
    requires Inv(c, s) && Enabled(s, sid, step)
    ensures Inv(c, Do(c, s, sid, step))
  {
    match step {
      case InAdmit(a) => AdmitStepKeepsInv(c, s, sid, a);
      case InSingle(b) => SingleStepKeepsInv(c, s, sid, b);
      case InReap(r) => ReapStepKeepsInv(c, s, sid, r);
      case _ => OpeningKeepsInv(c, s, sid, step);
    }
  }

  lemma {:induction false} RunKeepsInv(c: Config, run: seq<State>, k: nat)
    requires IsRun(c, run) && k < |run|
    ensures Inv(c, run[k])
  {
    if k == 0 {
      EmptyTableWithinLimits(c);
    } else {
      RunKeepsInv(c, run, k - 1);
      assert Next(c, run[k - 1], run[k - 1 + 1]);
      var sid, step :| Enabled(run[k - 1], sid, step) && run[k] == Do(c, run[k - 1], sid, step);
      StepKeepsInv(c, run[k - 1], sid, step);
    }
  }

  lemma EmptyTableWithinLimits(c: Config)
    requires c.limits == Normalized(c.limits)
    ensures WithinLimits(c, map[])
  {
  }

  // ── Main results ─────────────────────────────────────────────────────────────

  /**
    In every state of every run, with any number of interleaved sessions, the committed
    running jobs exceed none of the three ceilings.
  */
  lemma CeilingsHold(c: Config, run: seq<State>, k: nat)
    requires IsRun(c, run) && k < |run|
    ensures |RunningJobs(run[k].jobs)| <= c.limits.global
    ensures forall repo :: |RunningInRepo(c, run[k].jobs, repo)| <= c.limits.perRepository
    ensures forall sys :: |RunningOnAgent(run[k].jobs, sys)| <= c.limits.perAgent
  {
    RunKeepsInv(c, run, k);
  }

  /** What one step of a run is. */
  lemma StepOf(c: Config, run: seq<State>, k: nat) returns (sid: SessionId, step: Step)
    requires IsRun(c, run) && k + 1 < |run|
    ensures Inv(c, run[k]) && Enabled(run[k], sid, step) && run[k + 1] == Do(c, run[k], sid, step)
  {
    RunKeepsInv(c, run, k);
    assert Next(c, run[k], run[k + 1]);
    sid, step :| Enabled(run[k], sid, step) && run[k + 1] == Do(c, run[k], sid, step);
  }

  /** Only the session that moved changes. */
  lemma OnlyMoverChanges(c: Config, s: State, sid: SessionId, step: Step, other: SessionId)
    requires Enabled(s, sid, step) && other in Do(c, s, sid, step).sessions
    requires other != sid || step.Insert?
    ensures other in s.sessions && s.sessions[other] == Do(c, s, sid, step).sessions[other]
  {
  }

  lemma StepIsNoAnomaly(c: Config, s: State, sid: SessionId, step: Step)
    requires Inv(c, s) && Enabled(s, sid, step) && step.InAdmit?
    ensures Do(c, s, sid, step).sessions[sid].pc != Returned(NoLongerPending)
  {
    assert SessionGood(c, s.jobs, s.sessions[sid]);
  }

  /** The "job no longer pending" branch after the admitting UPDATE is dead code. */
  lemma {:induction false} AnomalyUnreachable(c: Config, run: seq<State>, k: nat, sid: SessionId)
    requires IsRun(c, run) && k < |run|
    requires sid in run[k].sessions && run[k].sessions[sid].Admit?
    ensures run[k].sessions[sid].pc != Returned(NoLongerPending)
  {
    if k > 0 {
      var who, step := StepOf(c, run, k - 1);
      if sid != who || step.Insert? {
        OnlyMoverChanges(c, run[k - 1], who, step, sid);
        AnomalyUnreachable(c, run, k - 1, sid);
      } else if step.InAdmit? {
        StepIsNoAnomaly(c, run[k - 1], sid, step);
      }
    }
  }
}
