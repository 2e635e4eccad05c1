/**
  The dispatch guard (internal/catalog/dispatch.go) as PostgreSQL runs it: many sessions,
  each a sequence of statements under READ COMMITTED, with row locks and one advisory lock.

  `State.jobs` holds the committed rows. A session's own uncommitted write is part of its
  program counter and reaches `jobs` at COMMIT. `Enabled`/`Do` give the statements.
*/
module Dispatch {
  import opened Prelude
  import opened Jobs
  import opened OperationState
  import opened Reaper

  type SessionId = nat
  type RepoId = nat

  // ── Limits and counts ────────────────────────────────────────────────────────

  datatype Limits = Limits(global: int, perRepository: int, perAgent: int)

  function AtLeastOne(n: int): int { if n < 1 then 1 else n }

  function Normalized(l: Limits): (r: Limits)
    ensures r.global >= 1 && r.perRepository >= 1 && r.perAgent >= 1
    ensures l.global < 1 ==> r.global == 1
    ensures l.perRepository < 1 ==> r.perRepository == 1
    ensures l.perAgent < 1 ==> r.perAgent == 1
    ensures l.global >= 1 ==> r.global == l.global
    ensures l.perRepository >= 1 ==> r.perRepository == l.perRepository
    ensures l.perAgent >= 1 ==> r.perAgent == l.perAgent
  {
    Limits(AtLeastOne(l.global), AtLeastOne(l.perRepository), AtLeastOne(l.perAgent))
  }

  /** What does not change during a run: the limits and each policy's repository. */
  datatype Config = Config(limits: Limits, policies: map<PolicyId, Option<RepoId>>)

  predicate WritesTo(c: Config, j: Job, repo: RepoId) {
    j.policy in c.policies && c.policies[j.policy] == Some(repo)
  }

  function RunningJobs(t: Table): set<JobId> {
    set id | id in t && t[id].status == Running
  }

  function RunningInRepo(c: Config, t: Table, repo: RepoId): set<JobId> {
    set id | id in t && t[id].status == Running && WritesTo(c, t[id], repo)
  }

  function RunningOnAgent(t: Table, sys: SystemId): set<JobId> {
    set id | id in t && t[id].status == Running && t[id].sys == sys
  }

  /** The three ceilings. */
  ghost predicate WithinLimits(c: Config, t: Table) {
    && |RunningJobs(t)| <= c.limits.global
    && (forall repo :: |RunningInRepo(c, t, repo)| <= c.limits.perRepository)
    && (forall sys :: |RunningOnAgent(t, sys)| <= c.limits.perAgent)
  }

  // ── The guard as one atomic decision ─────────────────────────────────────────

  datatype Outcome =
    | Allowed
    | Blocked(reason: BlockReason)
    | JobMissing
    | NotPending
    | NoLongerPending
    | TechnicalFailure

  /** Global before repository before agent; a job without a repository skips that gate. */
  function AtomicGuard(c: Config, t: Table, id: JobId, gate: Option<BlockReason>): Outcome {
    if id !in t || t[id].policy !in c.policies then JobMissing
    else if t[id].status != Pending then NotPending
    else if gate.Some? then Blocked(gate.value)
    else if |RunningJobs(t)| >= c.limits.global then Blocked(GlobalLimit)
    else
      var repo := c.policies[t[id].policy];
      if repo.Some? && |RunningInRepo(c, t, repo.value)| >= c.limits.perRepository then Blocked(RepositoryLimit)
      else if |RunningOnAgent(t, t[id].sys)| >= c.limits.perAgent then Blocked(AgentLimit)
      else Allowed
  }

  // ── Sessions ─────────────────────────────────────────────────────────────────

  /** Where an `AdmitStart` transaction stands; counts are what its own statements returned. */
  datatype AdmitPc =
    | Begun
    | Loaded(sys: SystemId, repo: Option<RepoId>)
    | Gated(sys: SystemId, repo: Option<RepoId>)
    | Serialized(sys: SystemId, repo: Option<RepoId>)
    | CountedGlobal(sys: SystemId, repo: Option<RepoId>, g: nat)
    | CountedRepo(sys: SystemId, repo: Option<RepoId>, g: nat, r: nat)
    | CountedAgent(sys: SystemId, repo: Option<RepoId>, g: nat, r: nat, a: nat)
    | Updated(sys: SystemId, repo: Option<RepoId>)
    | Blocking(reason: BlockReason)
    | Returned(outcome: Outcome)

  datatype SinglePc = Waiting | Holding | Finished(hit: bool)

  datatype Session =
    | Admit(job: JobId, gate: Option<BlockReason>, pc: AdmitPc)
    | Single(target: JobId, op: RowOp, spc: SinglePc)
    | Reap(deadlines: Deadlines, now: Time, phase: Phase, scanning: bool, todo: seq<JobId>, held: set<JobId>)

  datatype State = State(
    jobs: Table,
    issued: set<JobId>,
    locks: map<JobId, SessionId>,
    advisory: Option<SessionId>,
    sessions: map<SessionId, Session>)

  predicate HoldsRow(pc: AdmitPc) { !pc.Begun? && !pc.Returned? }

  predicate HoldsAdvisory(pc: AdmitPc) {
    || pc.Serialized? || pc.CountedGlobal? || pc.CountedRepo? || pc.CountedAgent? || pc.Updated?
    || (pc.Blocking? && pc.reason in {GlobalLimit, RepositoryLimit, AgentLimit})
  }

  predicate Holds(s: Session, id: JobId) {
    match s
    case Admit(job, _, pc) => job == id && HoldsRow(pc)
    case Single(target, _, spc) => target == id && spc.Holding?
    case Reap(_, _, _, _, _, held) => id in held
  }

  predicate Unfinished(s: Session) {
    match s
    case Admit(_, _, pc) => !pc.Returned?
    case Single(_, _, spc) => !spc.Finished?
    case Reap(_, _, phase, _, _, _) => !phase.Over?
  }

  // ── Statements ───────────────────────────────────────────────────────────────

  datatype AdmitStep =
    | LoadJob
    | ReadSystem(opState: OpState, lastSeen: Option<int>, at: Time)
    | TakeAdvisory
    | CountGlobal
    | CountRepo
    | CountAgent
    | Update
    | CommitBlocked
    | CommitAdmit(now: Time, acknowledged: bool)
    | Abort

  datatype SingleStep = Miss | LockRow | CommitRow

  datatype ReapStep = Scan(order: seq<JobId>) | Visit | CommitReap

  datatype Step =
    | Insert(id: JobId, sys: SystemId, policy: PolicyId, at: Time)
    | OpenAdmit(job: JobId)
    | OpenSingle(target: JobId, op: RowOp)
    | OpenReap(deadlines: Deadlines, at: Time)
    | InAdmit(a: AdmitStep)
    | InSingle(b: SingleStep)
    | InReap(r: ReapStep)

  predicate Free(s: State, id: JobId) { id !in s.locks }

  predicate AdmitEnabled(s: State, job: JobId, pc: AdmitPc, a: AdmitStep) {
    match a
    case LoadJob => pc.Begun? && (job !in s.jobs || Free(s, job))
    case ReadSystem(_, _, _) => pc.Loaded?
    case TakeAdvisory => pc.Gated? && s.advisory == None
    case CountGlobal => pc.Serialized?
    case CountRepo => pc.CountedGlobal?
    case CountAgent => pc.CountedRepo?
    case Update => pc.CountedAgent?
    case CommitBlocked => pc.Blocking?
    case CommitAdmit(_, _) => pc.Updated?
    case Abort => !pc.Returned?
  }

  predicate SingleEnabled(s: State, target: JobId, op: RowOp, pc: SinglePc, b: SingleStep) {
    match b
    case Miss => pc.Waiting? && !Hits(s.jobs, target, op)
    case LockRow => pc.Waiting? && Hits(s.jobs, target, op) && Free(s, target)
    case CommitRow => pc.Holding?
  }

  /** The rows a reaper statement finds, in whatever order the table scan meets them. */
  ghost predicate ScanOrder(t: Table, d: Deadlines, phase: Phase, order: seq<JobId>) {
    && (forall id :: id in order <==> id in t && Stale(d, phase, t[id]))
    && (forall i, j :: 0 <= i < j < |order| ==> order[i] != order[j])
  }

  ghost predicate ReapEnabled(s: State, x: Session, r: ReapStep)
    requires x.Reap?
  {
    match r
    case Scan(order) => !x.phase.Over? && !x.scanning && ScanOrder(s.jobs, x.deadlines, x.phase, order)
    case Visit => !x.phase.Over? && x.scanning && x.todo != [] && (x.todo[0] !in s.jobs || Free(s, x.todo[0]))
    case CommitReap => !x.phase.Over? && x.scanning && x.todo == []
  }

  ghost predicate Enabled(s: State, sid: SessionId, step: Step) {
    match step
    case Insert(id, _, _, _) => id !in s.issued
    case OpenAdmit(_) => sid !in s.sessions
    case OpenSingle(_, op) => sid !in s.sessions && !op.Start?
    case OpenReap(_, _) =>
      sid !in s.sessions && forall r :: r in s.sessions && s.sessions[r].Reap? ==> !Unfinished(s.sessions[r])
    case InAdmit(a) =>
      sid in s.sessions && s.sessions[sid].Admit? && AdmitEnabled(s, s.sessions[sid].job, s.sessions[sid].pc, a)
    case InSingle(b) =>
      sid in s.sessions && s.sessions[sid].Single?
      && SingleEnabled(s, s.sessions[sid].target, s.sessions[sid].op, s.sessions[sid].spc, b)
    case InReap(r) =>
      sid in s.sessions && s.sessions[sid].Reap? && ReapEnabled(s, s.sessions[sid], r)
  }

  function Unlock(s: State, sid: SessionId): map<JobId, SessionId> {
    map id | id in s.locks && s.locks[id] != sid :: s.locks[id]
  }

  function Release(s: State, sid: SessionId): Option<SessionId> {
    if s.advisory == Some(sid) then None else s.advisory
  }

  function Moved(s: State, sid: SessionId, to: Session): State {
    s.(sessions := s.sessions[sid := to])
  }

  /** The session goes on and now also holds the lock of row `id`. */
  function Locked(s: State, sid: SessionId, id: JobId, to: Session): State {
    s.(locks := s.locks[id := sid], sessions := s.sessions[sid := to])
  }

  /** End of a transaction: `jobs` becomes the committed table and its locks are gone. */
  function Ended(s: State, sid: SessionId, jobs: Table, to: Session): State {
    s.(jobs := jobs, locks := Unlock(s, sid), advisory := Release(s, sid), sessions := s.sessions[sid := to])
  }

  function AfterCount(n: nat, limit: int, reason: BlockReason, counted: AdmitPc): AdmitPc {
    if n >= limit then Blocking(reason) else counted
  }

  function DoAdmit(c: Config, s: State, sid: SessionId, job: JobId, gate: Option<BlockReason>, pc: AdmitPc, a: AdmitStep): State
    requires AdmitEnabled(s, job, pc, a)
  {
    match a
    case LoadJob =>
      if job !in s.jobs || s.jobs[job].policy !in c.policies then
        Ended(s, sid, s.jobs, Admit(job, gate, Returned(JobMissing)))
      else if s.jobs[job].status != Pending then
        Ended(s, sid, s.jobs, Admit(job, gate, Returned(NotPending)))
      else
        Locked(s, sid, job, Admit(job, gate, Loaded(s.jobs[job].sys, c.policies[s.jobs[job].policy])))
    case ReadSystem(opState, lastSeen, at) =>
      var g := Gate(opState, lastSeen, at);
      Moved(s, sid, Admit(job, g, if g.Some? then Blocking(g.value) else Gated(pc.sys, pc.repo)))
    case TakeAdvisory =>
      Moved(s, sid, Admit(job, gate, Serialized(pc.sys, pc.repo))).(advisory := Some(sid))
    case CountGlobal =>
      var n := |RunningJobs(s.jobs)|;
      Moved(s, sid, Admit(job, gate, AfterCount(n, c.limits.global, GlobalLimit, CountedGlobal(pc.sys, pc.repo, n))))
    case CountRepo =>
      if pc.repo == None then Moved(s, sid, Admit(job, gate, CountedRepo(pc.sys, pc.repo, pc.g, 0)))
      else
        var n := |RunningInRepo(c, s.jobs, pc.repo.value)|;
        Moved(s, sid, Admit(job, gate,
          AfterCount(n, c.limits.perRepository, RepositoryLimit, CountedRepo(pc.sys, pc.repo, pc.g, n))))
    case CountAgent =>
      var n := |RunningOnAgent(s.jobs, pc.sys)|;
      Moved(s, sid, Admit(job, gate,
        AfterCount(n, c.limits.perAgent, AgentLimit, CountedAgent(pc.sys, pc.repo, pc.g, pc.r, n))))
    case Update =>
      if Hits(s.jobs, job, Start(0)) then Moved(s, sid, Admit(job, gate, Updated(pc.sys, pc.repo)))
      else Ended(s, sid, s.jobs, Admit(job, gate, Returned(NoLongerPending)))
    case CommitBlocked =>
      Ended(s, sid, s.jobs, Admit(job, gate, Returned(Blocked(pc.reason))))
    case CommitAdmit(now, acknowledged) =>
      Ended(s, sid, Apply(s.jobs, job, Start(now)),
            Admit(job, gate, Returned(if acknowledged then Allowed else TechnicalFailure)))
    case Abort =>
      Ended(s, sid, s.jobs, Admit(job, gate, Returned(TechnicalFailure)))
  }

  function DoSingle(s: State, sid: SessionId, target: JobId, op: RowOp, b: SingleStep): State {
    match b
    case Miss => Moved(s, sid, Single(target, op, Finished(false)))
    case LockRow => Locked(s, sid, target, Single(target, op, Holding))
    case CommitRow => Ended(s, sid, Apply(s.jobs, target, op), Single(target, op, Finished(true)))
  }

  ghost function DoReap(s: State, sid: SessionId, x: Session, r: ReapStep): State
    requires x.Reap? && ReapEnabled(s, x, r)
  {
    match r
    case Scan(order) => Moved(s, sid, x.(scanning := true, todo := order))
    case Visit =>
      var id := x.todo[0];
      if id in s.jobs && Stale(x.deadlines, x.phase, s.jobs[id]) then
        Locked(s, sid, id, x.(todo := x.todo[1..], held := x.held + {id}))
      else Moved(s, sid, x.(todo := x.todo[1..]))
    case CommitReap =>
      Ended(s, sid, FailAll(s.jobs, x.held, x.now, ReasonFor(x.phase)),
            x.(phase := if x.phase.Silent? then Unclaimed else Over, scanning := false, held := {}))
  }

  ghost function Do(c: Config, s: State, sid: SessionId, step: Step): State
    requires Enabled(s, sid, step)
  {
    match step
    case Insert(id, sys, policy, at) =>
      s.(jobs := s.jobs[id := NewJob(sys, policy, at)], issued := s.issued + {id})
    case OpenAdmit(job) => Moved(s, sid, Admit(job, None, Begun))
    case OpenSingle(target, op) => Moved(s, sid, Single(target, op, Waiting))
    case OpenReap(d, at) => Moved(s, sid, Reap(d, at, Silent, false, [], {}))
    case InAdmit(a) => DoAdmit(c, s, sid, s.sessions[sid].job, s.sessions[sid].gate, s.sessions[sid].pc, a)
    case InSingle(b) => DoSingle(s, sid, s.sessions[sid].target, s.sessions[sid].op, b)
    case InReap(r) => DoReap(s, sid, s.sessions[sid], r)
  }

  ghost predicate Initial(s: State) {
    s == State(map[], {}, map[], None, map[])
  }

  /** A run: state `i + 1` comes from state `i` by one statement of one session. */
  ghost predicate IsRun(c: Config, run: seq<State>) {
    && run != [] && Initial(run[0])
    && c.limits == Normalized(c.limits)
    && forall i :: 0 <= i < |run| - 1 ==> Next(c, run[i], run[i + 1])
  }

  ghost predicate Next(c: Config, s: State, s': State) {
    exists sid: SessionId, step: Step :: Enabled(s, sid, step) && s' == Do(c, s, sid, step)
  }
}
