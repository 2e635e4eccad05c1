/** Invariants of the delivery protocol and the guarantees that follow. */
module DeliverySafety {
  import opened Prelude
  import opened Jobs
  import opened Delivery

  // ── The invariant ────────────────────────────────────────────────────────────

  ghost predicate Base(s: State) {
    s.jobs.Keys <= s.issued && Coherent(s.jobs)
  }

  /** The job was created for this agent. */
  predicate Mine(me: SystemId, s: State, j: JobId) {
    j in s.issued && (j in s.jobs ==> s.jobs[j].sys == me)
  }

  predicate Begun(s: State, j: JobId) {
    j in s.jobs ==> s.jobs[j].status != Pending
  }

  /** What an event says really happened. */
  predicate EventTrue(me: SystemId, s: State, e: Event) {
    && Mine(me, s, e.job)
    && match e.kind
       case CompleteKind(bytes) => Begun(s, e.job) && (e.job, bytes) in s.log.ranOk
       case CancelledKind => Begun(s, e.job) && CancelRecorded(s, e.job) && e.job in s.log.stopped
       case FailKind(summary) => (e.job, summary) in s.log.failEvents
  }

  predicate HandlerGood(me: SystemId, s: State, h: Handler) {
    && Mine(me, s, h.job)
    && (h.call.Report? ==> EventTrue(me, s, Event(h.job, h.call.kind)))
    && match h.pc
       case Missed => h.call.Report? && Ended(s, h.job)
       case Registering => h.call.Report? && h.call.kind.CompleteKind? && Ended(s, h.job)
       case Settled => if h.call.Report? then Ended(s, h.job) else Begun(s, h.job)
       case Replied(r) =>
         if h.call.Report? then
           && (r.OK? || r.Conflict? || r.Missing? ==> Ended(s, h.job))
           && (r.Unauthorized? ==> h.job in s.log.rejected)
         else r.OK? ==> Begun(s, h.job)
       case _ => true
  }

  predicate Asked(handlers: map<RequestId, Handler>, q: RequestId, job: JobId, call: Call) {
    q in handlers && handlers[q].job == job && handlers[q].call == call
  }

  predicate RunnerGood(me: SystemId, s: State, handlers: map<RequestId, Handler>, r: Runner) {
    match r
    case Idle => true
    case Preparing(j) => Mine(me, s, j)
    case Starting(j, q) => Mine(me, s, j) && Asked(handlers, q, j, StartCall)
    case Executing(j, c) => Mine(me, s, j) && Begun(s, j) && (c ==> CancelRecorded(s, j))
    case Reporting(e) => EventTrue(me, s, e)
    case Unsent(e, _) => EventTrue(me, s, e)
    case Sending(e, q, _) => EventTrue(me, s, e) && Asked(handlers, q, e.job, Report(e.kind))
    case Acking(j) => Mine(me, s, j) && Resolved(s, j)
  }

  ghost predicate RestGood(me: SystemId, s: State, rest: seq<Event>) {
    forall i :: 0 <= i < |rest| ==> EventTrue(me, s, rest[i])
  }

  ghost predicate DrainerGood(me: SystemId, s: State, handlers: map<RequestId, Handler>, d: Drainer) {
    match d
    case Resting => true
    case Draining(rest) => RestGood(me, s, rest)
    case DrainSending(e, q, rest) =>
      RestGood(me, s, rest) && EventTrue(me, s, e) && Asked(handlers, q, e.job, Report(e.kind))
    case DrainAcking(j, rest) => RestGood(me, s, rest) && Mine(me, s, j) && Resolved(s, j)
  }

  ghost predicate OutboxGood(me: SystemId, s: State, outbox: map<JobId, Event>) {
    forall j :: j in outbox ==> outbox[j].job == j && EventTrue(me, s, outbox[j])
  }

  /** The delivery guarantee itself. */
  ghost predicate NothingLost(me: SystemId, s: State, outbox: map<JobId, Event>, enqueued: set<JobId>) {
    forall j :: j in enqueued ==> Mine(me, s, j) && (j in outbox || Resolved(s, j))
  }

  ghost predicate Facts(me: SystemId, s: State) {
    && (forall q :: q in s.handlers ==> HandlerGood(me, s, s.handlers[q]))
    && RunnerGood(me, s, s.handlers, s.runner)
    && DrainerGood(me, s, s.handlers, s.drainer)
    && OutboxGood(me, s, s.outbox)
    && NothingLost(me, s, s.outbox, s.log.enqueued)
    && (forall j :: j in s.known ==> Mine(me, s, j))
  }

  /** Where each terminal status of this agent's jobs comes from. */
  ghost predicate Provenance(me: SystemId, s: State) {
    forall j :: j in s.jobs && s.jobs[j].sys == me ==>
      RowProvenance(s.jobs[j], j, s.log)
  }

  predicate RowProvenance(j: Job, id: JobId, log: Log) {
    match j.status
    case Success => j.bytesUploaded.Some? && (id, j.bytesUploaded.value) in log.ranOk
    case Failed =>
      || (j.errorSummary.Some? && j.errorSummary.value.Reported? && (id, j.errorSummary.value.text) in log.failEvents)
      || id in log.reaped
    case Cancelled => j.cancelRequestedAt.Some? && id in log.stopped
    case _ => true
  }

  predicate InSuccess(s: State, j: JobId) { j in s.jobs && s.jobs[j].status == Success }

  predicate IsRegistering(s: State, q: RequestId) { q in s.handlers && s.handlers[q].pc.Registering? }

  /** Registered snapshots and handlers about to register one: together at most one per job. */
  ghost predicate SnapshotsGood(s: State) {
    && (forall j :: s.snapshots[j] <= 1 && (s.snapshots[j] == 1 ==> InSuccess(s, j)))
    && RegisteringGood(s)
    && RegisteringOnce(s)
  }

  ghost predicate RegisteringGood(s: State) {
    forall q :: IsRegistering(s, q) ==>
      var j := s.handlers[q].job;
      s.snapshots[j] == 0 && (j in s.jobs ==> InSuccess(s, j)) && j in s.issued
  }

  ghost predicate RegisteringOnce(s: State) {
    forall p, q :: IsRegistering(s, p) && IsRegistering(s, q) && p != q ==> s.handlers[p].job != s.handlers[q].job
  }

  ghost predicate Inv(me: SystemId, s: State) {
    Base(s) && Facts(me, s) && Provenance(me, s) && SnapshotsGood(s)
  }

  // ── Knowledge only grows ─────────────────────────────────────────────────────

  ghost predicate Grows(s: State, s': State) {
    && TableStep(s.jobs, s.issued, s'.jobs, s'.issued)
    && s.log.rejected <= s'.log.rejected && s.log.ranOk <= s'.log.ranOk
    && s.log.failEvents <= s'.log.failEvents && s.log.reaped <= s'.log.reaped && s.log.stopped <= s'.log.stopped
    && s.log.enqueued <= s'.log.enqueued
  }

  lemma HandlerGrows(me: SystemId, s: State, q: RequestId, a: HandlerStep)
    requires Base(s) && Enabled(me, s, ByHandler(q, a))
    ensures Base(Do(me, s, ByHandler(q, a))) && Grows(s, Do(me, s, ByHandler(q, a)))
  {
    if a.Transition? {
      TransitionGrows(me, s, q, a.now, a.admitted);
    }
  }

  lemma TransitionGrows(me: SystemId, s: State, q: RequestId, now: Time, admitted: bool)
    requires Base(s) && Enabled(me, s, ByHandler(q, Transition(now, admitted)))
    ensures var s' := DoHandler(me, s, q, Transition(now, admitted)); Base(s') && Grows(s, s')
  {
    var h := s.handlers[q];
    ApplyEvolves(s.jobs, h.job, RowOp.Start(now));
    if h.call.Report? {
      ApplyEvolves(s.jobs, h.job, OpFor(h.call.kind, now, h.pc.reason));
    }
  }

  lemma WorldGrows(me: SystemId, s: State, w: WorldStep)
    requires Base(s) && Enabled(me, s, ByWorld(w))
    ensures Base(Do(me, s, ByWorld(w))) && Grows(s, Do(me, s, ByWorld(w)))
  {
    match w {
      case OperatorCancel(job, now, reason) => ApplyEvolves(s.jobs, job, RowOp.RequestCancel(now, reason));
      case ReapJob(job, now) => ApplyEvolves(s.jobs, job, RowOp.Fail(now, ""));
      case DeleteJob(job) => ApplyEvolves(s.jobs, job, RowOp.Remove);
      case Progress(job, now) => ApplyEvolves(s.jobs, job, RowOp.ReportProgress(now));
      case OtherAgent(job, op) => ApplyEvolves(s.jobs, job, op);
      case _ =>
    }
  }

  lemma AgentGrows(me: SystemId, s: State, step: Step)
    requires Base(s) && Enabled(me, s, step) && (step.ByRunner? || step.ByDrainer?)
    ensures Base(Do(me, s, step)) && Grows(s, Do(me, s, step))
  {
    if step.ByRunner? {
      RunnerGrows(me, s, step.r);
    } else {
      DrainerGrows(s, step.d);
    }
  }

  lemma RunnerGrows(me: SystemId, s: State, r: RunnerStep)
    requires Base(s) && RunnerEnabled(s, r)
    ensures Base(DoRunner(me, s, r)) && Grows(s, DoRunner(me, s, r))
  {
    RunnerIsRemote(me, s, r);
  }

  lemma DrainerGrows(s: State, d: DrainStep)
    requires Base(s) && DrainEnabled(s, d)
    ensures Base(DoDrain(s, d)) && Grows(s, DoDrain(s, d))
  {
    DrainerIsRemote(s, d);
  }

  /** Every fact about one job that was true stays true. */
  lemma FactsStay(me: SystemId, s: State, s': State, j: JobId)
    requires Base(s) && Grows(s, s')
    requires Mine(me, s, j)
    ensures Mine(me, s', j)
    ensures Begun(s, j) ==> Begun(s', j)
    ensures Ended(s, j) ==> Ended(s', j)
    ensures Resolved(s, j) ==> Resolved(s', j)
    ensures CancelRecorded(s, j) ==> CancelRecorded(s', j)
    ensures forall k :: EventTrue(me, s, Event(j, k)) ==> EventTrue(me, s', Event(j, k))
  {
  }

  lemma EventStays(me: SystemId, s: State, s': State, e: Event)
    requires Base(s) && Grows(s, s') && EventTrue(me, s, e)
    ensures EventTrue(me, s', e)
  {
  }

  lemma HandlerStays(me: SystemId, s: State, s': State, h: Handler)
    requires Base(s) && Grows(s, s') && HandlerGood(me, s, h)
    ensures HandlerGood(me, s', h)
  {
  }

  /** Requests are never forgotten or changed, whatever happens to their handlers. */
  ghost predicate HandlersKept(a: map<RequestId, Handler>, b: map<RequestId, Handler>) {
    forall q :: q in a ==> q in b && b[q].job == a[q].job && b[q].call == a[q].call
  }

  lemma RunnerStays(me: SystemId, s: State, s': State, r: Runner)
    requires Base(s) && Grows(s, s') && HandlersKept(s.handlers, s'.handlers)
    requires RunnerGood(me, s, s.handlers, r)
    ensures RunnerGood(me, s', s'.handlers, r)
  {
  }

  lemma DrainerStays(me: SystemId, s: State, s': State, d: Drainer)
    requires Base(s) && Grows(s, s') && HandlersKept(s.handlers, s'.handlers)
    requires DrainerGood(me, s, s.handlers, d)
    ensures DrainerGood(me, s', s'.handlers, d)
  {
  }

  /** The parts a step leaves alone keep their facts. */
  lemma UntouchedStay(me: SystemId, s: State, s': State)
    requires Base(s) && Facts(me, s) && Grows(s, s') && HandlersKept(s.handlers, s'.handlers)
    ensures forall q :: q in s.handlers ==> HandlerGood(me, s', s.handlers[q])
    ensures RunnerGood(me, s', s'.handlers, s.runner)
    ensures DrainerGood(me, s', s'.handlers, s.drainer)
    ensures OutboxGood(me, s', s.outbox)
    ensures NothingLost(me, s', s.outbox, s.log.enqueued)
    ensures forall j :: j in s.known ==> Mine(me, s', j)
  {
    forall q | q in s.handlers ensures HandlerGood(me, s', s.handlers[q]) {
      HandlerStays(me, s, s', s.handlers[q]);
    }
    RunnerStays(me, s, s', s.runner);
    DrainerStays(me, s, s', s.drainer);
    forall j | j in s.outbox ensures s.outbox[j].job == j && EventTrue(me, s', s.outbox[j]) {
      EventStays(me, s, s', s.outbox[j]);
    }
    forall j | j in s.log.enqueued ensures Mine(me, s', j) && (j in s.outbox || Resolved(s', j)) {
      FactsStay(me, s, s', j);
    }
    forall j | j in s.known ensures Mine(me, s', j) {
      FactsStay(me, s, s', j);
    }
  }

  // ── Steps of the agent ───────────────────────────────────────────────────────

  lemma RunnerMoveGood(me: SystemId, s: State, r: RunnerStep)
    requires Base(s) && Facts(me, s) && RunnerEnabled(s, r) && Grows(s, DoRunner(me, s, r))
    ensures RunnerGood(me, DoRunner(me, s, r), DoRunner(me, s, r).handlers, DoRunner(me, s, r).runner)
  {
    var s' := DoRunner(me, s, r);
    UntouchedStay(me, s, s');
    if r.StartAnswered? || r.Answered? {
      assert HandlerGood(me, s, s.handlers[s.runner.req]);
    }
  }

  lemma RunnerKeepsFacts(me: SystemId, s: State, r: RunnerStep)
    requires Base(s) && Facts(me, s) && RunnerEnabled(s, r)
    ensures Facts(me, DoRunner(me, s, r))
  {
    var s' := DoRunner(me, s, r);
    AgentGrows(me, s, ByRunner(r));
    RunnerIsRemote(me, s, r);
    UntouchedStay(me, s, s');
    RunnerMoveGood(me, s, r);
    forall q | q in s'.handlers ensures HandlerGood(me, s', s'.handlers[q]) {
    }
    assert NothingLost(me, s', s'.outbox, s'.log.enqueued);
  }

  lemma DrainKeepsFacts(me: SystemId, s: State, d: DrainStep)
    requires Base(s) && Facts(me, s) && DrainEnabled(s, d)
    ensures Facts(me, DoDrain(s, d))
  {
    var s' := DoDrain(s, d);
    AgentGrows(me, s, ByDrainer(d));
    UntouchedStay(me, s, s');
    if d.DrainAnswered? {
      assert HandlerGood(me, s, s.handlers[s.drainer.req]);
    }
  }

  // ── Steps of a handler ───────────────────────────────────────────────────────

  /** A handler step moves its own program counter, at most writes its own job, and adds to the log. */
  ghost predicate LocalTo(s: State, q: RequestId, s': State)
    requires q in s.handlers
  {
    var j := s.handlers[q].job;
    && q in s'.handlers
    && s' == s.(handlers := s.handlers[q := s.handlers[q].(pc := s'.handlers[q].pc)],
                jobs := s'.jobs, snapshots := s'.snapshots, log := s'.log)
    && s'.log == s.log.(rejected := s'.log.rejected)
    && (forall i :: i != j ==>
          && s'.snapshots[i] == s.snapshots[i]
          && (i in s'.jobs <==> i in s.jobs) && (i in s.jobs ==> s'.jobs[i] == s.jobs[i]))
    && (j in s'.jobs <==> j in s.jobs)
  }

  lemma StartIsLocal(s: State, q: RequestId, now: Time, admitted: bool)
    requires q in s.handlers
    ensures LocalTo(s, q, DoStart(s, q, now, admitted))
  {
  }

  lemma ReportIsLocal(s: State, q: RequestId, kind: Kind, now: Time, reason: string)
    requires q in s.handlers
    ensures LocalTo(s, q, DoReport(s, q, kind, now, reason))
  {
  }

  lemma HandlerIsLocal(me: SystemId, s: State, q: RequestId, a: HandlerStep)
    requires Enabled(me, s, ByHandler(q, a))
    ensures LocalTo(s, q, DoHandler(me, s, q, a))
  {
    if a.Transition? {
      var h := s.handlers[q];
      if h.call.StartCall? {
        StartIsLocal(s, q, a.now, a.admitted);
      } else {
        ReportIsLocal(s, q, h.call.kind, a.now, h.pc.reason);
      }
    }
  }

  lemma StartMoveGood(me: SystemId, s: State, q: RequestId, now: Time, admitted: bool)
    requires Coherent(s.jobs) && q in s.handlers && s.handlers[q].call.StartCall? && HandlerGood(me, s, s.handlers[q])
    ensures var s' := DoStart(s, q, now, admitted);
            HandlerGood(me, s', s'.handlers[q])
  {
  }

  lemma ReportMoveGood(me: SystemId, s: State, q: RequestId, now: Time, reason: string)
    requires Coherent(s.jobs) && q in s.handlers && s.handlers[q].call.Report? && HandlerGood(me, s, s.handlers[q])
    ensures var s' := DoReport(s, q, s.handlers[q].call.kind, now, reason);
            HandlerGood(me, s', s'.handlers[q])
  {
  }

  lemma HandlerMoveGood(me: SystemId, s: State, q: RequestId, a: HandlerStep)
    requires Base(s) && Enabled(me, s, ByHandler(q, a)) && HandlerGood(me, s, s.handlers[q])
    ensures HandlerGood(me, DoHandler(me, s, q, a), DoHandler(me, s, q, a).handlers[q])
  {
    if a.Transition? {
      var h := s.handlers[q];
      if h.call.StartCall? {
        StartMoveGood(me, s, q, a.now, a.admitted);
      } else {
        ReportMoveGood(me, s, q, a.now, h.pc.reason);
      }
    }
  }

  lemma HandlerKeepsFacts(me: SystemId, s: State, q: RequestId, a: HandlerStep)
    requires Base(s) && Facts(me, s) && Enabled(me, s, ByHandler(q, a))
    ensures Facts(me, DoHandler(me, s, q, a))
  {
    HandlerGrows(me, s, q, a);
    HandlerMoveGood(me, s, q, a);
    HandlerIsLocal(me, s, q, a);
    LocalKeepsFacts(me, s, q, DoHandler(me, s, q, a));
  }

  lemma LocalKeepsFacts(me: SystemId, s: State, q: RequestId, s': State)
    requires Base(s) && Facts(me, s) && q in s.handlers && LocalTo(s, q, s') && Grows(s, s')
    requires HandlerGood(me, s', s'.handlers[q])
    ensures Facts(me, s')
  {
    UntouchedStay(me, s, s');
  }

  lemma WorldKeepsFacts(me: SystemId, s: State, w: WorldStep)
    requires Base(s) && Facts(me, s) && Enabled(me, s, ByWorld(w))
    ensures Facts(me, DoWorld(s, w))
  {
    var s' := DoWorld(s, w);
    WorldGrows(me, s, w);
    UntouchedStay(me, s, s');
  }

  lemma StepKeepsFacts(me: SystemId, s: State, step: Step)
    requires Base(s) && Facts(me, s) && Enabled(me, s, step)
    ensures Base(Do(me, s, step)) && Facts(me, Do(me, s, step)) && Grows(s, Do(me, s, step))
  {
    match step {
      case ByRunner(r) => AgentGrows(me, s, step); RunnerKeepsFacts(me, s, r);
      case ByDrainer(d) => AgentGrows(me, s, step); DrainKeepsFacts(me, s, d);
      case ByHandler(q, a) => HandlerGrows(me, s, q, a); HandlerKeepsFacts(me, s, q, a);
      case ByWorld(w) => WorldGrows(me, s, w); WorldKeepsFacts(me, s, w);
    }
  }

  // ── Provenance and snapshots ─────────────────────────────────────────────────

  /** Runner and drainer touch neither the job table nor the snapshots; a new request has just arrived. */
  ghost predicate Remote(s: State, s': State) {
    && s'.jobs == s.jobs && s'.snapshots == s.snapshots && s'.issued == s.issued
    && (forall q :: q in s.handlers ==> q in s'.handlers && s'.handlers[q] == s.handlers[q])
    && (forall q :: q in s'.handlers && q !in s.handlers ==> s'.handlers[q].pc.Arrived?)
  }

  lemma RunnerIsRemote(me: SystemId, s: State, r: RunnerStep)
    requires RunnerEnabled(s, r)
    ensures Remote(s, DoRunner(me, s, r))
  {
  }

  lemma DrainerIsRemote(s: State, d: DrainStep)
    requires DrainEnabled(s, d)
    ensures Remote(s, DoDrain(s, d))
  {
  }

  lemma HandlerWriteHasProvenance(me: SystemId, s: State, q: RequestId, a: HandlerStep)
    requires Base(s) && Provenance(me, s) && Enabled(me, s, ByHandler(q, a)) && HandlerGood(me, s, s.handlers[q])
    ensures var s' := DoHandler(me, s, q, a);
            var j := s.handlers[q].job;
            j in s'.jobs && s'.jobs[j].sys == me ==> RowProvenance(s'.jobs[j], j, s'.log)
  {
  }

  lemma WorldKeepsProvenance(me: SystemId, s: State, w: WorldStep)
    requires Provenance(me, s) && Enabled(me, s, ByWorld(w))
    ensures Provenance(me, DoWorld(s, w))
  {
  }

  lemma StepKeepsProvenance(me: SystemId, s: State, step: Step)
    requires Base(s) && Facts(me, s) && Provenance(me, s) && Enabled(me, s, step)
    requires Grows(s, Do(me, s, step))
    ensures Provenance(me, Do(me, s, step))
  {
    match step {
      case ByHandler(q, a) =>
        HandlerIsLocal(me, s, q, a);
        HandlerWriteHasProvenance(me, s, q, a);
      case ByWorld(w) => WorldKeepsProvenance(me, s, w);
      case ByRunner(r) => RunnerIsRemote(me, s, r);
      case ByDrainer(d) => DrainerIsRemote(s, d);
    }
  }

  /** What one handler step does to the snapshots of the job it is about. */
  ghost predicate SnapshotStep(s: State, q: RequestId, s': State)
    requires q in s.handlers
  {
    var j := s.handlers[q].job;
    && (InSuccess(s, j) ==> InSuccess(s', j))
    && (|| (s'.snapshots[j] == s.snapshots[j] && !IsRegistering(s', q))
        || (IsRegistering(s, q) && !IsRegistering(s', q) && s'.snapshots[j] == s.snapshots[j] + 1 && j in s.jobs)
        || (IsRegistering(s', q) && s'.snapshots[j] == s.snapshots[j] && j in s.jobs && !InSuccess(s, j) && InSuccess(s', j)))
  }

  lemma HandlerSnapshot(me: SystemId, s: State, q: RequestId, a: HandlerStep)
    requires Coherent(s.jobs) && Enabled(me, s, ByHandler(q, a))
    ensures SnapshotStep(s, q, DoHandler(me, s, q, a))
  {
  }

  lemma LocalKeepsSnapshots(s: State, q: RequestId, s': State)
    requires Base(s) && SnapshotsGood(s) && q in s.handlers && s.handlers[q].job in s.issued
    requires LocalTo(s, q, s') && SnapshotStep(s, q, s')
    ensures SnapshotsGood(s')
  {
    var j := s.handlers[q].job;
    assert s.snapshots[j] == 1 ==> InSuccess(s, j);
    LocalRegistersOnce(s, q, s');
  }

  lemma LocalRegistersOnce(s: State, q: RequestId, s': State)
    requires SnapshotsGood(s) && q in s.handlers && s.handlers[q].job in s.issued
    requires LocalTo(s, q, s') && SnapshotStep(s, q, s')
    ensures RegisteringGood(s') && RegisteringOnce(s')
  {
  }

  lemma WorldKeepsSnapshots(me: SystemId, s: State, w: WorldStep)
    requires Base(s) && SnapshotsGood(s) && Enabled(me, s, ByWorld(w))
    ensures SnapshotsGood(DoWorld(s, w))
  {
    var s' := DoWorld(s, w);
    WorldGrows(me, s, w);
    WorldRegisters(me, s, w);
    forall j | InSuccess(s, j) && j in s'.jobs ensures InSuccess(s', j) {
      assert RowEvolves(s.jobs[j], s'.jobs[j]);
    }
    WorldDeletesUnreferenced(me, s, w);
    GrowthKeepsSnapshots(s, s');
  }

  lemma WorldRegisters(me: SystemId, s: State, w: WorldStep)
    requires Enabled(me, s, ByWorld(w))
    ensures var s' := DoWorld(s, w);
            && s'.snapshots == s.snapshots
            && (forall q :: IsRegistering(s', q) <==> IsRegistering(s, q))
            && (forall q :: IsRegistering(s, q) ==> s'.handlers[q] == s.handlers[q])
  {
  }

  lemma WorldDeletesUnreferenced(me: SystemId, s: State, w: WorldStep)
    requires Enabled(me, s, ByWorld(w))
    ensures forall j :: j in s.jobs && s.snapshots[j] > 0 ==> j in DoWorld(s, w).jobs
  {
  }

  lemma GrowthKeepsSnapshots(s: State, s': State)
    requires Base(s) && SnapshotsGood(s) && Grows(s, s') && s'.snapshots == s.snapshots
    requires forall q :: IsRegistering(s', q) <==> IsRegistering(s, q)
    requires forall q :: IsRegistering(s, q) ==> q in s'.handlers && s'.handlers[q] == s.handlers[q]
    requires forall j :: InSuccess(s, j) && j in s'.jobs ==> InSuccess(s', j)
    requires forall j :: j in s.jobs && s.snapshots[j] > 0 ==> j in s'.jobs
    ensures SnapshotsGood(s')
  {
  }

  lemma StepKeepsSnapshots(me: SystemId, s: State, step: Step)
    requires Base(s) && Facts(me, s) && SnapshotsGood(s) && Enabled(me, s, step)
    requires Grows(s, Do(me, s, step))
    ensures SnapshotsGood(Do(me, s, step))
  {
    match step {
      case ByHandler(q, a) =>
        assert HandlerGood(me, s, s.handlers[q]);
        HandlerIsLocal(me, s, q, a);
        HandlerSnapshot(me, s, q, a);
        LocalKeepsSnapshots(s, q, Do(me, s, step));
      case ByWorld(w) => WorldKeepsSnapshots(me, s, w);
      case ByRunner(r) => RunnerIsRemote(me, s, r); GrowthKeepsSnapshots(s, Do(me, s, step));
      case ByDrainer(d) => DrainerIsRemote(s, d); GrowthKeepsSnapshots(s, Do(me, s, step));
    }
  }

  // ── Every run ────────────────────────────────────────────────────────────────

  lemma StepKeepsInv(me: SystemId, s: State, step: Step)
    requires Inv(me, s) && Enabled(me, s, step)
    ensures Inv(me, Do(me, s, step)) && Grows(s, Do(me, s, step))
  {
    StepKeepsFacts(me, s, step);
    StepKeepsProvenance(me, s, step);
    StepKeepsSnapshots(me, s, step);
  }

  lemma {:induction false} RunKeepsInv(me: SystemId, run: seq<State>, k: nat)
    requires IsRun(me, run) && k < |run|
    ensures Inv(me, run[k])
  {
    if k > 0 {
      RunKeepsInv(me, run, k - 1);
      assert Next(me, run[k - 1], run[k - 1 + 1]);
      var step :| Enabled(me, run[k - 1], step) && run[k] == Do(me, run[k - 1], step);
      StepKeepsInv(me, run[k - 1], step);
    }
  }

  lemma StepOf(me: SystemId, run: seq<State>, k: nat) returns (step: Step)
    requires IsRun(me, run) && k + 1 < |run|
    ensures Inv(me, run[k]) && Enabled(me, run[k], step) && run[k + 1] == Do(me, run[k], step)
    ensures Inv(me, run[k + 1]) && Grows(run[k], run[k + 1])
  {
    RunKeepsInv(me, run, k);
    assert Next(me, run[k], run[k + 1]);
    step :| Enabled(me, run[k], step) && run[k + 1] == Do(me, run[k], step);
    StepKeepsInv(me, run[k], step);
  }
}
