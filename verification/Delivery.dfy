/**
  Delivery of terminal outcomes: one agent (job runner and drain loop, internal/agent/agent.go),
  its outbox, a network that loses and duplicates, and the control plane's handlers
  (internal/api/agent_jobs.go) over the guarded job table.

  The agent's volatile parts are `runner`, `drainer` and `known`; a crash resets them at any
  step. A handler runs one database statement per step and may outlive the caller's wait.
  `log` remembers what happened; no step reads it.
*/
module Delivery {
  import opened Prelude
  import opened Jobs

  type RequestId = nat

  // ── Messages ─────────────────────────────────────────────────────────────────

  datatype Kind = CompleteKind(bytes: int) | FailKind(summary: string) | CancelledKind

  datatype Event = Event(job: JobId, kind: Kind)

  datatype Call = StartCall | Report(kind: Kind)

  datatype Reply = OK | Conflict | Missing | Unauthorized | Deferred | ServerError

  /** Retrying such an answer can never succeed. */
  predicate IsPermanent(r: Reply) { r.Conflict? || r.Missing? || r.Unauthorized? }

  // ── Control plane ────────────────────────────────────────────────────────────

  datatype HandlerPc =
    | Arrived
    | Authenticated
    | Claimed(reason: string)
    | Missed
    | Registering
    | Settled
    | Replied(reply: Reply)

  datatype Handler = Handler(job: JobId, call: Call, pc: HandlerPc)

  /** A cancelled job keeps the operator's reason, whatever the agent reports. */
  function OpFor(kind: Kind, now: Time, cancelReason: string): RowOp {
    match kind
    case CompleteKind(bytes) => RowOp.Complete(now, bytes)
    case FailKind(summary) => RowOp.Fail(now, summary)
    case CancelledKind => RowOp.Cancel(now, cancelReason)
  }

  // ── Agent ────────────────────────────────────────────────────────────────────

  datatype Runner =
    | Idle
    | Preparing(job: JobId)
    | Starting(job: JobId, req: RequestId)
    | Executing(job: JobId, cancelSeen: bool)
    | Reporting(e: Event)
    | Unsent(e: Event, durable: bool)
    | Sending(e: Event, req: RequestId, durable: bool)
    | Acking(job: JobId)

  datatype Drainer =
    | Resting
    | Draining(rest: seq<Event>)
    | DrainSending(e: Event, req: RequestId, rest: seq<Event>)
    | DrainAcking(job: JobId, rest: seq<Event>)

  datatype Log = Log(
    enqueued: set<JobId>,
    rejected: set<JobId>,
    ranOk: set<(JobId, int)>,
    failEvents: set<(JobId, string)>,
    stopped: set<JobId>,
    reaped: set<JobId>)

  datatype State = State(
    jobs: Table,
    issued: set<JobId>,
    snapshots: multiset<JobId>,
    handlers: map<RequestId, Handler>,
    outbox: map<JobId, Event>,
    known: set<JobId>,
    runner: Runner,
    drainer: Drainer,
    log: Log)

  // ── Steps of the job runner ──────────────────────────────────────────────────

  datatype RunnerStep =
    | Poll
    | PickJob(pick: JobId)
    | LookupFails(summary: string)
    | CallStart(id: RequestId)
    | StartAnswered
    | SeeCancel
    | BackupSucceeds(bytes: int)
    | BackupFails(summary: string)
    | EnqueueSucceeds
    | EnqueueFails
    | Send(id: RequestId)
    | Answered
    | GiveUpWaiting
    | Ack
    | AckFails

  predicate HasReply(s: State, req: RequestId) {
    req in s.handlers && s.handlers[req].pc.Replied?
  }

  ghost predicate RunnerEnabled(s: State, r: RunnerStep) {
    match r
    case Poll => s.runner.Idle?
    case PickJob(pick) => s.runner.Idle? && pick in s.known
    case LookupFails(_) => s.runner.Preparing?
    case CallStart(id) => s.runner.Preparing? && id !in s.handlers
    case StartAnswered => s.runner.Starting? && HasReply(s, s.runner.req)
    case SeeCancel => s.runner.Executing? && CancelRecorded(s, s.runner.job) && s.runner.job in s.jobs
    case BackupSucceeds(_) => s.runner.Executing?
    case BackupFails(_) => s.runner.Executing?
    case EnqueueSucceeds => s.runner.Reporting?
    case EnqueueFails => s.runner.Reporting?
    case Send(id) => s.runner.Unsent? && id !in s.handlers
    case Answered => s.runner.Sending? && HasReply(s, s.runner.req)
    case GiveUpWaiting => s.runner.Sending? || s.runner.Starting?
    case Ack => s.runner.Acking?
    case AckFails => s.runner.Acking?
  }

  /** Pending jobs the control plane lists for this agent. */
  function PendingFor(me: SystemId, t: Table): set<JobId> {
    set id | id in t && t[id].sys == me && t[id].status == Pending
  }

  ghost function DoRunner(me: SystemId, s: State, r: RunnerStep): State
    requires RunnerEnabled(s, r)
  {
    match r
    case Poll => s.(known := PendingFor(me, s.jobs))
    case PickJob(pick) => s.(known := s.known - {pick}, runner := Preparing(pick))
    case LookupFails(summary) =>
      s.(runner := Reporting(Event(s.runner.job, FailKind(summary))),
         log := s.log.(failEvents := s.log.failEvents + {(s.runner.job, summary)}))
    case CallStart(id) =>
      s.(runner := Starting(s.runner.job, id),
         handlers := s.handlers[id := Handler(s.runner.job, StartCall, Arrived)])
    case StartAnswered =>
      s.(runner := if s.handlers[s.runner.req].pc.reply.OK? then Executing(s.runner.job, false) else Idle)
    case SeeCancel => s.(runner := Executing(s.runner.job, true))
    case BackupSucceeds(bytes) =>
      s.(runner := Reporting(Event(s.runner.job, CompleteKind(bytes))),
         log := s.log.(ranOk := s.log.ranOk + {(s.runner.job, bytes)}))
    case BackupFails(summary) =>
      if s.runner.cancelSeen then s.(runner := Reporting(Event(s.runner.job, CancelledKind)),
                                     log := s.log.(stopped := s.log.stopped + {s.runner.job}))
      else s.(runner := Reporting(Event(s.runner.job, FailKind(summary))),
              log := s.log.(failEvents := s.log.failEvents + {(s.runner.job, summary)}))
    case EnqueueSucceeds =>
      s.(outbox := s.outbox[s.runner.e.job := s.runner.e], runner := Unsent(s.runner.e, true),
         log := s.log.(enqueued := s.log.enqueued + {s.runner.e.job}))
    case EnqueueFails => s.(runner := Unsent(s.runner.e, false))
    case Send(id) =>
      s.(runner := Sending(s.runner.e, id, s.runner.durable),
         handlers := s.handlers[id := Handler(s.runner.e.job, Report(s.runner.e.kind), Arrived)])
    case Answered =>
      var reply := s.handlers[s.runner.req].pc.reply;
      s.(runner := if s.runner.durable && (reply.OK? || IsPermanent(reply)) then Acking(s.runner.e.job) else Idle)
    case GiveUpWaiting => s.(runner := Idle)
    case Ack => s.(outbox := s.outbox - {s.runner.job}, runner := Idle)
    case AckFails => s.(runner := Idle)
  }

  // ── Steps of the drain loop ──────────────────────────────────────────────────

  datatype DrainStep =
    | ListOutbox(order: seq<Event>)
    | DrainSend(id: RequestId)
    | DrainAnswered
    | DrainGiveUp
    | DrainAck
    | DrainAckFails
    | DrainDone

  ghost predicate DrainEnabled(s: State, d: DrainStep) {
    match d
    case ListOutbox(order) =>
      s.drainer.Resting? && forall e :: e in order ==> e.job in s.outbox && s.outbox[e.job] == e
    case DrainSend(id) => s.drainer.Draining? && s.drainer.rest != [] && id !in s.handlers
    case DrainAnswered => s.drainer.DrainSending? && HasReply(s, s.drainer.req)
    case DrainGiveUp => s.drainer.DrainSending?
    case DrainAck => s.drainer.DrainAcking?
    case DrainAckFails => s.drainer.DrainAcking?
    case DrainDone => s.drainer.Draining? && s.drainer.rest == []
  }

  ghost function DoDrain(s: State, d: DrainStep): State
    requires DrainEnabled(s, d)
  {
    match d
    case ListOutbox(order) => s.(drainer := Draining(order))
    case DrainSend(id) =>
      var e := s.drainer.rest[0];
      s.(drainer := DrainSending(e, id, s.drainer.rest[1..]),
         handlers := s.handlers[id := Handler(e.job, Report(e.kind), Arrived)])
    case DrainAnswered =>
      var reply := s.handlers[s.drainer.req].pc.reply;
      s.(drainer := if reply.OK? || IsPermanent(reply) then DrainAcking(s.drainer.e.job, s.drainer.rest)
                    else Draining(s.drainer.rest))
    case DrainGiveUp => s.(drainer := Draining(s.drainer.rest))
    case DrainAck => s.(outbox := s.outbox - {s.drainer.job}, drainer := Draining(s.drainer.rest))
    case DrainAckFails => s.(drainer := Draining(s.drainer.rest))
    case DrainDone => s.(drainer := Resting)
  }

  // ── Steps of a request handler ───────────────────────────────────────────────

  datatype HandlerStep =
    | Authenticate(accepted: bool)
    | Claim
    | Transition(now: Time, admitted: bool)
    | CheckStatus
    | Register(insert: bool)
    | ReadFresh
    | Break

  predicate HandlerEnabled(h: Handler, a: HandlerStep) {
    match a
    case Authenticate(_) => h.pc.Arrived?
    case Claim => h.pc.Authenticated?
    case Transition(_, _) => h.pc.Claimed?
    case CheckStatus => h.pc.Missed?
    case Register(_) => h.pc.Registering?
    case ReadFresh => h.pc.Settled?
    case Break => !h.pc.Replied?
  }

  function WithPc(s: State, q: RequestId, pc: HandlerPc): State
    requires q in s.handlers
  {
    s.(handlers := s.handlers[q := s.handlers[q].(pc := pc)])
  }

  /** `AdmitStart` as one step: the verdict on a pending job is any (`admitted`), see `Dispatch`. */
  function DoStart(s: State, q: RequestId, now: Time, admitted: bool): State
    requires q in s.handlers
  {
    var job := s.handlers[q].job;
    if job !in s.jobs then WithPc(s, q, Replied(Missing))
    else if s.jobs[job].status != Pending then WithPc(s, q, Replied(Conflict))
    else if !admitted then WithPc(s, q, Replied(Deferred))
    else WithPc(s, q, Settled).(jobs := Apply(s.jobs, job, RowOp.Start(now)))
  }

  function DoReport(s: State, q: RequestId, kind: Kind, now: Time, reason: string): State
    requires q in s.handlers
  {
    var job := s.handlers[q].job;
    var op := OpFor(kind, now, reason);
    if Hits(s.jobs, job, op) then
      WithPc(s, q, if kind.CompleteKind? then Registering else Settled).(jobs := Apply(s.jobs, job, op))
    else WithPc(s, q, Missed)
  }

  function DoHandler(me: SystemId, s: State, q: RequestId, a: HandlerStep): State
    requires q in s.handlers && HandlerEnabled(s.handlers[q], a)
  {
    var h := s.handlers[q];
    match a
    case Authenticate(accepted) =>
      if accepted then WithPc(s, q, Authenticated)
      else WithPc(s, q, Replied(Unauthorized)).(log := s.log.(rejected := s.log.rejected + {h.job}))
    case Claim =>
      if h.job in s.jobs && s.jobs[h.job].sys == me then WithPc(s, q, Claimed(s.jobs[h.job].cancelReason))
      else WithPc(s, q, Replied(Missing))
    case Transition(now, admitted) =>
      if h.call.StartCall? then DoStart(s, q, now, admitted) else DoReport(s, q, h.call.kind, now, h.pc.reason)
    case CheckStatus => WithPc(s, q, Replied(if h.job in s.jobs then Conflict else Missing))
    case Register(insert) =>
      if insert && h.job in s.jobs then WithPc(s, q, Settled).(snapshots := s.snapshots + multiset{h.job})
      else WithPc(s, q, Settled)
    case ReadFresh => WithPc(s, q, Replied(if h.job in s.jobs then OK else Missing))
    case Break => WithPc(s, q, Replied(ServerError))
  }

  // ── Everything else that happens ─────────────────────────────────────────────

  datatype WorldStep =
    | Crash
    | Duplicate(original: RequestId, id: RequestId)
    | InsertJob(job: JobId, sys: SystemId, policy: PolicyId, now: Time)
    | OperatorCancel(job: JobId, now: Time, reason: string)
    | ReapJob(job: JobId, now: Time)
    | DeleteJob(job: JobId)
    | Progress(job: JobId, now: Time)
    | OtherAgent(job: JobId, op: RowOp)

  predicate WorldEnabled(me: SystemId, s: State, w: WorldStep) {
    match w
    case Crash => true
    case Duplicate(original, id) => original in s.handlers && id !in s.handlers
    case InsertJob(job, _, _, _) => job !in s.issued
    case OperatorCancel(_, _, _) => true
    case ReapJob(job, _) => job in s.jobs && !Terminal(s.jobs[job].status)
    case DeleteJob(job) => s.snapshots[job] == 0
    case Progress(_, _) => true
    case OtherAgent(job, op) => job in s.jobs && s.jobs[job].sys != me && !op.Remove?
  }

  function DoWorld(s: State, w: WorldStep): State
    requires w.Duplicate? ==> w.original in s.handlers
  {
    match w
    case Crash => s.(runner := Idle, drainer := Resting, known := {})
    case Duplicate(original, id) => s.(handlers := s.handlers[id := s.handlers[original].(pc := Arrived)])
    case InsertJob(job, sys, policy, now) =>
      s.(jobs := s.jobs[job := NewJob(sys, policy, now)], issued := s.issued + {job})
    case OperatorCancel(job, now, reason) => s.(jobs := Apply(s.jobs, job, RowOp.RequestCancel(now, reason)))
    case ReapJob(job, now) =>
      s.(jobs := Apply(s.jobs, job, RowOp.Fail(now, "")), log := s.log.(reaped := s.log.reaped + {job}))
    case DeleteJob(job) => s.(jobs := Apply(s.jobs, job, RowOp.Remove))
    case Progress(job, now) => s.(jobs := Apply(s.jobs, job, RowOp.ReportProgress(now)))
    case OtherAgent(job, op) => s.(jobs := Apply(s.jobs, job, op))
  }

  // ── Runs ─────────────────────────────────────────────────────────────────────

  datatype Step =
    | ByRunner(r: RunnerStep)
    | ByDrainer(d: DrainStep)
    | ByHandler(q: RequestId, a: HandlerStep)
    | ByWorld(w: WorldStep)

  ghost predicate Enabled(me: SystemId, s: State, step: Step) {
    match step
    case ByRunner(r) => RunnerEnabled(s, r)
    case ByDrainer(d) => DrainEnabled(s, d)
    case ByHandler(q, a) => q in s.handlers && HandlerEnabled(s.handlers[q], a)
    case ByWorld(w) => WorldEnabled(me, s, w)
  }

  ghost function Do(me: SystemId, s: State, step: Step): State
    requires Enabled(me, s, step)
  {
    match step
    case ByRunner(r) => DoRunner(me, s, r)
    case ByDrainer(d) => DoDrain(s, d)
    case ByHandler(q, a) => DoHandler(me, s, q, a)
    case ByWorld(w) => DoWorld(s, w)
  }

  ghost predicate Initial(s: State) {
    s == State(map[], {}, multiset{}, map[], map[], {}, Idle, Resting, Log({}, {}, {}, {}, {}, {}))
  }

  ghost predicate Next(me: SystemId, s: State, s': State) {
    exists step: Step :: Enabled(me, s, step) && s' == Do(me, s, step)
  }

  ghost predicate IsRun(me: SystemId, run: seq<State>) {
    && run != [] && Initial(run[0])
    && forall i :: 0 <= i < |run| - 1 ==> Next(me, run[i], run[i + 1])
  }

  // ── Facts about one job ──────────────────────────────────────────────────────

  predicate Ended(s: State, j: JobId) {
    j !in s.jobs || Terminal(s.jobs[j].status)
  }

  /** The control plane has the job's outcome, or it is gone, or it answered 401 for it. */
  predicate Resolved(s: State, j: JobId) {
    Ended(s, j) || j in s.log.rejected
  }

  predicate CancelRecorded(s: State, j: JobId) {
    j in s.jobs ==> s.jobs[j].cancelRequestedAt.Some?
  }
}
