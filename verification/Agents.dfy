/**
  The agent's reporting code (internal/agent/agent.go) and the handlers it calls
  (internal/api/agent_jobs.go), each run on its own: the sequential methods whose statements
  `Delivery` interleaves. The network is a `Link` per call.
*/
module Agents {
  import opened Prelude
  import opened Jobs
  import opened Delivery

  /** What happens to one call; a 5xx answer counts as the loss of the request or of the response. */
  datatype Link = Up | RequestLost | ResponseLost

  predicate Done(t: Table, j: JobId) { j in t ==> Terminal(t[j].status) }

  /** The answer to a report when nothing else happens meanwhile. */
  function ReplyFor(t: Table, caller: Option<SystemId>, e: Event): Reply {
    if caller == None then Unauthorized
    else if e.job !in t || t[e.job].sys != caller.value then Missing
    else if Hits(t, e.job, OpFor(e.kind, 0, "")) then OK
    else Conflict
  }

  /** The job table after it. */
  function TableAfter(t: Table, caller: Option<SystemId>, e: Event, now: Time): Table {
    if ReplyFor(t, caller, e) == OK then Apply(t, e.job, OpFor(e.kind, now, t[e.job].cancelReason)) else t
  }

  // ── What a report does, on the data ──────────────────────────────────────────

  /** The report is about the caller's own job, which is running, or pending if it is a failure. */
  predicate Taken(t: Table, caller: Option<SystemId>, e: Event) {
    && caller.Some? && e.job in t && t[e.job].sys == caller.value
    && (t[e.job].status == Running || (t[e.job].status == Pending && e.kind.FailKind?))
  }

  /** Success with the reported bytes, failure with the reported summary, or cancelled with the operator's reason. */
  predicate Ends(a: Job, b: Job, kind: Kind, now: Time) {
    match kind
    case CompleteKind(bytes) => b == a.(status := Success, finishedAt := Some(now), bytesUploaded := Some(bytes))
    case FailKind(summary) => b == a.(status := Failed, finishedAt := Some(now), errorSummary := Some(Reported(summary)))
    case CancelledKind =>
      b == a.(status := Cancelled, finishedAt := Some(now),
              errorSummary := if a.cancelReason == "" then None else Some(Reported(a.cancelReason)))
  }

  /** The row of the event's job before and after the report has reached its handler. */
  predicate Recorded(t: Table, u: Table, caller: Option<SystemId>, e: Event, now: Time) {
    && (e.job in t <==> e.job in u)
    && (e.job in t ==> if Taken(t, caller, e) then Ends(t[e.job], u[e.job], e.kind, now) else u[e.job] == t[e.job])
  }

  predicate OthersKept(t: Table, u: Table, j: JobId) {
    u.Keys == t.Keys && forall id :: id in t && id != j ==> u[id] == t[id]
  }

  /** The snapshots a report registers. */
  function Registered(t: Table, caller: Option<SystemId>, e: Event, register: bool): multiset<JobId> {
    if register && e.kind.CompleteKind? && Taken(t, caller, e) then multiset{e.job} else multiset{}
  }

  /** What the answer to a report says about its job, what it has written, and that no other job is touched. */
  lemma AnswerIsTrue(t: Table, caller: Option<SystemId>, e: Event, now: Time)
    requires Coherent(t)
    ensures var r, u := ReplyFor(t, caller, e), TableAfter(t, caller, e, now);
            && OthersKept(t, u, e.job) && Recorded(t, u, caller, e, now)
            && (r.OK? <==> Taken(t, caller, e))
            && (r.Unauthorized? <==> caller == None)
            && (r.Missing? <==> caller.Some? && (e.job in t ==> t[e.job].sys != caller.value))
            && (r.Conflict? ==>
                  e.job in t && (Terminal(t[e.job].status) || (t[e.job].status == Pending && !e.kind.FailKind?)))
            && (r.OK? || IsPermanent(r))
  {
  }

  class Handlers {
    const jobs: JobStore
    var snapshots: multiset<JobId>

    constructor (jobs: JobStore)
      ensures this.jobs == jobs && snapshots == multiset{}
    {
      this.jobs := jobs;
      snapshots := multiset{};
    }

    /** The guarded transition of a report; a miss is told apart into 404 and 409. */
    method Transition(e: Event, now: Time, cancelReason: string) returns (r: TransitionResult)
      requires Coherent(jobs.rows)
      modifies jobs
      ensures Coherent(jobs.rows) && Evolves(old(jobs.rows), jobs.rows)
      ensures r.NotFound? <==> e.job !in old(jobs.rows)
      ensures r.Applied? <==>
                && e.job in old(jobs.rows)
                && (old(jobs.rows)[e.job].status == Running || (e.kind.FailKind? && old(jobs.rows)[e.job].status == Pending))
      ensures jobs.rows == Apply(old(jobs.rows), e.job, OpFor(e.kind, now, cancelReason))
    {
      match e.kind
      case CompleteKind(bytes) => r := jobs.CompleteJob(e.job, now, bytes);
      case FailKind(summary) => r := jobs.FailJob(e.job, now, summary);
      case CancelledKind => r := jobs.CancelJob(e.job, now, cancelReason);
    }

    /**
      Complete, fail and cancelled: claim the job, make the transition, and register the snapshot
      of a completed job (`register`: its policy has a repository and the insert works).
    */
    method Report(caller: Option<SystemId>, e: Event, now: Time, register: bool) returns (r: Reply)
      requires Coherent(jobs.rows)
      modifies this, jobs
      ensures Coherent(jobs.rows) && Evolves(old(jobs.rows), jobs.rows)
      ensures r == ReplyFor(old(jobs.rows), caller, e)
      ensures jobs.rows == TableAfter(old(jobs.rows), caller, e, now)
      ensures Recorded(old(jobs.rows), jobs.rows, caller, e, now)
      ensures snapshots == old(snapshots) + Registered(old(jobs.rows), caller, e, register)
    {
      AnswerIsTrue(jobs.rows, caller, e, now);
      if caller == None {
        return Unauthorized;
      }
      if e.job !in jobs.rows || jobs.rows[e.job].sys != caller.value {
        return Missing;
      }
      var t := Transition(e, now, jobs.rows[e.job].cancelReason);
      if t.IllegalTransition? {
        return Conflict;
      }
      if e.kind.CompleteKind? && register {
        snapshots := snapshots + multiset{e.job};
      }
      return OK;
    }
  }

  class Agent {
    const api: Handlers
    /** The token's system; `None` once the token is refused. */
    const token: Option<SystemId>
    var outbox: map<JobId, Event>

    constructor (api: Handlers, token: Option<SystemId>, left: map<JobId, Event>)
      ensures this.api == api && this.token == token && outbox == left
    {
      this.api := api;
      this.token := token;
      outbox := left;
    }

    /** Events sit under their own job, and a job that is still pending has at most a failure to report. */
    ghost predicate Sound()
      reads this, api.jobs
    {
      && Coherent(api.jobs.rows)
      && (forall j :: j in outbox ==> outbox[j].job == j && Reportable(outbox[j], api.jobs.rows))
    }

    /** The token is accepted and the job, if it still exists, is this agent's. */
    ghost predicate Mine(j: JobId)
      reads this, api.jobs
    {
      token.Some? && (j in api.jobs.rows ==> api.jobs.rows[j].sys == token.value)
    }

    /** One call; no answer arrives when the request or the response is lost. */
    method Deliver(e: Event, link: Link, now: Time, register: bool) returns (answer: Option<Reply>)
      requires Coherent(api.jobs.rows)
      modifies api, api.jobs
      ensures Coherent(api.jobs.rows) && Evolves(old(api.jobs.rows), api.jobs.rows)
      ensures Effect(old(api.jobs.rows), api.jobs.rows, token, e, link, now) && OthersKept(old(api.jobs.rows), api.jobs.rows, e.job)
      ensures api.snapshots == old(api.snapshots) + Shots(old(api.jobs.rows), token, e, link, register)
      ensures answer.Some? <==> link.Up?
      ensures answer.Some? ==> answer.value == ReplyFor(old(api.jobs.rows), token, e)
      ensures answer.Some? ==> (answer.value.OK? <==> Taken(old(api.jobs.rows), token, e))
      ensures answer.Some? ==> answer.value.OK? || IsPermanent(answer.value)
    {
      if link.RequestLost? {
        return None;
      }
      AnswerIsTrue(api.jobs.rows, token, e, now);
      var r := api.Report(token, e, now, register);
      answer := if link.Up? then Some(r) else None;
    }

    /** Delivers once; the event goes on success and on a permanent rejection, and stays otherwise. */
    method TryDeliver(e: Event, link: Link, now: Time, register: bool)
      requires Sound() && Reportable(e, api.jobs.rows)
      modifies this, api, api.jobs
      ensures Sound() && Evolves(old(api.jobs.rows), api.jobs.rows)
      ensures Effect(old(api.jobs.rows), api.jobs.rows, token, e, link, now) && OthersKept(old(api.jobs.rows), api.jobs.rows, e.job)
      ensures api.snapshots == old(api.snapshots) + Shots(old(api.jobs.rows), token, e, link, register)
      ensures outbox == if link.Up? then old(outbox) - {e.job} else old(outbox)
      ensures link.Up? && Mine(e.job) ==> Done(api.jobs.rows, e.job)
    {
      var answer := Deliver(e, link, now, register);
      if answer.Some? && (answer.value.OK? || IsPermanent(answer.value)) {
        outbox := outbox - {e.job};
      }
    }

    /**
      Records the outcome first, so an unanswered call leaves it for the drain loop; an outcome that
      cannot be stored is sent once.
    */
    method ReportTerminal(e: Event, stored: bool, link: Link, now: Time, register: bool)
      requires Sound() && Reportable(e, api.jobs.rows)
      modifies this, api, api.jobs
      ensures Sound() && Evolves(old(api.jobs.rows), api.jobs.rows)
      ensures Effect(old(api.jobs.rows), api.jobs.rows, token, e, link, now) && OthersKept(old(api.jobs.rows), api.jobs.rows, e.job)
      ensures api.snapshots == old(api.snapshots) + Shots(old(api.jobs.rows), token, e, link, register)
      ensures stored ==> outbox == if link.Up? then old(outbox) - {e.job} else old(outbox)[e.job := e]
      ensures !stored ==> outbox == old(outbox)
      ensures Mine(e.job) ==> Done(api.jobs.rows, e.job) || (if stored then e.job in outbox else !link.Up?)
    {
      if !stored {
        var answer := Deliver(e, link, now, register);
        return;
      }
      outbox := outbox[e.job := e];
      TryDeliver(e, link, now, register);
    }

    /** Every event of the listing is the outbox's own, and every outbox event is listed once. */
    ghost predicate Lists(order: seq<Event>)
      reads this
    {
      && (forall e :: e in order <==> e.job in outbox && outbox[e.job] == e)
      && OncePerJob(order)
    }

    /** What trying the first `k` events of the listing has done to the outbox, the jobs and the snapshots. */
    ghost predicate Tried(before: map<JobId, Event>, start: Table, shots: multiset<JobId>,
                          order: seq<Event>, links: seq<Link>, works: set<JobId>, k: nat, now: Time)
      requires k <= |order| == |links|
      reads this, api, api.jobs
    {
      && outbox == before - JobsAnswered(order, links, k)
      && api.jobs.rows.Keys == start.Keys
      && (forall i :: 0 <= i < k ==> Effect(start, api.jobs.rows, token, order[i], links[i], now))
      && (forall j :: j in start && Untried(order, k, j) ==> api.jobs.rows[j] == start[j])
      && api.snapshots == shots + AllShots(start, token, order, links, works, k)
    }

    method TryNext(ghost before: map<JobId, Event>, ghost start: Table, ghost shots: multiset<JobId>,
                   order: seq<Event>, links: seq<Link>, works: set<JobId>, k: nat, now: Time)
      requires Sound() && k < |order| == |links| && OncePerJob(order)
      requires Tried(before, start, shots, order, links, works, k, now)
      requires order[k].job in before && before[order[k].job] == order[k]
      modifies this, api, api.jobs
      ensures Sound() && Tried(before, start, shots, order, links, works, k + 1, now)
    {
      var e := order[k];
      ghost var t := api.jobs.rows;
      OneMoreAnswer(order, links, k);
      assert Untried(order, k, e.job);
      assert e.job in outbox && outbox[e.job] == e;
      TryDeliver(e, links[k], now, e.job in works);
      OneMoreEffect(start, t, api.jobs.rows, token, order, links, k, now);
      SameShots(start, t, token, e, links[k], e.job in works);
    }

    /**
      One drain. Nothing leaves the outbox but what was answered, and with every link up it is empty
      afterwards. Every event that reached its handler has done to its job, and registered, what its
      report does; no other job has changed. An answered event's job has ended, unless the token is
      refused or the job is another system's.
    */
    method Drain(order: seq<Event>, links: seq<Link>, works: set<JobId>, now: Time)
      requires Sound() && |links| == |order| && Lists(order)
      modifies this, api, api.jobs
      ensures Sound()
      ensures outbox == old(outbox) - JobsAnswered(order, links, |order|)
      ensures forall i :: 0 <= i < |order| ==> Effect(old(api.jobs.rows), api.jobs.rows, token, order[i], links[i], now)
      ensures api.jobs.rows.Keys == old(api.jobs.rows).Keys
      ensures forall j :: j in old(api.jobs.rows) && j !in old(outbox) ==> api.jobs.rows[j] == old(api.jobs.rows)[j]
      ensures api.snapshots == old(api.snapshots) + AllShots(old(api.jobs.rows), token, order, links, works, |order|)
      ensures forall j :: j in old(outbox) ==> j in outbox || Done(api.jobs.rows, j) || !Mine(j)
      ensures (forall l :: l in links ==> l.Up?) ==> outbox == map[]
    {
      ghost var before, start, shots := outbox, api.jobs.rows, api.snapshots;
      AllListed(before, order, links);
      TryAll(order, links, works, now);
      ListedJobs(before, order);
      AnsweredAreDone(before, start, api.jobs.rows, token, order, links, now);
    }

    /** The loop of one drain over the listed events. */
    method TryAll(order: seq<Event>, links: seq<Link>, works: set<JobId>, now: Time)
      requires Sound() && |links| == |order| && Lists(order)
      modifies this, api, api.jobs
      ensures Sound()
      ensures Tried(old(outbox), old(api.jobs.rows), old(api.snapshots), order, links, works, |order|, now)
    {
      for k := 0 to |order|
        invariant Sound()
        invariant Tried(old(outbox), old(api.jobs.rows), old(api.snapshots), order, links, works, k, now)
      {
        assert order[k] in order;
        TryNext(old(outbox), old(api.jobs.rows), old(api.snapshots), order, links, works, k, now);
      }
    }
  }

  ghost predicate Reportable(e: Event, t: Table) {
    e.job in t && t[e.job].status == Pending ==> e.kind.FailKind?
  }

  /** The row of the event's job before and after one call. */
  predicate Effect(t: Table, u: Table, caller: Option<SystemId>, e: Event, link: Link, now: Time) {
    if link.RequestLost? then (e.job in t <==> e.job in u) && (e.job in t ==> u[e.job] == t[e.job])
    else Recorded(t, u, caller, e, now)
  }

  function Shots(t: Table, caller: Option<SystemId>, e: Event, link: Link, register: bool): multiset<JobId> {
    if link.RequestLost? then multiset{} else Registered(t, caller, e, register)
  }

  /** The snapshots of the first `k` calls, each judged on the table `t`. */
  function AllShots(t: Table, caller: Option<SystemId>, order: seq<Event>, links: seq<Link>, works: set<JobId>, k: nat): multiset<JobId>
    requires k <= |order| == |links|
  {
    if k == 0 then multiset{}
    else
      AllShots(t, caller, order, links, works, k - 1)
      + Shots(t, caller, order[k - 1], links[k - 1], order[k - 1].job in works)
  }

  ghost predicate OncePerJob(order: seq<Event>) {
    forall a, b :: 0 <= a < b < |order| ==> order[a].job != order[b].job
  }

  ghost predicate Untried(order: seq<Event>, k: nat, j: JobId)
    requires k <= |order|
  {
    forall i :: 0 <= i < k ==> order[i].job != j
  }

  /** An effect on the table as it was at the start is not changed by the later calls, nor anticipated by the earlier. */
  lemma OneMoreEffect(start: Table, t: Table, u: Table, caller: Option<SystemId>, order: seq<Event>, links: seq<Link>, k: nat, now: Time)
    requires k < |order| == |links| && OncePerJob(order) && t.Keys == start.Keys
    requires forall i :: 0 <= i < k ==> Effect(start, t, caller, order[i], links[i], now)
    requires forall j :: j in start && Untried(order, k, j) ==> t[j] == start[j]
    requires Effect(t, u, caller, order[k], links[k], now) && OthersKept(t, u, order[k].job)
    ensures forall i :: 0 <= i < k + 1 ==> Effect(start, u, caller, order[i], links[i], now)
    ensures forall j :: j in start && Untried(order, k + 1, j) ==> u[j] == start[j]
  {
    assert Untried(order, k, order[k].job);
    forall i | 0 <= i < k ensures Effect(start, u, caller, order[i], links[i], now) {
      assert order[i].job != order[k].job;
    }
    forall j | j in start && Untried(order, k + 1, j) ensures u[j] == start[j] {
      assert order[k].job != j && Untried(order, k, j);
    }
  }

  lemma SameShots(start: Table, t: Table, caller: Option<SystemId>, e: Event, link: Link, register: bool)
    requires t.Keys == start.Keys && (e.job in start ==> t[e.job] == start[e.job])
    ensures Shots(t, caller, e, link, register) == Shots(start, caller, e, link, register)
  {
  }

  lemma ListedJobs(before: map<JobId, Event>, order: seq<Event>)
    requires forall e :: e in order <==> e.job in before && before[e.job] == e
    ensures forall j :: j !in before ==> Untried(order, |order|, j)
  {
    forall j | j !in before ensures Untried(order, |order|, j) {
      forall i | 0 <= i < |order| ensures order[i].job != j {
        assert order[i] in order;
      }
    }
  }

  /** Whoever was answered about its own job has it ended. */
  lemma AnsweredAreDone(before: map<JobId, Event>, t: Table, u: Table, caller: Option<SystemId>, order: seq<Event>, links: seq<Link>, now: Time)
    requires |order| == |links| && u.Keys == t.Keys
    requires forall e :: e in order ==> e.job in before && before[e.job] == e
    requires forall j :: j in before ==> Reportable(before[j], t)
    requires forall i :: 0 <= i < |order| ==> Effect(t, u, caller, order[i], links[i], now)
    ensures forall j :: j in JobsAnswered(order, links, |order|) && caller.Some? && (j in u ==> u[j].sys == caller.value) ==> Done(u, j)
  {
    forall j | j in JobsAnswered(order, links, |order|) && caller.Some? && (j in u ==> u[j].sys == caller.value) ensures Done(u, j) {
      var i :| 0 <= i < |order| && links[i].Up? && order[i].job == j;
      assert order[i] in order;
      RecordedIsDone(t, u, caller, order[i], now);
    }
  }

  lemma RecordedIsDone(t: Table, u: Table, caller: Option<SystemId>, e: Event, now: Time)
    requires Recorded(t, u, caller, e, now) && Reportable(e, t)
    requires caller.Some? && (e.job in u ==> u[e.job].sys == caller.value)
    ensures Done(u, e.job)
  {
  }

  lemma AllListed(outbox: map<JobId, Event>, order: seq<Event>, links: seq<Link>)
    requires |links| == |order|
    requires forall j :: j in outbox ==> outbox[j].job == j && outbox[j] in order
    ensures (forall l :: l in links ==> l.Up?) ==> outbox.Keys <= JobsAnswered(order, links, |order|)
  {
  }

  /** Jobs of the first `k` listed events whose call was answered. */
  ghost function JobsAnswered(order: seq<Event>, links: seq<Link>, k: nat): set<JobId>
    requires k <= |order| == |links|
  {
    set i | 0 <= i < k && links[i].Up? :: order[i].job
  }

  lemma OneMoreAnswer(order: seq<Event>, links: seq<Link>, k: nat)
    requires k < |order| == |links|
    requires forall a, b :: 0 <= a < b < |order| ==> order[a].job != order[b].job
    ensures order[k].job !in JobsAnswered(order, links, k)
    ensures JobsAnswered(order, links, k + 1)
            == JobsAnswered(order, links, k) + if links[k].Up? then {order[k].job} else {}
  {
  }

  // ── The handler of the interleaved model, run without interruption ───────────

  /** From `Claimed` on: transition, and what follows a hit or a miss. */
  lemma ClaimedHandlerFinishes(me: SystemId, s: State, q: RequestId, e: Event, now: Time, insert: bool) returns (t: State)
    requires q in s.handlers && s.handlers[q].job == e.job && s.handlers[q].call == Report(e.kind)
    requires s.handlers[q].pc.Claimed? && e.job in s.jobs && s.jobs[e.job].sys == me
    ensures q in t.handlers && t.handlers[q].pc == Replied(ReplyFor(s.jobs, Some(me), e))
    ensures s.handlers[q].pc.reason == s.jobs[e.job].cancelReason ==> t.jobs == TableAfter(s.jobs, Some(me), e, now)
    ensures t.snapshots == s.snapshots + Registered(s.jobs, Some(me), e, insert)
    ensures t == s.(jobs := t.jobs, snapshots := t.snapshots, handlers := t.handlers, log := t.log)
  {
    t := DoHandler(me, s, q, Transition(now, true));
    if t.handlers[q].pc.Missed? {
      t := DoHandler(me, t, q, CheckStatus);
    } else {
      if t.handlers[q].pc.Registering? {
        t := DoHandler(me, t, q, Register(insert));
      }
      t := DoHandler(me, t, q, ReadFresh);
    }
  }

  /** Stepped through without interruption, the interleaved handler answers and writes what `Report` does. */
  lemma HandlerAloneIsReport(me: SystemId, s: State, q: RequestId, e: Event, now: Time, accepted: bool, insert: bool) returns (t: State)
    requires q in s.handlers && s.handlers[q] == Handler(e.job, Report(e.kind), Arrived)
    ensures var caller := if accepted then Some(me) else None;
            q in t.handlers && t.handlers[q].pc == Replied(ReplyFor(s.jobs, caller, e))
    ensures t.jobs == TableAfter(s.jobs, if accepted then Some(me) else None, e, now)
    ensures t.snapshots == s.snapshots + Registered(s.jobs, if accepted then Some(me) else None, e, insert)
    ensures t == s.(jobs := t.jobs, snapshots := t.snapshots, handlers := t.handlers, log := t.log)
  {
    t := DoHandler(me, s, q, Authenticate(accepted));
    if accepted {
      t := DoHandler(me, t, q, Claim);
      if t.handlers[q].pc.Claimed? {
        t := ClaimedHandlerFinishes(me, t, q, e, now, insert);
      }
    }
  }

  // ── The runner of the interleaved model, run without interruption ────────────

  /** Up to its request having arrived: the outcome is stored and then sent as it is. */
  lemma RunnerSends(me: SystemId, s: State, e: Event, q: RequestId) returns (t: State)
    requires s.runner == Reporting(e) && q !in s.handlers
    ensures t == s.(runner := Sending(e, q, true), outbox := s.outbox[e.job := e],
                    handlers := s.handlers[q := Handler(e.job, Report(e.kind), Arrived)],
                    log := s.log.(enqueued := s.log.enqueued + {e.job}))
  {
    t := DoRunner(me, s, EnqueueSucceeds);
    t := DoRunner(me, t, Send(q));
  }

  /** From an answer on: the event goes if it was settled, and stays when the agent stops waiting. */
  lemma RunnerFinishes(me: SystemId, s: State, e: Event, q: RequestId, r: Reply, answered: bool) returns (t: State)
    requires s.runner == Sending(e, q, true) && q in s.handlers && s.handlers[q].pc == Replied(r)
    requires r.OK? || r.Conflict? || r.Missing? || r.Unauthorized?
    ensures t == s.(runner := Idle, outbox := if answered then s.outbox - {e.job} else s.outbox)
  {
    if answered {
      t := DoRunner(me, s, Answered);
      t := DoRunner(me, t, Ack);
    } else {
      t := DoRunner(me, s, GiveUpWaiting);
    }
  }

  /** Stepped through without interruption, runner and handler do what `ReportTerminal` does with a stored outcome. */
  lemma AgentAloneIsReportTerminal(me: SystemId, s: State, e: Event, q: RequestId, now: Time, accepted: bool, insert: bool, answered: bool)
    returns (t: State)
    requires s.runner == Reporting(e) && q !in s.handlers
    ensures t.runner == Idle
    ensures t.outbox == if answered then s.outbox - {e.job} else s.outbox[e.job := e]
    ensures t.jobs == TableAfter(s.jobs, if accepted then Some(me) else None, e, now)
    ensures t.snapshots == s.snapshots + Registered(s.jobs, if accepted then Some(me) else None, e, insert)
  {
    var sent := RunnerSends(me, s, e, q);
    var caller := if accepted then Some(me) else None;
    t := HandlerAloneIsReport(me, sent, q, e, now, accepted, insert);
    t := RunnerFinishes(me, t, e, q, ReplyFor(s.jobs, caller, e), answered);
  }
}
