/**
  What a dispatch decision says about the data: the job's row, the system's operation state and
  heartbeat, and the table as it would be with the job started. `GuardMeans` ties the guard's
  sequence of comparisons to it.
*/
module DispatchMeaning {
  import opened Prelude
  import opened Jobs
  import opened OperationState
  import opened Dispatch

  /** The table with the job running, whatever else a start writes. */
  function WithRunning(t: Table, id: JobId): Table
    requires id in t
  {
    t[id := t[id].(status := Running)]
  }

  ghost predicate GlobalHolds(c: Config, t: Table) { |RunningJobs(t)| <= c.limits.global }

  /** The ceiling of the job's own repository, if it has one, and of its own agent. */
  ghost predicate RepositoryHolds(c: Config, t: Table, id: JobId) {
    id in t ==> forall repo :: WritesTo(c, t[id], repo) ==> |RunningInRepo(c, t, repo)| <= c.limits.perRepository
  }

  ghost predicate AgentHolds(c: Config, t: Table, id: JobId) {
    id in t ==> |RunningOnAgent(t, t[id].sys)| <= c.limits.perAgent
  }

  predicate Known(c: Config, t: Table, id: JobId) { id in t && t[id].policy in c.policies }

  predicate StateLetsPass(o: OpState) { o.Active? || o.Unrecognised? }

  /** Seen by the control plane within the last 15 minutes. */
  predicate SeenLately(lastSeen: Option<int>, at: int) { lastSeen.Some? && at - lastSeen.value <= 900 }

  /** Why a pending job is held back. */
  ghost predicate HeldBack(c: Config, t: Table, id: JobId, op: OpState, lastSeen: Option<int>, at: int, r: BlockReason)
    requires id in t
  {
    var u := WithRunning(t, id);
    var ready := StateLetsPass(op) && SeenLately(lastSeen, at);
    match r
    case Maintenance => op.InMaintenance?
    case Draining => op.InDraining?
    case Suspended => op.IsSuspended?
    case HealthUnknown => StateLetsPass(op) && lastSeen == None
    case Offline => StateLetsPass(op) && lastSeen.Some? && !SeenLately(lastSeen, at)
    case GlobalLimit => ready && !GlobalHolds(c, u)
    case RepositoryLimit => ready && GlobalHolds(c, u) && !RepositoryHolds(c, u, id)
    case AgentLimit => ready && GlobalHolds(c, u) && RepositoryHolds(c, u, id) && !AgentHolds(c, u, id)
  }

  ghost predicate OutcomeMeans(c: Config, t: Table, id: JobId, op: OpState, lastSeen: Option<int>, at: int, o: Outcome) {
    match o
    case JobMissing => !Known(c, t, id)
    case NotPending => Known(c, t, id) && t[id].status != Pending
    case Blocked(r) => Known(c, t, id) && t[id].status == Pending && HeldBack(c, t, id, op, lastSeen, at, r)
    case Allowed =>
      && Known(c, t, id) && t[id].status == Pending && StateLetsPass(op) && SeenLately(lastSeen, at)
      && GlobalHolds(c, WithRunning(t, id)) && RepositoryHolds(c, WithRunning(t, id), id)
      && AgentHolds(c, WithRunning(t, id), id)
    case NoLongerPending => false
    case TechnicalFailure => false
  }

  // ── The gates ────────────────────────────────────────────────────────────────

  /** One reason for each operation state and each heartbeat, the operation state first. */
  lemma GateMeans(op: OpState, lastSeen: Option<int>, at: int)
    ensures var g := Gate(op, lastSeen, at);
            && (g == None <==> StateLetsPass(op) && SeenLately(lastSeen, at))
            && (g == Some(Maintenance) <==> op.InMaintenance?)
            && (g == Some(Draining) <==> op.InDraining?)
            && (g == Some(Suspended) <==> op.IsSuspended?)
            && (g == Some(HealthUnknown) <==> StateLetsPass(op) && lastSeen == None)
            && (g == Some(Offline) <==> StateLetsPass(op) && lastSeen.Some? && !SeenLately(lastSeen, at))
  {
  }

  /** The health shown beside the decision. */
  lemma HealthMeans(lastSeen: Option<int>, now: int)
    ensures var h := DeriveHealthState(lastSeen, now);
            && (h.UnknownHealth? <==> lastSeen == None)
            && (h.Online? <==> lastSeen.Some? && now - lastSeen.value <= 120)
            && (h.Degraded? <==> lastSeen.Some? && 120 < now - lastSeen.value <= 900)
            && (h.OfflineHealth? <==> lastSeen.Some? && 900 < now - lastSeen.value)
  {
  }

  // ── The counts ───────────────────────────────────────────────────────────────

  /** Starting a pending job adds exactly itself to each count it falls under. */
  lemma StartCounts(c: Config, t: Table, id: JobId, now: Time)
    requires id in t && t[id].status == Pending && t[id].policy in c.policies
    ensures var u := Apply(t, id, Start(now));
            && |RunningJobs(u)| == |RunningJobs(t)| + 1
            && |RunningOnAgent(u, t[id].sys)| == |RunningOnAgent(t, t[id].sys)| + 1
            && (c.policies[t[id].policy].Some? ==>
                  var repo := c.policies[t[id].policy].value;
                  |RunningInRepo(c, u, repo)| == |RunningInRepo(c, t, repo)| + 1)
  {
    StartedSets(c, t, id, Apply(t, id, Start(now)));
  }

  lemma StartedSets(c: Config, t: Table, id: JobId, u: Table)
    requires id in t && t[id].status == Pending && u.Keys == t.Keys
    requires u[id].status == Running && u[id].sys == t[id].sys && u[id].policy == t[id].policy
    requires forall other :: other in t && other != id ==> u[other] == t[other]
    ensures id !in RunningJobs(t) && RunningJobs(u) == RunningJobs(t) + {id}
    ensures id !in RunningOnAgent(t, t[id].sys) && RunningOnAgent(u, t[id].sys) == RunningOnAgent(t, t[id].sys) + {id}
    ensures forall repo :: WritesTo(c, t[id], repo) ==>
              id !in RunningInRepo(c, t, repo) && RunningInRepo(c, u, repo) == RunningInRepo(c, t, repo) + {id}
  {
  }

  /** A count below its limit is a ceiling that holds after the start, and the other way round. */
  lemma CountsMeanCeilings(c: Config, t: Table, id: JobId)
    requires Known(c, t, id) && t[id].status == Pending
    ensures var u, repo := WithRunning(t, id), c.policies[t[id].policy];
            && (GlobalHolds(c, u) <==> |RunningJobs(t)| < c.limits.global)
            && (RepositoryHolds(c, u, id) <==> (repo.Some? ==> |RunningInRepo(c, t, repo.value)| < c.limits.perRepository))
            && (AgentHolds(c, u, id) <==> |RunningOnAgent(t, t[id].sys)| < c.limits.perAgent)
  {
    var u, repo := WithRunning(t, id), c.policies[t[id].policy];
    StartedSets(c, t, id, u);
    if repo.Some? {
      assert WritesTo(c, u[id], repo.value) && WritesTo(c, t[id], repo.value);
      assert |RunningInRepo(c, u, repo.value)| == |RunningInRepo(c, t, repo.value)| + 1;
    }
  }

  // ── The guard ────────────────────────────────────────────────────────────────

  /**
    The guard answers exactly what the data says: allowed if and only if the gates are open and all
    three ceilings would hold with the job running, and otherwise the first obstacle in the order
    operation state, heartbeat, global, repository, agent.
  */
  lemma GuardMeans(c: Config, t: Table, id: JobId, op: OpState, lastSeen: Option<int>, at: int, o: Outcome)
    ensures AtomicGuard(c, t, id, Gate(op, lastSeen, at)) == o <==> OutcomeMeans(c, t, id, op, lastSeen, at, o)
  {
    GateMeans(op, lastSeen, at);
    if Known(c, t, id) && t[id].status == Pending {
      CountsMeanCeilings(c, t, id);
    }
  }

  /** In a table within its limits, the job's own three ceilings holding means that all ceilings hold. */
  lemma AllowedKeepsAllCeilings(c: Config, t: Table, id: JobId)
    requires WithinLimits(c, t) && Known(c, t, id) && t[id].status == Pending
    ensures WithinLimits(c, WithRunning(t, id)) <==>
              && GlobalHolds(c, WithRunning(t, id)) && RepositoryHolds(c, WithRunning(t, id), id)
              && AgentHolds(c, WithRunning(t, id), id)
  {
    var u := WithRunning(t, id);
    if GlobalHolds(c, u) && RepositoryHolds(c, u, id) && AgentHolds(c, u, id) {
      forall repo ensures |RunningInRepo(c, u, repo)| <= c.limits.perRepository {
        if !WritesTo(c, t[id], repo) {
          assert RunningInRepo(c, u, repo) == RunningInRepo(c, t, repo);
        } else {
          assert WritesTo(c, u[id], repo);
        }
      }
      forall sys ensures |RunningOnAgent(u, sys)| <= c.limits.perAgent {
        if sys != t[id].sys {
          assert RunningOnAgent(u, sys) == RunningOnAgent(t, sys);
        }
      }
    }
  }
}
