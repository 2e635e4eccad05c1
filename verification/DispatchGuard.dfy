/**
  `DispatchGuard.AdmitStart` run alone, statement by statement: the same decision as
  `AtomicGuard`, with the counters it reports. What interleaving does to it is in
  `DispatchSafety` and `DispatchTheorems`.
*/
module DispatchGuards {
  import opened Prelude
  import opened Jobs
  import opened OperationState
  import opened Dispatch
  import opened DispatchMeaning
  import opened DispatchSafety

  datatype Decision = Decision(
    outcome: Outcome,
    runningCount: nat,
    globalRunning: nat,
    repoRunning: nat,
    limits: Limits,
    repository: Option<RepoId>,
    health: Health)

  class DispatchGuard {
    const config: Config
    var rows: Table

    /** Misconfigured limits are lifted to one, so the gate can neither be open nor shut for good. */
    constructor (limits: Limits, policies: map<PolicyId, Option<RepoId>>, rows: Table)
      ensures config.policies == policies && this.rows == rows
      ensures config.limits == Normalized(limits)
      ensures config.limits.global >= 1 && config.limits.perRepository >= 1 && config.limits.perAgent >= 1
    {
      config := Config(Normalized(limits), policies);
      this.rows := rows;
    }

    /** Steps 1 to 8: the row, the gates and the three counts; nothing is written. */
    method Decide(id: JobId, opState: OpState, lastSeen: Option<int>, now: Time) returns (d: Decision)
      ensures d.outcome == AtomicGuard(config, rows, id, Gate(opState, lastSeen, now))
      ensures d.outcome.Allowed? || d.outcome in {Blocked(GlobalLimit), Blocked(RepositoryLimit), Blocked(AgentLimit)} ==>
                d.globalRunning == |RunningJobs(rows)| && id in rows
      ensures d.outcome.Allowed? || d.outcome == Blocked(AgentLimit) ==>
                && id in rows && d.runningCount == |RunningOnAgent(rows, rows[id].sys)|
                && (d.repository.Some? ==> d.repoRunning == |RunningInRepo(config, rows, d.repository.value)|)
      ensures d.outcome.Allowed? || d.outcome.Blocked? ==>
                && d.limits == config.limits && d.health == DeriveHealthState(lastSeen, now)
                && id in rows && rows[id].policy in config.policies && d.repository == config.policies[rows[id].policy]
    {
      d := Decision(JobMissing, 0, 0, 0, config.limits, None, DeriveHealthState(lastSeen, now));
      if id !in rows || rows[id].policy !in config.policies {
        return;
      }
      var sys, status, repo := rows[id].sys, rows[id].status, config.policies[rows[id].policy];
      d := d.(repository := repo);
      if status != Pending {
        d := d.(outcome := NotPending);
        return;
      }
      var closed := DispatchBlockReason(opState);
      if closed.Some? {
        d := d.(outcome := Blocked(closed.value));
        return;
      }
      var unwell := HealthDispatchBlockReason(d.health);
      if unwell.Some? {
        d := d.(outcome := Blocked(unwell.value));
        return;
      }
      var globalRunning := |RunningJobs(rows)|;
      d := d.(globalRunning := globalRunning);
      if globalRunning >= config.limits.global {
        d := d.(outcome := Blocked(GlobalLimit));
        return;
      }
      var repoRunning := 0;
      if repo.Some? {
        repoRunning := |RunningInRepo(config, rows, repo.value)|;
        if repoRunning >= config.limits.perRepository {
          d := d.(outcome := Blocked(RepositoryLimit), repoRunning := repoRunning);
          return;
        }
      }
      var agentRunning := |RunningOnAgent(rows, sys)|;
      d := d.(repoRunning := repoRunning, runningCount := agentRunning);
      d := d.(outcome := if agentRunning >= config.limits.perAgent then Blocked(AgentLimit) else Allowed);
    }

    /** The decision, and the start of the job if it is to be allowed. */
    method AdmitStart(id: JobId, opState: OpState, lastSeen: Option<int>, now: Time) returns (d: Decision)
      requires Coherent(rows)
      modifies this
      ensures d.outcome == AtomicGuard(config, old(rows), id, Gate(opState, lastSeen, now))
      ensures OutcomeMeans(config, old(rows), id, opState, lastSeen, now, d.outcome)
      ensures WithinLimits(config, old(rows)) ==> WithinLimits(config, rows)
      ensures rows == if d.outcome.Allowed? then old(rows)[id := old(rows)[id].(status := Running, startedAt := Some(now))]
                      else old(rows)
      ensures Coherent(rows) && Evolves(old(rows), rows)
      ensures d.outcome.Allowed? || d.outcome in {Blocked(GlobalLimit), Blocked(RepositoryLimit), Blocked(AgentLimit)} ==>
                d.globalRunning == |RunningJobs(rows)| && id in rows
      ensures d.outcome.Allowed? || d.outcome == Blocked(AgentLimit) ==>
                && id in rows && d.runningCount == |RunningOnAgent(rows, rows[id].sys)|
                && (d.repository.Some? ==> d.repoRunning == |RunningInRepo(config, rows, d.repository.value)|)
      ensures d.outcome.Allowed? || d.outcome.Blocked? ==>
                && d.limits == config.limits && d.health == DeriveHealthState(lastSeen, now)
                && id in rows && rows[id].policy in config.policies && d.repository == config.policies[rows[id].policy]
    {
      d := Decide(id, opState, lastSeen, now);
      GuardMeans(config, rows, id, opState, lastSeen, now, d.outcome);
      if d.outcome.Allowed? {
        StartCounts(config, rows, id, now);
        ApplyEvolves(rows, id, Start(now));
        StartKeepsCeilings(config, rows, id, now);
        rows := Apply(rows, id, Start(now));
        d := d.(runningCount := d.runningCount + 1, globalRunning := d.globalRunning + 1, repoRunning := d.repoRunning + 1);
      }
    }
  }

  lemma StartKeepsCeilings(c: Config, t: Table, id: JobId, now: Time)
    requires AtomicGuard(c, t, id, None) == Allowed
    ensures WithinLimits(c, t) ==> WithinLimits(c, Apply(t, id, Start(now)))
  {
    if WithinLimits(c, t) {
      AdmitKeepsCeilings(c, t, id, now);
    }
  }
}
