/**
  Two computations of the health score's inputs that are meant to agree: the Prometheus collector
  (internal/metrics/collector.go) and the score endpoint (internal/api/health_score.go).
*/
module ScoreInputs {
  import opened Prelude
  import opened Score
  import J = Jobs

  type Id = nat

  datatype Job = Job(backup: bool, status: J.Status, createdAt: int, finishedAt: Option<int>)
  datatype RestoreTest = RestoreTest(snapshot: Id, success: bool, finishedAt: Option<int>)
  datatype Repo = Repo(writeProtected: bool, encrypted: bool)
  datatype Catalog = Catalog(
    lastSeen: seq<Option<int>>, jobs: seq<Job>, snapshots: seq<Id>, tests: seq<RestoreTest>,
    repos: seq<Repo>, retentionRules: seq<bool>)

  // ── Verified snapshots, counted three ways ───────────────────────────────────

  predicate Tests(t: RestoreTest, id: Id) { t.success && t.snapshot == id }

  predicate Tested(id: Id, tests: seq<RestoreTest>) { exists k :: 0 <= k < |tests| && Tests(tests[k], id) }

  /** Positions of the verified snapshots, and the set of their ids. */
  function VerifiedAt(snapshots: seq<Id>, tests: seq<RestoreTest>): set<nat> {
    set i | 0 <= i < |snapshots| && Tested(snapshots[i], tests)
  }

  function VerifiedIds(snapshots: seq<Id>, tests: seq<RestoreTest>): set<Id> {
    set id | id in snapshots && Tested(id, tests)
  }

  /** The collector's nested scan: the inner loop stops at the first successful test. */
  method CountNested(snapshots: seq<Id>, tests: seq<RestoreTest>) returns (n: nat)
    ensures n == |VerifiedAt(snapshots, tests)|
  {
    n := 0;
    for i := 0 to |snapshots|
      invariant n == |VerifiedAt(snapshots[..i], tests)|
    {
      OneMorePosition(snapshots, tests, i);
      var k := 0;
      while k < |tests|
        invariant 0 <= k <= |tests|
        invariant forall x :: 0 <= x < k ==> !Tests(tests[x], snapshots[i])
      {
        if Tests(tests[k], snapshots[i]) {
          n := n + 1;
          break;
        }
        k := k + 1;
      }
    }
    assert snapshots[..|snapshots|] == snapshots;
  }

  lemma OneMorePosition(snapshots: seq<Id>, tests: seq<RestoreTest>, i: nat)
    requires i < |snapshots|
    ensures |VerifiedAt(snapshots[..i + 1], tests)|
            == |VerifiedAt(snapshots[..i], tests)| + if Tested(snapshots[i], tests) then 1 else 0
  {
    assert VerifiedAt(snapshots[..i + 1], tests)
        == VerifiedAt(snapshots[..i], tests) + if Tested(snapshots[i], tests) then {i} else {};
  }

  /** The endpoint's count: first the tested ids, then a look-up per snapshot. */
  method CountBySet(snapshots: seq<Id>, tests: seq<RestoreTest>) returns (n: nat)
    ensures n == |VerifiedAt(snapshots, tests)|
  {
    var verified: set<Id> := {};
    for k := 0 to |tests|
      invariant forall id :: id in verified <==> Tested(id, tests[..k])
    {
      if tests[k].success {
        verified := verified + {tests[k].snapshot};
      }
      OneMoreTest(tests, k);
    }
    assert tests[..|tests|] == tests;
    n := 0;
    for i := 0 to |snapshots|
      invariant n == |VerifiedAt(snapshots[..i], tests)|
    {
      OneMorePosition(snapshots, tests, i);
      if snapshots[i] in verified {
        n := n + 1;
      }
    }
    assert snapshots[..|snapshots|] == snapshots;
  }

  lemma OneMoreTest(tests: seq<RestoreTest>, k: nat)
    requires k < |tests|
    ensures forall id :: Tested(id, tests[..k + 1]) <==> Tested(id, tests[..k]) || Tests(tests[k], id)
  {
  }

  /** The collector's second count, over the tests: every id once. */
  method CountDedup(snapshots: seq<Id>, tests: seq<RestoreTest>) returns (n: nat)
    ensures n == |VerifiedIds(snapshots, tests)|
  {
    var known := set id | id in snapshots;
    var seen: set<Id> := {};
    n := 0;
    for k := 0 to |tests|
      invariant seen == VerifiedIds(snapshots, tests[..k])
      invariant n == |seen|
    {
      OneMoreTest(tests, k);
      if tests[k].success && tests[k].snapshot in known && tests[k].snapshot !in seen {
        n := n + 1;
        seen := seen + {tests[k].snapshot};
      }
    }
    assert tests[..|tests|] == tests;
  }

  /** No verified snapshot is listed twice. */
  ghost predicate VerifiedOnce(snapshots: seq<Id>, tests: seq<RestoreTest>) {
    forall a, b :: 0 <= a < b < |snapshots| && snapshots[a] == snapshots[b] ==> !Tested(snapshots[a], tests)
  }

  /** The count over the tests never exceeds the others, and equals them exactly without such duplicates. */
  lemma {:induction false} DedupAgreesIff(snapshots: seq<Id>, tests: seq<RestoreTest>)
    ensures |VerifiedIds(snapshots, tests)| <= |VerifiedAt(snapshots, tests)|
    ensures |VerifiedIds(snapshots, tests)| == |VerifiedAt(snapshots, tests)| <==> VerifiedOnce(snapshots, tests)
  {
    if snapshots != [] {
      var last := |snapshots| - 1;
      var front, x := snapshots[..last], snapshots[last];
      DedupAgreesIff(front, tests);
      assert snapshots[..last + 1] == snapshots;
      OneMorePosition(snapshots, tests, last);
      IdsGrow(snapshots, tests);
      OnceGrows(snapshots, tests);
    }
  }

  lemma IdsGrow(snapshots: seq<Id>, tests: seq<RestoreTest>)
    requires snapshots != []
    ensures var front, x := snapshots[..|snapshots| - 1], snapshots[|snapshots| - 1];
            |VerifiedIds(snapshots, tests)|
            == |VerifiedIds(front, tests)| + if Tested(x, tests) && x !in front then 1 else 0
  {
    var front, x := snapshots[..|snapshots| - 1], snapshots[|snapshots| - 1];
    assert snapshots == front + [x];
    assert VerifiedIds(snapshots, tests) == VerifiedIds(front, tests) + if Tested(x, tests) then {x} else {};
  }

  lemma OnceGrows(snapshots: seq<Id>, tests: seq<RestoreTest>)
    requires snapshots != []
    ensures var front, x := snapshots[..|snapshots| - 1], snapshots[|snapshots| - 1];
            VerifiedOnce(snapshots, tests) <==> VerifiedOnce(front, tests) && (Tested(x, tests) ==> x !in front)
  {
  }

  // ── The other inputs ─────────────────────────────────────────────────────────

  datatype AgentStatus = Online | Idle | Offline

  /** Both sides use the same limits: 2 and 15 minutes, in nanoseconds. */
  function AgentStatusOf(lastSeen: Option<int>, now: int): AgentStatus {
    if lastSeen == None then Offline
    else if now - lastSeen.value <= 120_000_000_000 then Online
    else if now - lastSeen.value <= 900_000_000_000 then Idle
    else Offline
  }

  function AgentsWith(s: AgentStatus, lastSeen: seq<Option<int>>, now: int): nat {
    if lastSeen == [] then 0
    else
      AgentsWith(s, lastSeen[..|lastSeen| - 1], now)
      + if AgentStatusOf(lastSeen[|lastSeen| - 1], now) == s then 1 else 0
  }

  function CountIf<T>(p: T -> bool, xs: seq<T>): nat {
    if xs == [] then 0 else CountIf(p, xs[..|xs| - 1]) + if p(xs[|xs| - 1]) then 1 else 0
  }

  /** The latest of the times `at` finds. */
  function Newest<T>(at: T -> Option<int>, xs: seq<T>): Option<int> {
    if xs == [] then None
    else
      var m, t := Newest(at, xs[..|xs| - 1]), at(xs[|xs| - 1]);
      if t.Some? && (m == None || t.value > m.value) then t else m
  }

  lemma {:induction false} NewestIsMaximum<T>(at: T -> Option<int>, xs: seq<T>)
    ensures Newest(at, xs) == None <==> forall x :: x in xs ==> at(x) == None
    ensures Newest(at, xs).Some? ==>
              && (exists x :: x in xs && at(x) == Newest(at, xs))
              && forall x :: x in xs && at(x).Some? ==> at(x).value <= Newest(at, xs).value
  {
    if xs != [] {
      NewestIsMaximum(at, xs[..|xs| - 1]);
      assert xs == xs[..|xs| - 1] + [xs[|xs| - 1]];
    }
  }

  function BackupFinish(j: Job): Option<int> { if j.backup && j.status.Success? then j.finishedAt else None }
  function TestFinish(t: RestoreTest): Option<int> { if t.success then t.finishedAt else None }
  predicate Unprotected(r: Repo) { !r.writeProtected }
  predicate Unencrypted(r: Repo) { !r.encrypted }
  predicate HasRules(p: bool) { p }

  const DAY := 86_400_000_000_000

  datatype JobTally = JobTally(success: nat, failed: nat, recent: nat)

  /** Finished jobs, and failed ones created in the last 24 hours; either of every type or backups alone. */
  function TallyOf(jobs: seq<Job>, now: int, everyType: bool): JobTally {
    if jobs == [] then JobTally(0, 0, 0)
    else
      var t, j := TallyOf(jobs[..|jobs| - 1], now, everyType), jobs[|jobs| - 1];
      if !everyType && !j.backup then t
      else if j.status.Success? then t.(success := t.success + 1)
      else if j.status.Failed? then t.(failed := t.failed + 1, recent := t.recent + if j.createdAt > now - DAY then 1 else 0)
      else t
  }

  function Summary(c: Catalog, now: int, t: JobTally, verified: nat): Input {
    Input(|c.lastSeen|, AgentsWith(Online, c.lastSeen, now), AgentsWith(Idle, c.lastSeen, now),
          AgentsWith(Offline, c.lastSeen, now),
          t.success + t.failed, t.success, t.failed, t.recent, Newest(BackupFinish, c.jobs),
          |c.snapshots|, verified, Newest(TestFinish, c.tests),
          |c.repos|, CountIf(Unprotected, c.repos), CountIf(Unencrypted, c.repos),
          CountIf(HasRules, c.retentionRules), now)
  }

  /** What the collector computes: jobs of every type, and every verified id once. */
  function MetricsInput(c: Catalog, now: int): Input {
    Summary(c, now, TallyOf(c.jobs, now, true), |VerifiedIds(c.snapshots, c.tests)|)
  }

  /** What the endpoint computes: backup jobs alone, and every verified snapshot. */
  function ApiInput(c: Catalog, now: int): Input {
    Summary(c, now, TallyOf(c.jobs, now, false), |VerifiedAt(c.snapshots, c.tests)|)
  }

  // ── The loops ────────────────────────────────────────────────────────────────

  method CountAgents(lastSeen: seq<Option<int>>, now: int) returns (online: nat, idle: nat, offline: nat)
    ensures online == AgentsWith(Online, lastSeen, now)
    ensures idle == AgentsWith(Idle, lastSeen, now)
    ensures offline == AgentsWith(Offline, lastSeen, now)
    ensures online + idle + offline == |lastSeen|
  {
    online, idle, offline := 0, 0, 0;
    for k := 0 to |lastSeen|
      invariant online == AgentsWith(Online, lastSeen[..k], now)
      invariant idle == AgentsWith(Idle, lastSeen[..k], now)
      invariant offline == AgentsWith(Offline, lastSeen[..k], now)
      invariant online + idle + offline == k
    {
      assert lastSeen[..k + 1][..k] == lastSeen[..k];
      match AgentStatusOf(lastSeen[k], now)
      case Online => online := online + 1;
      case Idle => idle := idle + 1;
      case Offline => offline := offline + 1;
    }
    assert lastSeen[..|lastSeen|] == lastSeen;
  }

  /** A status not in the map counts as 0, as in Go. */
  function Get(counts: map<J.Status, nat>, s: J.Status): nat { if s in counts then counts[s] else 0 }

  /** `countByStatus`, for all jobs or for those created after `after`. */
  method CountByStatus(jobs: seq<Job>, after: Option<int>) returns (counts: map<J.Status, nat>)
    ensures forall s :: Get(counts, s) == InStatus(jobs, s, after)
  {
    counts := map[];
    for k := 0 to |jobs|
      invariant forall s :: Get(counts, s) == InStatus(jobs[..k], s, after)
    {
      assert jobs[..k + 1][..k] == jobs[..k];
      if after == None || jobs[k].createdAt > after.value {
        counts := counts[jobs[k].status := Get(counts, jobs[k].status) + 1];
      }
    }
    assert jobs[..|jobs|] == jobs;
  }

  /** How many jobs, created after `after` if that is given, have status `s`. */
  function InStatus(jobs: seq<Job>, s: J.Status, after: Option<int>): nat {
    if jobs == [] then 0
    else
      var j := jobs[|jobs| - 1];
      InStatus(jobs[..|jobs| - 1], s, after) + if j.status == s && (after == None || j.createdAt > after.value) then 1 else 0
  }

  lemma {:induction false} TallyCounts(jobs: seq<Job>, now: int)
    ensures var t := TallyOf(jobs, now, true);
            && t.success == InStatus(jobs, J.Success, None)
            && t.failed == InStatus(jobs, J.Failed, None)
            && t.recent == InStatus(jobs, J.Failed, Some(now - DAY))
  {
    if jobs != [] {
      TallyCounts(jobs[..|jobs| - 1], now);
    }
  }

  method NewestBackup(jobs: seq<Job>) returns (at: Option<int>)
    ensures at == Newest(BackupFinish, jobs)
  {
    at := None;
    for k := 0 to |jobs|
      invariant at == Newest(BackupFinish, jobs[..k])
    {
      assert jobs[..k + 1][..k] == jobs[..k];
      var j := jobs[k];
      if j.status.Success? && j.backup {
        if j.finishedAt.Some? && (at == None || j.finishedAt.value > at.value) {
          at := j.finishedAt;
        }
      }
    }
    assert jobs[..|jobs|] == jobs;
  }

  method NewestTest(tests: seq<RestoreTest>) returns (at: Option<int>)
    ensures at == Newest(TestFinish, tests)
  {
    at := None;
    for k := 0 to |tests|
      invariant at == Newest(TestFinish, tests[..k])
    {
      assert tests[..k + 1][..k] == tests[..k];
      if tests[k].success && tests[k].finishedAt.Some? {
        if at == None || tests[k].finishedAt.value > at.value {
          at := tests[k].finishedAt;
        }
      }
    }
    assert tests[..|tests|] == tests;
  }

  method CountMatching<T>(p: T -> bool, xs: seq<T>) returns (n: nat)
    ensures n == CountIf(p, xs)
  {
    n := 0;
    for k := 0 to |xs|
      invariant n == CountIf(p, xs[..k])
    {
      assert xs[..k + 1][..k] == xs[..k];
      if p(xs[k]) {
        n := n + 1;
      }
    }
    assert xs[..|xs|] == xs;
  }

  // ── What the inputs are ──────────────────────────────────────────────────────

  const MINUTE := 60_000_000_000

  ghost predicate AgentsMean(i: Input, lastSeen: seq<Option<int>>, now: int) {
    && i.totalSystems == |lastSeen|
    && i.onlineAgents == |set k | 0 <= k < |lastSeen| && lastSeen[k].Some? && now - lastSeen[k].value <= 2 * MINUTE|
    && i.idleAgents == |set k | 0 <= k < |lastSeen| && lastSeen[k].Some? && 2 * MINUTE < now - lastSeen[k].value <= 15 * MINUTE|
    && i.offlineAgents == |set k | 0 <= k < |lastSeen| && (lastSeen[k] == None || now - lastSeen[k].value > 15 * MINUTE)|
  }

  /** The newest finish of a successful backup, if there is one. */
  ghost predicate LatestBackup(i: Input, jobs: seq<Job>) {
    && (i.lastSuccessAt == None <==> forall j :: j in jobs && j.backup && j.status == J.Success ==> j.finishedAt == None)
    && (i.lastSuccessAt.Some? ==>
          && (exists j :: j in jobs && j.backup && j.status == J.Success && j.finishedAt == i.lastSuccessAt)
          && forall j :: j in jobs && j.backup && j.status == J.Success && j.finishedAt.Some? ==>
               j.finishedAt.value <= i.lastSuccessAt.value)
  }

  ghost predicate JobsMean(i: Input, jobs: seq<Job>, now: int, everyType: bool) {
    && i.successJobs == |set k | 0 <= k < |jobs| && (everyType || jobs[k].backup) && jobs[k].status == J.Success|
    && i.failedJobs == |set k | 0 <= k < |jobs| && (everyType || jobs[k].backup) && jobs[k].status == J.Failed|
    && i.totalJobs == i.successJobs + i.failedJobs
    && i.failedLast24h == |set k | 0 <= k < |jobs| && (everyType || jobs[k].backup) && jobs[k].status == J.Failed
                                   && now - jobs[k].createdAt < 24 * 60 * MINUTE|
    && LatestBackup(i, jobs)
  }

  ghost predicate TestsMean(i: Input, tests: seq<RestoreTest>) {
    && (i.lastRestoreTestAt == None <==> forall t :: t in tests && t.success ==> t.finishedAt == None)
    && (i.lastRestoreTestAt.Some? ==>
          && (exists t :: t in tests && t.success && t.finishedAt == i.lastRestoreTestAt)
          && forall t :: t in tests && t.success && t.finishedAt.Some? ==> t.finishedAt.value <= i.lastRestoreTestAt.value)
  }

  ghost predicate PostureMeans(i: Input, c: Catalog) {
    && i.totalSnapshots == |c.snapshots| && i.totalRepos == |c.repos|
    && i.unprotectedRepos == |set k | 0 <= k < |c.repos| && !c.repos[k].writeProtected|
    && i.unencryptedRepos == |set k | 0 <= k < |c.repos| && !c.repos[k].encrypted|
    && i.policiesWithRetention == |set k | 0 <= k < |c.retentionRules| && c.retentionRules[k]|
  }

  /** Every field but the number of verified snapshots, read off the catalog. */
  ghost predicate InputMeans(i: Input, c: Catalog, now: int, everyType: bool) {
    && AgentsMean(i, c.lastSeen, now) && JobsMean(i, c.jobs, now, everyType)
    && TestsMean(i, c.tests) && PostureMeans(i, c) && i.now == now
  }

  lemma {:induction false} AgentsAt(s: AgentStatus, lastSeen: seq<Option<int>>, now: int, at: set<int>)
    requires forall k {:trigger k in at} :: k in at <==> 0 <= k < |lastSeen| && AgentStatusOf(lastSeen[k], now) == s
    ensures AgentsWith(s, lastSeen, now) == |at|
  {
    if lastSeen == [] {
      assert at == {};
    } else {
      var last := |lastSeen| - 1;
      AgentsAt(s, lastSeen[..last], now, at - {last});
    }
  }

  lemma {:induction false} JobsAt(jobs: seq<Job>, everyType: bool, s: J.Status, at: set<int>)
    requires forall k {:trigger k in at} :: k in at <==> 0 <= k < |jobs| && (everyType || jobs[k].backup) && jobs[k].status == s
    ensures Number(jobs, everyType, s) == |at|
  {
    if jobs == [] {
      assert at == {};
    } else {
      var last := |jobs| - 1;
      JobsAt(jobs[..last], everyType, s, at - {last});
    }
  }

  lemma {:induction false} RecentAt(jobs: seq<Job>, now: int, everyType: bool, at: set<int>)
    requires forall k {:trigger k in at} :: k in at <==>
               0 <= k < |jobs| && (everyType || jobs[k].backup) && jobs[k].status == J.Failed
               && now - jobs[k].createdAt < 24 * 60 * MINUTE
    ensures TallyOf(jobs, now, everyType).recent == |at|
  {
    if jobs == [] {
      assert at == {};
    } else {
      var last := |jobs| - 1;
      RecentAt(jobs[..last], now, everyType, at - {last});
    }
  }

  lemma {:induction false} CountedAt<T>(p: T -> bool, xs: seq<T>, at: set<int>)
    requires forall k {:trigger k in at} :: k in at <==> 0 <= k < |xs| && p(xs[k])
    ensures CountIf(p, xs) == |at|
  {
    if xs == [] {
      assert at == {};
    } else {
      var last := |xs| - 1;
      CountedAt(p, xs[..last], at - {last});
    }
  }

  lemma AgentsAreMeant(i: Input, lastSeen: seq<Option<int>>, now: int)
    requires i.totalSystems == |lastSeen|
    requires i.onlineAgents == AgentsWith(Online, lastSeen, now) && i.idleAgents == AgentsWith(Idle, lastSeen, now)
    requires i.offlineAgents == AgentsWith(Offline, lastSeen, now)
    ensures AgentsMean(i, lastSeen, now)
  {
    AgentsAt(Online, lastSeen, now,
             set k | 0 <= k < |lastSeen| && lastSeen[k].Some? && now - lastSeen[k].value <= 2 * MINUTE);
    AgentsAt(Idle, lastSeen, now,
             set k | 0 <= k < |lastSeen| && lastSeen[k].Some? && 2 * MINUTE < now - lastSeen[k].value <= 15 * MINUTE);
    AgentsAt(Offline, lastSeen, now,
             set k | 0 <= k < |lastSeen| && (lastSeen[k] == None || now - lastSeen[k].value > 15 * MINUTE));
  }

  lemma JobsAreMeant(i: Input, jobs: seq<Job>, now: int, everyType: bool)
    requires var t := TallyOf(jobs, now, everyType);
             i.successJobs == t.success && i.failedJobs == t.failed && i.failedLast24h == t.recent
             && i.totalJobs == t.success + t.failed
    requires i.lastSuccessAt == Newest(BackupFinish, jobs)
    ensures JobsMean(i, jobs, now, everyType)
  {
    TallyIsNumber(jobs, now, everyType);
    JobsAt(jobs, everyType, J.Success,
           set k | 0 <= k < |jobs| && (everyType || jobs[k].backup) && jobs[k].status == J.Success);
    JobsAt(jobs, everyType, J.Failed,
           set k | 0 <= k < |jobs| && (everyType || jobs[k].backup) && jobs[k].status == J.Failed);
    RecentAt(jobs, now, everyType,
             set k | 0 <= k < |jobs| && (everyType || jobs[k].backup) && jobs[k].status == J.Failed
                     && now - jobs[k].createdAt < 24 * 60 * MINUTE);
    NewestBackupIsLatest(i, jobs);
  }

  lemma NewestBackupIsLatest(i: Input, jobs: seq<Job>)
    requires i.lastSuccessAt == Newest(BackupFinish, jobs)
    ensures LatestBackup(i, jobs)
  {
    NewestIsMaximum(BackupFinish, jobs);
    forall j | j in jobs && j.backup && j.status == J.Success ensures BackupFinish(j) == j.finishedAt {
    }
  }

  lemma PostureIsMeant(i: Input, c: Catalog)
    requires i.totalSnapshots == |c.snapshots| && i.totalRepos == |c.repos|
    requires i.unprotectedRepos == CountIf(Unprotected, c.repos) && i.unencryptedRepos == CountIf(Unencrypted, c.repos)
    requires i.policiesWithRetention == CountIf(HasRules, c.retentionRules)
    ensures PostureMeans(i, c)
  {
    CountedAt(Unprotected, c.repos, set k | 0 <= k < |c.repos| && !c.repos[k].writeProtected);
    CountedAt(Unencrypted, c.repos, set k | 0 <= k < |c.repos| && !c.repos[k].encrypted);
    CountedAt(HasRules, c.retentionRules, set k | 0 <= k < |c.retentionRules| && c.retentionRules[k]);
  }

  lemma SummaryMeans(c: Catalog, now: int, everyType: bool, verified: nat)
    ensures InputMeans(Summary(c, now, TallyOf(c.jobs, now, everyType), verified), c, now, everyType)
  {
    var i := Summary(c, now, TallyOf(c.jobs, now, everyType), verified);
    AgentsAreMeant(i, c.lastSeen, now);
    JobsAreMeant(i, c.jobs, now, everyType);
    NewestIsMaximum(TestFinish, c.tests);
    PostureIsMeant(i, c);
  }

  /** The collector's way to the score's inputs. */
  method Collect(c: Catalog, now: int) returns (i: Input)
    ensures i == MetricsInput(c, now)
    ensures InputMeans(i, c, now, true) && i.verifiedSnapshots == |VerifiedIds(c.snapshots, c.tests)|
  {
    SummaryMeans(c, now, true, |VerifiedIds(c.snapshots, c.tests)|);
    var online, idle, offline := CountAgents(c.lastSeen, now);
    var jobCounts := CountByStatus(c.jobs, None);
    var job24hCounts := CountByStatus(c.jobs, Some(now - DAY));
    TallyCounts(c.jobs, now);
    var lastSuccessAt := NewestBackup(c.jobs);
    var lastRestoreTestAt := NewestTest(c.tests);
    var verified := CountDedup(c.snapshots, c.tests);
    var unprotected := CountMatching(Unprotected, c.repos);
    var unencrypted := CountMatching(Unencrypted, c.repos);
    var retention := CountMatching(HasRules, c.retentionRules);
    i := Input(|c.lastSeen|, online, idle, offline,
               Get(jobCounts, J.Success) + Get(jobCounts, J.Failed), Get(jobCounts, J.Success),
               Get(jobCounts, J.Failed), Get(job24hCounts, J.Failed), lastSuccessAt,
               |c.snapshots|, verified, lastRestoreTestAt,
               |c.repos|, unprotected, unencrypted, retention, now);
  }

  /** The endpoint's one pass over the backup jobs. */
  method TallyBackups(jobs: seq<Job>, now: int) returns (t: JobTally, lastSuccessAt: Option<int>)
    ensures t == TallyOf(jobs, now, false)
    ensures lastSuccessAt == Newest(BackupFinish, jobs)
  {
    var success, failed, recent := 0, 0, 0;
    lastSuccessAt := None;
    for k := 0 to |jobs|
      invariant JobTally(success, failed, recent) == TallyOf(jobs[..k], now, false)
      invariant lastSuccessAt == Newest(BackupFinish, jobs[..k])
    {
      assert jobs[..k + 1][..k] == jobs[..k];
      var j := jobs[k];
      if !j.backup {
        continue;
      }
      if j.status.Success? {
        success := success + 1;
        if j.finishedAt.Some? && (lastSuccessAt == None || j.finishedAt.value > lastSuccessAt.value) {
          lastSuccessAt := j.finishedAt;
        }
      } else if j.status.Failed? {
        failed := failed + 1;
        if j.createdAt > now - DAY {
          recent := recent + 1;
        }
      }
    }
    assert jobs[..|jobs|] == jobs;
    t := JobTally(success, failed, recent);
  }

  /** The endpoint's way to the score's inputs. */
  method ComputeInput(c: Catalog, now: int) returns (i: Input)
    ensures i == ApiInput(c, now)
    ensures InputMeans(i, c, now, false) && i.verifiedSnapshots == |VerifiedAt(c.snapshots, c.tests)|
  {
    SummaryMeans(c, now, false, |VerifiedAt(c.snapshots, c.tests)|);
    var online, idle, offline := CountAgents(c.lastSeen, now);
    var t, lastSuccessAt := TallyBackups(c.jobs, now);
    var lastRestoreTestAt := NewestTest(c.tests);
    var verified := CountBySet(c.snapshots, c.tests);
    var unprotected := CountMatching(Unprotected, c.repos);
    var unencrypted := CountMatching(Unencrypted, c.repos);
    var retention := CountMatching(HasRules, c.retentionRules);
    i := Input(|c.lastSeen|, online, idle, offline,
               t.success + t.failed, t.success, t.failed, t.recent, lastSuccessAt,
               |c.snapshots|, verified, lastRestoreTestAt,
               |c.repos|, unprotected, unencrypted, retention, now);
  }

  // ── When they agree ──────────────────────────────────────────────────────────

  /** Every job that ended in success or failure is a backup. */
  predicate OnlyBackupsFinished(jobs: seq<Job>) {
    forall j :: j in jobs && (j.status.Success? || j.status.Failed?) ==> j.backup
  }

  lemma {:induction false} TalliesAgreeIff(jobs: seq<Job>, now: int)
    ensures var every, backups := TallyOf(jobs, now, true), TallyOf(jobs, now, false);
            && backups.success <= every.success && backups.failed <= every.failed && backups.recent <= every.recent
            && (every == backups <==> OnlyBackupsFinished(jobs))
            && (every.success == backups.success && every.failed == backups.failed <==> every == backups)
  {
    if jobs != [] {
      var front, last := jobs[..|jobs| - 1], jobs[|jobs| - 1];
      TalliesAgreeIff(front, now);
      assert jobs == front + [last];
      assert OnlyBackupsFinished(jobs)
        <==> OnlyBackupsFinished(front) && (last.status.Success? || last.status.Failed? ==> last.backup);
    }
  }

  /**
    The two ways give the same input exactly when only backups have finished and no verified
    snapshot is listed twice; the score is then the same too.
  */
  lemma InputsAgreeIff(c: Catalog, now: int)
    ensures MetricsInput(c, now) == ApiInput(c, now)
            <==> OnlyBackupsFinished(c.jobs) && VerifiedOnce(c.snapshots, c.tests)
  {
    TalliesAgreeIff(c.jobs, now);
    DedupAgreesIff(c.snapshots, c.tests);
  }

  // ── When the scores agree ────────────────────────────────────────────────────

  /** Some counted job that failed was created within the last day. */
  ghost predicate FailedLately(jobs: seq<Job>, now: int, everyType: bool) {
    exists j :: j in jobs && (everyType || j.backup) && j.status.Failed? && j.createdAt > now - DAY
  }

  /** How many of the jobs, or of the backups alone, have status `s`. */
  function Number(jobs: seq<Job>, everyType: bool, s: J.Status): nat {
    if jobs == [] then 0
    else
      var j := jobs[|jobs| - 1];
      Number(jobs[..|jobs| - 1], everyType, s) + if (everyType || j.backup) && j.status == s then 1 else 0
  }

  /** More than one in five of the counted finished jobs failed. */
  predicate FailsOften(jobs: seq<Job>, everyType: bool) {
    5 * Number(jobs, everyType, J.Failed) > Number(jobs, everyType, J.Success) + Number(jobs, everyType, J.Failed)
  }

  ghost predicate AllTested(c: Catalog) {
    forall i :: 0 <= i < |c.snapshots| ==> Tested(c.snapshots[i], c.tests)
  }

  /** Counting every type raises neither alarm about jobs, nor silences one; no fully tested catalog lists a snapshot twice. */
  ghost predicate SameAlarms(c: Catalog, now: int) {
    && (FailedLately(c.jobs, now, true) ==> FailedLately(c.jobs, now, false))
    && (FailsOften(c.jobs, true) <==> FailsOften(c.jobs, false))
    && (AllTested(c) ==> VerifiedOnce(c.snapshots, c.tests))
  }

  lemma {:induction false} TallyIsNumber(jobs: seq<Job>, now: int, everyType: bool)
    ensures TallyOf(jobs, now, everyType).success == Number(jobs, everyType, J.Success)
    ensures TallyOf(jobs, now, everyType).failed == Number(jobs, everyType, J.Failed)
  {
    if jobs != [] {
      TallyIsNumber(jobs[..|jobs| - 1], now, everyType);
    }
  }

  lemma {:induction false} RecentIff(jobs: seq<Job>, now: int, everyType: bool)
    ensures TallyOf(jobs, now, everyType).recent > 0 <==> FailedLately(jobs, now, everyType)
  {
    if jobs != [] {
      RecentIff(jobs[..|jobs| - 1], now, everyType);
      assert jobs == jobs[..|jobs| - 1] + [jobs[|jobs| - 1]];
    }
  }

  lemma {:induction false} AllTestedIff(snapshots: seq<Id>, tests: seq<RestoreTest>)
    ensures |VerifiedAt(snapshots, tests)| <= |snapshots|
    ensures |VerifiedAt(snapshots, tests)| == |snapshots|
            <==> forall i :: 0 <= i < |snapshots| ==> Tested(snapshots[i], tests)
  {
    if snapshots != [] {
      var last := |snapshots| - 1;
      AllTestedIff(snapshots[..last], tests);
      assert snapshots[..last + 1] == snapshots;
      OneMorePosition(snapshots, tests, last);
      assert forall i :: 0 <= i < last ==> snapshots[..last][i] == snapshots[i];
    }
  }

  lemma NoneVerified(snapshots: seq<Id>, tests: seq<RestoreTest>)
    ensures |VerifiedIds(snapshots, tests)| == 0 <==> |VerifiedAt(snapshots, tests)| == 0
  {
    if i :| i in VerifiedAt(snapshots, tests) {
      assert snapshots[i] in VerifiedIds(snapshots, tests);
    }
    if id :| id in VerifiedIds(snapshots, tests) {
      var i :| 0 <= i < |snapshots| && snapshots[i] == id;
      assert i in VerifiedAt(snapshots, tests);
    }
  }

  /** Of all deductions only three can differ between the two, and two of these only one way. */
  lemma OnlyThreeDiffer(c: Catalog, now: int, d: Code)
    ensures d != FailedJobs24h && d != HighFailureRate && d != PartialCoverage ==>
              (Due(MetricsInput(c, now), d) <==> Due(ApiInput(c, now), d))
    ensures Due(ApiInput(c, now), FailedJobs24h) ==> Due(MetricsInput(c, now), FailedJobs24h)
    ensures Due(ApiInput(c, now), PartialCoverage) ==> Due(MetricsInput(c, now), PartialCoverage)
  {
    TalliesAgreeIff(c.jobs, now);
    DedupAgreesIff(c.snapshots, c.tests);
    NoneVerified(c.snapshots, c.tests);
  }

  lemma SameAlarmsAreDue(c: Catalog, now: int)
    ensures SameAlarms(c, now) <==>
              && (Due(MetricsInput(c, now), FailedJobs24h) <==> Due(ApiInput(c, now), FailedJobs24h))
              && (Due(MetricsInput(c, now), HighFailureRate) <==> Due(ApiInput(c, now), HighFailureRate))
              && (Due(MetricsInput(c, now), PartialCoverage) <==> Due(ApiInput(c, now), PartialCoverage))
  {
    RateIsDue(c, now);
    CoverageIsDue(c, now);
    RecentIff(c.jobs, now, true);
    RecentIff(c.jobs, now, false);
    OnlyThreeDiffer(c, now, FailedJobs24h);
  }

  lemma RateIsDue(c: Catalog, now: int)
    ensures Due(MetricsInput(c, now), HighFailureRate) <==> FailsOften(c.jobs, true)
    ensures Due(ApiInput(c, now), HighFailureRate) <==> FailsOften(c.jobs, false)
  {
    TallyIsNumber(c.jobs, now, true);
    TallyIsNumber(c.jobs, now, false);
  }

  lemma CoverageIsDue(c: Catalog, now: int)
    ensures (Due(MetricsInput(c, now), PartialCoverage) <==> Due(ApiInput(c, now), PartialCoverage))
            <==> (AllTested(c) ==> VerifiedOnce(c.snapshots, c.tests))
  {
    AllTestedIff(c.snapshots, c.tests);
    DedupAgreesIff(c.snapshots, c.tests);
    NoneVerified(c.snapshots, c.tests);
  }

  lemma PenaltyDifference(m: Input, a: Input)
    requires forall d :: d != FailedJobs24h && d != HighFailureRate && d != PartialCoverage ==> Cost(m, d) == Cost(a, d)
    ensures Penalty(m) - Penalty(a)
            == Cost(m, FailedJobs24h) - Cost(a, FailedJobs24h) + Cost(m, HighFailureRate) - Cost(a, HighFailureRate)
             + Cost(m, PartialCoverage) - Cost(a, PartialCoverage)
  {
    PenaltySpelledOut(m);
    PenaltySpelledOut(a);
  }

  lemma {:induction false} SameDueSameList(i: Input, j: Input, cs: seq<Code>, k: nat)
    requires k <= |cs| && forall d :: Due(i, d) <==> Due(j, d)
    ensures DueUpTo(i, cs, k) == DueUpTo(j, cs, k)
  {
    if k > 0 {
      SameDueSameList(i, j, cs, k - 1);
    }
  }

  /**
    The exported and the displayed score are the same exactly when counting jobs of other types
    changes neither alarm about jobs and, in a fully tested catalog, no snapshot is listed twice,
    or else when both have lost all 100 points.
  */
  lemma ScoresAgreeIff(c: Catalog, now: int)
    ensures Clamped(MetricsInput(c, now)) == Clamped(ApiInput(c, now))
            <==> SameAlarms(c, now) || (Penalty(MetricsInput(c, now)) >= 100 && Penalty(ApiInput(c, now)) >= 100)
    ensures AllDue(MetricsInput(c, now)) == AllDue(ApiInput(c, now)) <==> SameAlarms(c, now)
  {
    var m, a := MetricsInput(c, now), ApiInput(c, now);
    forall d | d != FailedJobs24h && d != HighFailureRate && d != PartialCoverage ensures Cost(m, d) == Cost(a, d) {
      OnlyThreeDiffer(c, now, d);
    }
    PenaltyDifference(m, a);
    SameAlarmsAreDue(c, now);
    OnlyThreeDiffer(c, now, FailedJobs24h);
    if SameAlarms(c, now) {
      forall d ensures Due(m, d) <==> Due(a, d) {
        OnlyThreeDiffer(c, now, d);
      }
      SameDueSameList(m, a, CODES, |CODES|);
    } else if AllDue(m) == AllDue(a) {
      SameListSameDue(m, a, FailedJobs24h);
      SameListSameDue(m, a, HighFailureRate);
      SameListSameDue(m, a, PartialCoverage);
    }
  }

  lemma SameListSameDue(i: Input, j: Input, d: Code)
    requires AllDue(i) == AllDue(j)
    ensures Due(i, d) <==> Due(j, d)
  {
    DeductionsExplainTheScore(i, Deduction(Weight(d), d));
    DeductionsExplainTheScore(j, Deduction(Weight(d), d));
  }

  /** For a catalog of backups with unique snapshots the exported score is the displayed one. */
  lemma ScoresAgree(c: Catalog, now: int)
    requires forall j :: j in c.jobs ==> j.backup
    requires forall a, b :: 0 <= a < b < |c.snapshots| ==> c.snapshots[a] != c.snapshots[b]
    ensures Clamped(MetricsInput(c, now)) == Clamped(ApiInput(c, now))
    ensures AllDue(MetricsInput(c, now)) == AllDue(ApiInput(c, now))
  {
    InputsAgreeIff(c, now);
  }

  lemma TwoJobs(b: Job, r: Job, now: int)
    requires b.backup && b.status.Success? && !r.backup && r.status.Failed? && r.createdAt > now - DAY
    ensures TallyOf([b, r], now, true) == JobTally(1, 1, 1)
    ensures TallyOf([b, r], now, false) == JobTally(1, 0, 0)
    ensures Newest(BackupFinish, [b, r]) == b.finishedAt
  {
    assert [b, r][..1] == [b] && [b][..0] == [];
    assert TallyOf([b], now, true) == TallyOf([b], now, false) == JobTally(1, 0, 0);
    assert Newest(BackupFinish, [b]) == b.finishedAt;
  }

  /** A perfect estate but for a failed job: one online system, fresh backup, tested, secured and kept. */
  ghost predicate HealthyBut(c: Catalog, b: Job, r: Job, t: RestoreTest, now: int) {
    && c.lastSeen == [Some(now)] && c.jobs == [b, r]
    && b.backup && b.status.Success? && b.finishedAt == Some(now)
    && !r.backup && r.status.Failed? && r.createdAt > now - DAY
    && c.snapshots == [t.snapshot] && c.tests == [t] && t.success && t.finishedAt == Some(now)
    && c.repos == [Repo(true, true)] && c.retentionRules == [true]
  }

  lemma HealthyInputs(c: Catalog, b: Job, r: Job, t: RestoreTest, now: int)
    requires HealthyBut(c, b, r, t, now)
    ensures AgentsWith(Offline, c.lastSeen, now) == 0 && AgentsWith(Idle, c.lastSeen, now) == 0
    ensures Newest(TestFinish, c.tests) == Some(now)
    ensures CountIf(Unprotected, c.repos) == 0 && CountIf(Unencrypted, c.repos) == 0 && CountIf(HasRules, c.retentionRules) == 1
  {
    assert c.lastSeen[..0] == [] && c.tests[..0] == [] && c.repos[..0] == [] && c.retentionRules[..0] == [];
  }

  lemma HealthyCoverage(c: Catalog, b: Job, r: Job, t: RestoreTest, now: int)
    requires HealthyBut(c, b, r, t, now)
    ensures |VerifiedAt(c.snapshots, c.tests)| == 1 && |VerifiedIds(c.snapshots, c.tests)| == 1
  {
    assert Tests(c.tests[0], c.snapshots[0]);
    assert VerifiedAt(c.snapshots, c.tests) == {0};
    assert VerifiedIds(c.snapshots, c.tests) == {t.snapshot};
  }

  lemma OnlyFailuresCost(i: Input)
    requires i.totalSnapshots == i.verifiedSnapshots == 1 && i.lastRestoreTestAt == i.lastSuccessAt == Some(i.now)
    requires i.offlineAgents == i.idleAgents == i.unprotectedRepos == i.unencryptedRepos == 0 && i.policiesWithRetention == 1
    ensures Penalty(i) == Cost(i, FailedJobs24h) + Cost(i, HighFailureRate)
  {
    PenaltySpelledOut(i);
    assert CoverageCost(i) == FreshnessCost(i) == AgentCost(i) == 0;
  }

  /** One recently failed retention job in an otherwise perfect estate: the collector exports 70, the endpoint shows 100. */
  lemma ScoresCanDiffer(c: Catalog, b: Job, r: Job, t: RestoreTest, now: int)
    requires HealthyBut(c, b, r, t, now)
    ensures Clamped(MetricsInput(c, now)) == 70 && Clamped(ApiInput(c, now)) == 100
  {
    TwoJobs(b, r, now);
    HealthyInputs(c, b, r, t, now);
    HealthyCoverage(c, b, r, t, now);
    OnlyFailuresCost(MetricsInput(c, now));
    OnlyFailuresCost(ApiInput(c, now));
  }
}
