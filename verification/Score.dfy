/**
  The health score (internal/health/score.go): deductions from 100, each with a code and points,
  clamped at 0. Times are nanoseconds; the failure rate is compared exactly.
*/
module Score {
  import opened Prelude
  import opened Strings

  const HOUR := 3_600_000_000_000
  const RESTORE_TEST_MAX_AGE := 2_592_000_000_000_000 // 30 days
  const BACKUP_MAX_AGE := 86_400_000_000_000 // 24 hours

  datatype Input = Input(
    totalSystems: nat, onlineAgents: nat, idleAgents: nat, offlineAgents: nat,
    totalJobs: nat, successJobs: nat, failedJobs: nat, failedLast24h: nat, lastSuccessAt: Option<int>,
    totalSnapshots: nat, verifiedSnapshots: nat, lastRestoreTestAt: Option<int>,
    totalRepos: nat, unprotectedRepos: nat, unencryptedRepos: nat,
    policiesWithRetention: nat, now: int)

  datatype Code =
    | NoRestoreTests | PartialCoverage | RestoreTestStale
    | NoSuccessfulBackup | BackupStale | FailedJobs24h | HighFailureRate
    | AgentsOffline | AgentsIdle | ReposNotImmutable | ReposNotEncrypted | NoRetentionPolicy

  datatype Deduction = Deduction(points: nat, code: Code)

  datatype Label = Excellent | Good | Fair | AtRisk

  datatype Result = Result(score: int, grade: Label, deductions: seq<Deduction>)

  // ── What the formula promises ────────────────────────────────────────────────

  function Weight(c: Code): nat {
    match c
    case NoRestoreTests => 30
    case PartialCoverage | BackupStale => 15
    case NoSuccessfulBackup | FailedJobs24h => 20
    case RestoreTestStale | HighFailureRate | AgentsOffline | ReposNotImmutable => 10
    case AgentsIdle | ReposNotEncrypted | NoRetentionPolicy => 5
  }

  /** No such time, or one further back than `age`. */
  predicate OlderThan(at: Option<int>, age: int, now: int) { at == None || now - at.value > age }

  /** When a deduction is due, read off the input alone. */
  predicate Due(i: Input, c: Code) {
    match c
    case NoRestoreTests => i.totalSnapshots > 0 && i.verifiedSnapshots == 0
    case PartialCoverage => 0 < i.verifiedSnapshots < i.totalSnapshots
    case RestoreTestStale =>
      i.totalSnapshots > 0 && i.verifiedSnapshots > 0 && OlderThan(i.lastRestoreTestAt, RESTORE_TEST_MAX_AGE, i.now)
    case NoSuccessfulBackup => i.totalSystems > 0 && i.lastSuccessAt == None
    case BackupStale =>
      i.totalSystems > 0 && i.lastSuccessAt.Some? && OlderThan(i.lastSuccessAt, BACKUP_MAX_AGE, i.now)
    case FailedJobs24h => i.failedLast24h > 0
    case HighFailureRate => 100 * i.failedJobs > 20 * i.totalJobs && i.totalJobs > 0
    case AgentsOffline => i.totalSystems > 0 && i.offlineAgents > 0
    case AgentsIdle => i.totalSystems > 0 && i.offlineAgents == 0 && i.idleAgents > 0
    case ReposNotImmutable => i.totalRepos > 0 && i.unprotectedRepos > 0
    case ReposNotEncrypted => i.totalRepos > 0 && i.unencryptedRepos > 0
    case NoRetentionPolicy => i.totalSystems > 0 && i.policiesWithRetention == 0
  }

  function Cost(i: Input, c: Code): nat { if Due(i, c) then Weight(c) else 0 }

  /** The codes in the order in which the calculation comes to them. */
  const CODES := [
    NoRestoreTests, PartialCoverage, RestoreTestStale, NoSuccessfulBackup, BackupStale, FailedJobs24h,
    HighFailureRate, AgentsOffline, AgentsIdle, ReposNotImmutable, ReposNotEncrypted, NoRetentionPolicy]

  /** What is due among the first `k` codes of `cs`, and what it costs. */
  function DueUpTo(i: Input, cs: seq<Code>, k: nat): seq<Deduction>
    requires k <= |cs|
  {
    if k == 0 then []
    else if Due(i, cs[k - 1]) then DueUpTo(i, cs, k - 1) + [Deduction(Weight(cs[k - 1]), cs[k - 1])]
    else DueUpTo(i, cs, k - 1)
  }

  function CostUpTo(i: Input, cs: seq<Code>, k: nat): nat
    requires k <= |cs|
  {
    if k == 0 then 0 else CostUpTo(i, cs, k - 1) + Cost(i, cs[k - 1])
  }

  function AllDue(i: Input): seq<Deduction> { DueUpTo(i, CODES, |CODES|) }

  function Penalty(i: Input): nat { CostUpTo(i, CODES, |CODES|) }

  function Clamped(i: Input): (s: int)
    ensures 0 <= s <= 100
  {
    if Penalty(i) >= 100 then 0 else 100 - Penalty(i)
  }

  function Classify(score: int): Label {
    if score >= 90 then Excellent else if score >= 75 then Good else if score >= 55 then Fair else AtRisk
  }

  // ── The calculation ──────────────────────────────────────────────────────────

  /** The score and the deductions the closures of `Calculate` write to. */
  class Tally {
    var score: int
    var deductions: seq<Deduction>

    constructor ()
      ensures score == 100 && deductions == []
    {
      score := 100;
      deductions := [];
    }

    /** The first `k` codes have been dealt with. */
    ghost predicate At(i: Input, k: nat)
      requires k <= |CODES|
      reads this
    {
      deductions == DueUpTo(i, CODES, k) && score == 100 - CostUpTo(i, CODES, k)
    }

    method Add(points: nat, code: Code)
      modifies this
      ensures score == old(score) - points
      ensures deductions == old(deductions) + [Deduction(points, code)]
    {
      score := score - points;
      deductions := deductions + [Deduction(points, code)];
    }

    method RestoreCoverage(i: Input)
      requires At(i, 0)
      modifies this
      ensures At(i, 2)
    {
      OneMoreCode(i, 0, NoRestoreTests);
      OneMoreCode(i, 1, PartialCoverage);
      if i.totalSnapshots > 0 {
        if i.verifiedSnapshots == 0 {
          Add(30, NoRestoreTests);
        } else if i.verifiedSnapshots < i.totalSnapshots {
          Add(15, PartialCoverage);
        }
      }
    }

    method RestoreFreshness(i: Input)
      requires At(i, 2)
      modifies this
      ensures At(i, 3)
    {
      OneMoreCode(i, 2, RestoreTestStale);
      if i.totalSnapshots > 0 && i.verifiedSnapshots > 0 {
        if i.lastRestoreTestAt == None || i.now - i.lastRestoreTestAt.value > RESTORE_TEST_MAX_AGE {
          Add(10, RestoreTestStale);
        }
      }
    }

    method BackupFreshness(i: Input)
      requires At(i, 3)
      modifies this
      ensures At(i, 5)
    {
      OneMoreCode(i, 3, NoSuccessfulBackup);
      OneMoreCode(i, 4, BackupStale);
      if i.totalSystems > 0 {
        if i.lastSuccessAt == None {
          Add(20, NoSuccessfulBackup);
        } else if i.now - i.lastSuccessAt.value > BACKUP_MAX_AGE {
          Add(15, BackupStale);
        }
      }
    }

    method Failures(i: Input)
      requires At(i, 5)
      modifies this
      ensures At(i, 7)
    {
      OneMoreCode(i, 5, FailedJobs24h);
      OneMoreCode(i, 6, HighFailureRate);
      if i.failedLast24h > 0 {
        Add(20, FailedJobs24h);
      }
      if i.totalJobs > 0 {
        var rate := i.failedJobs as real / i.totalJobs as real * 100.0;
        RateExceeds(i.failedJobs, i.totalJobs);
        if rate > 20.0 {
          Add(10, HighFailureRate);
        }
      }
    }

    method Connectivity(i: Input)
      requires At(i, 7)
      modifies this
      ensures At(i, 9)
    {
      OneMoreCode(i, 7, AgentsOffline);
      OneMoreCode(i, 8, AgentsIdle);
      if i.totalSystems > 0 {
        if i.offlineAgents > 0 {
          Add(10, AgentsOffline);
        } else if i.idleAgents > 0 {
          Add(5, AgentsIdle);
        }
      }
    }

    method Repositories(i: Input)
      requires At(i, 9)
      modifies this
      ensures At(i, 11)
    {
      OneMoreCode(i, 9, ReposNotImmutable);
      OneMoreCode(i, 10, ReposNotEncrypted);
      if i.totalRepos > 0 {
        if i.unprotectedRepos > 0 {
          Add(10, ReposNotImmutable);
        }
        if i.unencryptedRepos > 0 {
          Add(5, ReposNotEncrypted);
        }
      }
    }

    method Retention(i: Input)
      requires At(i, 11)
      modifies this
      ensures At(i, 12)
    {
      OneMoreCode(i, 11, NoRetentionPolicy);
      if i.totalSystems > 0 && i.policiesWithRetention == 0 {
        Add(5, NoRetentionPolicy);
      }
    }

    /** All of them, in the order of the calculation. */
    method Deduct(i: Input)
      requires score == 100 && deductions == []
      modifies this
      ensures deductions == AllDue(i) && score == 100 - Penalty(i)
    {
      RestoreCoverage(i);
      RestoreFreshness(i);
      BackupFreshness(i);
      Failures(i);
      Connectivity(i);
      Repositories(i);
      Retention(i);
    }
  }

  lemma OneMoreCode(i: Input, k: nat, c: Code)
    requires k < |CODES| && CODES[k] == c
    ensures CostUpTo(i, CODES, k + 1) == CostUpTo(i, CODES, k) + Cost(i, c)
    ensures DueUpTo(i, CODES, k + 1)
            == DueUpTo(i, CODES, k) + if Due(i, c) then [Deduction(Weight(c), c)] else []
  {
  }

  lemma SignOfProduct(a: real, t: real)
    requires t > 0.0
    ensures a > 0.0 <==> a * t > 0.0
  {
  }

  lemma RateExceeds(failed: nat, total: nat)
    requires total > 0
    ensures failed as real / total as real * 100.0 > 20.0 <==> 100 * failed > 20 * total
  {
    var f, t := failed as real, total as real;
    var q := f / t;
    assert q * t == f;
    assert (5.0 * q - 1.0) * t == 5.0 * f - t;
    SignOfProduct(5.0 * q - 1.0, t);
    assert 5.0 * f == (5 * failed) as real;
  }

  method Calculate(i: Input) returns (r: Result)
    ensures r.deductions == AllDue(i)
    ensures r.score == Clamped(i)
    ensures Explains(r.deductions, i)
    ensures r.score == if SumOf(r.deductions) >= 100 then 0 else 100 - SumOf(r.deductions)
    ensures r.grade.Excellent? <==> r.score >= 90
    ensures r.grade.Good? <==> 75 <= r.score < 90
    ensures r.grade.Fair? <==> 55 <= r.score < 75
    ensures r.grade.AtRisk? <==> r.score < 55
  {
    AllDueExplains(i);
    var t := new Tally();
    t.Deduct(i);
    var score := if t.score < 0 then 0 else t.score;
    r := Result(score, Classify(score), t.deductions);
  }

  // ── What it means ────────────────────────────────────────────────────────────

  function SumOf(ds: seq<Deduction>): nat {
    if ds == [] then 0 else SumOf(ds[..|ds| - 1]) + ds[|ds| - 1].points
  }

  ghost predicate Distinct(cs: seq<Code>) {
    forall a, b :: 0 <= a < b < |cs| ==> cs[a] != cs[b]
  }

  lemma {:induction false} DueUpToExact(i: Input, cs: seq<Code>, k: nat)
    requires k <= |cs|
    ensures forall d :: d in DueUpTo(i, cs, k) <==> d.code in cs[..k] && Due(i, d.code) && d.points == Weight(d.code)
  {
    if k > 0 {
      DueUpToExact(i, cs, k - 1);
      assert cs[..k] == cs[..k - 1] + [cs[k - 1]];
    }
  }

  lemma {:induction false} DueUpToOnce(i: Input, cs: seq<Code>, k: nat)
    requires k <= |cs| && Distinct(cs)
    ensures forall a, b :: 0 <= a < b < |DueUpTo(i, cs, k)| ==> DueUpTo(i, cs, k)[a].code != DueUpTo(i, cs, k)[b].code
    ensures SumOf(DueUpTo(i, cs, k)) == CostUpTo(i, cs, k)
  {
    if k > 0 {
      DueUpToOnce(i, cs, k - 1);
      DueUpToExact(i, cs, k - 1);
      var before := DueUpTo(i, cs, k - 1);
      forall a | 0 <= a < |before| ensures before[a].code != cs[k - 1] {
        assert before[a] in before;
      }
      if Due(i, cs[k - 1]) {
        assert DueUpTo(i, cs, k)[..|before|] == before;
      }
    }
  }

  lemma CodesAreAll(c: Code)
    ensures c in CODES && Distinct(CODES)
  {
  }

  /** The listed deductions are exactly the due ones, each once, and add up to the penalty. */
  lemma DeductionsExplainTheScore(i: Input, d: Deduction)
    ensures d in AllDue(i) <==> Due(i, d.code) && d.points == Weight(d.code)
    ensures forall a, b :: 0 <= a < b < |AllDue(i)| ==> AllDue(i)[a].code != AllDue(i)[b].code
    ensures SumOf(AllDue(i)) == Penalty(i)
  {
    CodesAreAll(d.code);
    DueUpToExact(i, CODES, |CODES|);
    DueUpToOnce(i, CODES, |CODES|);
    assert CODES[..|CODES|] == CODES;
  }

  /** The deduction is listed, with these points and no others, if and only if the condition holds. */
  ghost predicate ListedIf(ds: seq<Deduction>, points: nat, code: Code, due: bool) {
    && (due ==> Deduction(points, code) in ds)
    && (forall d :: d in ds && d.code == code ==> due && d.points == points)
  }

  ghost predicate RestoresExplained(ds: seq<Deduction>, i: Input) {
    && ListedIf(ds, 30, NoRestoreTests, i.totalSnapshots > 0 && i.verifiedSnapshots == 0)
    && ListedIf(ds, 15, PartialCoverage, 0 < i.verifiedSnapshots < i.totalSnapshots)
    && ListedIf(ds, 10, RestoreTestStale,
                i.totalSnapshots > 0 && i.verifiedSnapshots > 0
                && (i.lastRestoreTestAt == None || i.now - i.lastRestoreTestAt.value > 30 * 24 * HOUR))
    && ListedIf(ds, 20, NoSuccessfulBackup, i.totalSystems > 0 && i.lastSuccessAt == None)
  }

  ghost predicate FailuresExplained(ds: seq<Deduction>, i: Input) {
    && ListedIf(ds, 15, BackupStale,
                i.totalSystems > 0 && i.lastSuccessAt.Some? && i.now - i.lastSuccessAt.value > 24 * HOUR)
    && ListedIf(ds, 20, FailedJobs24h, i.failedLast24h > 0)
    && ListedIf(ds, 10, HighFailureRate, i.totalJobs > 0 && 5 * i.failedJobs > i.totalJobs)
    && ListedIf(ds, 10, AgentsOffline, i.totalSystems > 0 && i.offlineAgents > 0)
  }

  ghost predicate PostureExplained(ds: seq<Deduction>, i: Input) {
    && ListedIf(ds, 5, AgentsIdle, i.totalSystems > 0 && i.offlineAgents == 0 && i.idleAgents > 0)
    && ListedIf(ds, 10, ReposNotImmutable, i.totalRepos > 0 && i.unprotectedRepos > 0)
    && ListedIf(ds, 5, ReposNotEncrypted, i.totalRepos > 0 && i.unencryptedRepos > 0)
    && ListedIf(ds, 5, NoRetentionPolicy, i.totalSystems > 0 && i.policiesWithRetention == 0)
  }

  /** Every deduction once, and each of the twelve under its own condition on the input. */
  ghost predicate Explains(ds: seq<Deduction>, i: Input) {
    && (forall a, b :: 0 <= a < b < |ds| ==> ds[a].code != ds[b].code)
    && RestoresExplained(ds, i) && FailuresExplained(ds, i) && PostureExplained(ds, i)
  }

  lemma ListedIfDue(i: Input, points: nat, c: Code, due: bool)
    requires points == Weight(c) && (due <==> Due(i, c))
    ensures ListedIf(AllDue(i), points, c, due)
  {
    DeductionsExplainTheScore(i, Deduction(points, c));
    forall d | d in AllDue(i) && d.code == c ensures due && d.points == points {
      DeductionsExplainTheScore(i, d);
    }
  }

  /** So the list, and with it the score, is fixed by the input in every detail. */
  lemma AllDueExplains(i: Input)
    ensures Explains(AllDue(i), i) && SumOf(AllDue(i)) == Penalty(i)
  {
    DeductionsExplainTheScore(i, Deduction(0, NoRestoreTests));
    RestoresAreExplained(i);
    FailuresAreExplained(i);
    PostureIsExplained(i);
  }

  lemma RestoresAreExplained(i: Input)
    ensures RestoresExplained(AllDue(i), i)
  {
    ListedIfDue(i, 30, NoRestoreTests, i.totalSnapshots > 0 && i.verifiedSnapshots == 0);
    ListedIfDue(i, 15, PartialCoverage, 0 < i.verifiedSnapshots < i.totalSnapshots);
    ListedIfDue(i, 10, RestoreTestStale,
                i.totalSnapshots > 0 && i.verifiedSnapshots > 0
                && (i.lastRestoreTestAt == None || i.now - i.lastRestoreTestAt.value > 30 * 24 * HOUR));
    ListedIfDue(i, 20, NoSuccessfulBackup, i.totalSystems > 0 && i.lastSuccessAt == None);
  }

  lemma FailuresAreExplained(i: Input)
    ensures FailuresExplained(AllDue(i), i)
  {
    ListedIfDue(i, 15, BackupStale,
                i.totalSystems > 0 && i.lastSuccessAt.Some? && i.now - i.lastSuccessAt.value > 24 * HOUR);
    ListedIfDue(i, 20, FailedJobs24h, i.failedLast24h > 0);
    ListedIfDue(i, 10, HighFailureRate, i.totalJobs > 0 && 5 * i.failedJobs > i.totalJobs);
    ListedIfDue(i, 10, AgentsOffline, i.totalSystems > 0 && i.offlineAgents > 0);
  }

  lemma PostureIsExplained(i: Input)
    ensures PostureExplained(AllDue(i), i)
  {
    ListedIfDue(i, 5, AgentsIdle, i.totalSystems > 0 && i.offlineAgents == 0 && i.idleAgents > 0);
    ListedIfDue(i, 10, ReposNotImmutable, i.totalRepos > 0 && i.unprotectedRepos > 0);
    ListedIfDue(i, 5, ReposNotEncrypted, i.totalRepos > 0 && i.unencryptedRepos > 0);
    ListedIfDue(i, 5, NoRetentionPolicy, i.totalSystems > 0 && i.policiesWithRetention == 0);
  }

  /** The twelve costs, spelled out. */
  lemma PenaltySpelledOut(i: Input)
    ensures Penalty(i) == CoverageCost(i) + FreshnessCost(i) + Cost(i, FailedJobs24h) + Cost(i, HighFailureRate)
                          + AgentCost(i) + Cost(i, ReposNotImmutable) + Cost(i, ReposNotEncrypted)
                          + Cost(i, NoRetentionPolicy)
  {
    FirstFive(i);
    FiveToNine(i);
    NineToTwelve(i);
  }

  lemma FirstFive(i: Input)
    ensures CostUpTo(i, CODES, 5) == CoverageCost(i) + FreshnessCost(i)
  {
    OneMoreCode(i, 0, NoRestoreTests);
    OneMoreCode(i, 1, PartialCoverage);
    OneMoreCode(i, 2, RestoreTestStale);
    OneMoreCode(i, 3, NoSuccessfulBackup);
    OneMoreCode(i, 4, BackupStale);
  }

  lemma FiveToNine(i: Input)
    ensures CostUpTo(i, CODES, 9)
            == CostUpTo(i, CODES, 5) + Cost(i, FailedJobs24h) + Cost(i, HighFailureRate) + AgentCost(i)
  {
    OneMoreCode(i, 5, FailedJobs24h);
    OneMoreCode(i, 6, HighFailureRate);
    OneMoreCode(i, 7, AgentsOffline);
    OneMoreCode(i, 8, AgentsIdle);
  }

  lemma NineToTwelve(i: Input)
    ensures CostUpTo(i, CODES, 12)
            == CostUpTo(i, CODES, 9) + Cost(i, ReposNotImmutable) + Cost(i, ReposNotEncrypted) + Cost(i, NoRetentionPolicy)
  {
    OneMoreCode(i, 9, ReposNotImmutable);
    OneMoreCode(i, 10, ReposNotEncrypted);
    OneMoreCode(i, 11, NoRetentionPolicy);
  }

  function CoverageCost(i: Input): nat {
    Cost(i, NoRestoreTests) + Cost(i, PartialCoverage) + Cost(i, RestoreTestStale)
  }

  function FreshnessCost(i: Input): nat { Cost(i, NoSuccessfulBackup) + Cost(i, BackupStale) }

  function AgentCost(i: Input): nat { Cost(i, AgentsOffline) + Cost(i, AgentsIdle) }

  /** Never later: `a` is missing, or both are there and `a` is not after `b`. */
  predicate NotLater(a: Option<int>, b: Option<int>) { a == None || (b.Some? && a.value <= b.value) }

  /** `j` describes the same estate as `i`, and in no respect a better state. */
  predicate NoBetter(j: Input, i: Input) {
    && j.totalSystems == i.totalSystems && j.totalJobs == i.totalJobs && j.now == i.now
    && j.totalSnapshots == i.totalSnapshots && j.totalRepos == i.totalRepos
    && j.verifiedSnapshots <= i.verifiedSnapshots && NotLater(j.lastRestoreTestAt, i.lastRestoreTestAt)
    && NotLater(j.lastSuccessAt, i.lastSuccessAt)
    && i.failedJobs <= j.failedJobs && i.failedLast24h <= j.failedLast24h
    && i.offlineAgents <= j.offlineAgents && i.offlineAgents + i.idleAgents <= j.offlineAgents + j.idleAgents
    && i.unprotectedRepos <= j.unprotectedRepos && i.unencryptedRepos <= j.unencryptedRepos
    && j.policiesWithRetention <= i.policiesWithRetention
  }

  /** The score is monotone: no state that is nowhere better scores higher, whatever the deductions overlap. */
  lemma WorseNeverScoresHigher(i: Input, j: Input)
    requires NoBetter(j, i)
    ensures Clamped(j) <= Clamped(i)
  {
    PenaltySpelledOut(i);
    PenaltySpelledOut(j);
    assert CoverageCost(i) <= CoverageCost(j);
    assert FreshnessCost(i) <= FreshnessCost(j);
    assert AgentCost(i) <= AgentCost(j);
  }

  /** 110 is the most the deductions can come to. */
  lemma PenaltyIsAtMost110(i: Input)
    ensures Penalty(i) <= 110
  {
    PenaltySpelledOut(i);
    assert CoverageCost(i) <= 30 && FreshnessCost(i) <= 20 && AgentCost(i) <= 10;
  }

  /** One untested snapshot, one offline agent, one failed job, one unsecured repository. */
  const WORST := Input(1, 0, 0, 1, 1, 0, 1, 1, None, 1, 0, None, 1, 1, 1, 0, 0)

  /** They do come to 110, so without the clamp a score could be negative. */
  lemma ClampIsNeeded()
    ensures Penalty(WORST) == 110 && Clamped(WORST) == 0
  {
    PenaltySpelledOut(WORST);
  }

  // ── Numbers in the reasons ───────────────────────────────────────────────────

  /** Decimal digits without leading zeros; nothing at all for 0 and for negative numbers. */
  function Decimal(n: int): (s: string)
    ensures n > 0 ==> s != "" && s[0] != '0'
    ensures n <= 0 ==> s == ""
    decreases n
  {
    if n <= 0 then "" else Decimal(n / 10) + [('0' as int + n % 10) as char]
  }

  /** `itoa`: the digits are filled in from the right end of a 20-byte buffer, enough for 64 bits. */
  method Itoa(n: int) returns (s: string)
    requires -MAX_INT - 1 <= n <= MAX_INT
    ensures s == if n == 0 then "0" else Decimal(n)
  {
    if n == 0 {
      return "0";
    }
    var buf := new char[20];
    var pos := buf.Length;
    var rest := n;
    PowerTwenty();
    while rest > 0
      invariant 0 <= pos <= buf.Length
      invariant rest > 0 ==> rest < Power(pos)
      invariant Decimal(n) == Decimal(rest) + buf[pos..]
    {
      pos := pos - 1;
      buf[pos] := ('0' as int + rest % 10) as char;
      rest := rest / 10;
    }
    s := buf[pos..];
  }

  function Power(k: nat): nat { if k == 0 then 1 else 10 * Power(k - 1) }

  lemma PowerTwenty()
    ensures Power(20) == 100_000_000_000_000_000_000
  {
    assert Power(4) == 10_000;
    assert Power(8) == 100_000_000;
    assert Power(12) == 1_000_000_000_000;
    assert Power(16) == 10_000_000_000_000_000;
  }

  lemma {:induction false} DecimalReadsBack(n: nat)
    ensures n > 0 ==> Digits(Decimal(n)) == Some(n)
  {
    if n > 0 {
      if n >= 10 {
        DecimalReadsBack(n / 10);
      }
      var front := Decimal(n / 10);
      assert Decimal(n)[..|front|] == front;
    }
  }

  /** What `itoa` prints for a count, `Atoi` reads back; a negative number it prints as nothing. */
  lemma ItoaReadsBack(n: int, s: string)
    requires -MAX_INT - 1 <= n <= MAX_INT
    requires s == if n == 0 then "0" else Decimal(n)
    ensures Atoi(s) == if n >= 0 then Some(n) else None
  {
    if n > 0 {
      DecimalReadsBack(n);
      FirstIsDigit(n);
    } else if n == 0 {
      assert Digits(s[..0]) == Some(0);
      assert Digits(s) == Some(0);
    }
  }

  /** `Atoi` takes a sign, and refuses what does not fit 64 bits. */
  lemma AtoiReadsSigns(n: int)
    requires n > 0
    ensures Atoi(Decimal(n)) == Atoi(['+'] + Decimal(n)) == if n <= MAX_INT then Some(n) else None
    ensures Atoi(['-'] + Decimal(n)) == if n <= MAX_INT + 1 then Some(-n) else None
  {
    DecimalReadsBack(n);
    FirstIsDigit(n);
    assert (['+'] + Decimal(n))[1..] == Decimal(n) && (['-'] + Decimal(n))[1..] == Decimal(n);
  }

  /** And it reads nothing but digits after the sign. */
  lemma {:induction false} OnlyDigitsAreRead(s: string)
    ensures Digits(s).Some? <==> forall k :: 0 <= k < |s| ==> IsDigit(s[k])
  {
    if s != "" {
      OnlyDigitsAreRead(s[..|s| - 1]);
    }
  }

  lemma {:induction false} FirstIsDigit(n: int)
    requires n > 0
    ensures IsDigit(Decimal(n)[0])
  {
    if n >= 10 {
      FirstIsDigit(n / 10);
    }
  }
}
