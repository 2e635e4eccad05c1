/**
  The activity chart (internal/api/health_activity.go): jobs and restore tests counted per hour,
  day or week. Times are seconds since Go's zero time, 1 January of year 1, 00:00 UTC, a Monday.
*/
module Activity {
  import opened Prelude
  import opened Strings

  datatype Mode = Hours | Days | Weeks

  function Width(m: Mode): (w: int)
    ensures w > 0
  {
    match m
    case Hours => 3600
    case Days => 86400
    case Weeks => 604800
  }

  // ── Which buckets ────────────────────────────────────────────────────────────

  predicate InRange(v: Option<int>, max: int) { v.Some? && 0 < v.value <= max }

  /** The first parameter present decides, even when its value is refused: then 24 hours are shown. */
  function SelectMode(days: string, weeks: string, hours: string): (r: (Mode, int))
    ensures 1 <= r.1 <= match r.0 case Hours => 48 case Days => 365 case Weeks => 52
    ensures r.0.Weeks? ==> days == ""
  {
    if days != "" then (if InRange(Atoi(days), 365) then (Days, Atoi(days).value) else (Hours, 24))
    else if weeks != "" then (if InRange(Atoi(weeks), 52) then (Weeks, Atoi(weeks).value) else (Hours, 24))
    else if hours != "" && InRange(Atoi(hours), 48) then (Hours, Atoi(hours).value)
    else (Hours, 24)
  }

  /** What is asked for within the limits is shown, and 24 hours otherwise. */
  lemma ModeIsAsAsked(days: string, weeks: string, hours: string)
    ensures days != "" ==>
              SelectMode(days, weeks, hours) == match Atoi(days) {
                case Some(n) => if 1 <= n <= 365 then (Days, n) else (Hours, 24)
                case None => (Hours, 24)
              }
    ensures days == "" && weeks != "" ==>
              SelectMode(days, weeks, hours) == match Atoi(weeks) {
                case Some(n) => if 1 <= n <= 52 then (Weeks, n) else (Hours, 24)
                case None => (Hours, 24)
              }
    ensures days == "" && weeks == "" ==>
              SelectMode(days, weeks, hours) == match Atoi(hours) {
                case Some(n) => if 1 <= n <= 48 then (Hours, n) else (Hours, 24)
                case None => (Hours, 24)
              }
  {
  }

  /** A parameter that is present hides the later ones. */
  lemma FirstParameterDecides(days: string, weeks: string, hours: string, weeks': string, hours': string)
    ensures days != "" ==> SelectMode(days, weeks, hours) == SelectMode(days, weeks', hours')
    ensures weeks != "" ==> SelectMode(days, weeks, hours) == SelectMode(days, weeks, hours')
  {
  }

  // ── Calendar arithmetic ──────────────────────────────────────────────────────

  function Truncate(t: int, d: int): int
    requires d > 0
  {
    t - t % d
  }

  /** Sunday is 0, as in Go; day 0 was a Monday. */
  function Weekday(t: int): int { (t / 86400 + 1) % 7 }

  function AddDays(t: int, days: int): int { t + days * 86400 }

  function WeekOf(t: int): int {
    var d := Truncate(t, 86400);
    var w := if Weekday(d) == 0 then 7 else Weekday(d);
    AddDays(d, -(w - 1))
  }

  function Key(m: Mode, t: int): int {
    match m
    case Hours => Truncate(t, 3600)
    case Days => Truncate(t, 86400)
    case Weeks => WeekOf(t)
  }

  function Cutoff(m: Mode, n: int, now: int): int {
    match m
    case Hours => Truncate(now, 3600) - (n - 1) * 3600
    case Days => AddDays(Truncate(now, 86400), -(n - 1))
    case Weeks => AddDays(WeekOf(now), -((n - 1) * 7))
  }

  /** A multiple of the mode's width. */
  predicate Aligned(m: Mode, t: int) {
    match m
    case Hours => t % 3600 == 0
    case Days => t % 86400 == 0
    case Weeks => t % 604800 == 0
  }

  function BucketStart(m: Mode, cutoff: int, i: int): int {
    match m
    case Hours => cutoff + i * 3600
    case Days => AddDays(cutoff, i)
    case Weeks => AddDays(cutoff, i * 7)
  }

  /** `WeekOf` lands on the Monday that starts the week. */
  lemma WeekOfIsMonday(t: int)
    ensures WeekOf(t) % 604800 == 0 && WeekOf(t) <= t < WeekOf(t) + 604800
    ensures Weekday(WeekOf(t)) == 1
  {
    var day := t / 86400;
    var d := Truncate(t, 86400);
    DayOf(day);
    assert d == day * 86400;
    var w := if Weekday(d) == 0 then 7 else Weekday(d);
    DaysSinceMonday(day, w);
    var week := day / 7;
    assert WeekOf(t) == d - (w - 1) * 86400;
    MondayOf(day, week);
    assert WeekOf(t) == week * 604800;
  }

  lemma DayOf(day: int)
    ensures day * 86400 / 86400 == day
  {
  }

  lemma DaysSinceMonday(day: int, w: int)
    requires w == if (day + 1) % 7 == 0 then 7 else (day + 1) % 7
    ensures w - 1 == day % 7
  {
  }

  lemma MondayOf(day: int, week: int)
    requires week == day / 7
    ensures day * 86400 - (day % 7) * 86400 == week * 604800
    ensures (week * 604800 / 86400 + 1) % 7 == 1 && week * 604800 % 604800 == 0
  {
    assert week * 604800 == (week * 7) * 86400;
    DayOf(week * 7);
  }

  lemma HourIsFloor(t: int)
    ensures Truncate(t, 3600) % 3600 == 0 && Truncate(t, 3600) <= t < Truncate(t, 3600) + 3600
  {
    assert Truncate(t, 3600) == t / 3600 * 3600;
  }

  lemma DayIsFloor(t: int)
    ensures Truncate(t, 86400) % 86400 == 0 && Truncate(t, 86400) <= t < Truncate(t, 86400) + 86400
  {
    assert Truncate(t, 86400) == t / 86400 * 86400;
  }

  /** In every mode a key is a multiple of the width, at most one width before the time. */
  lemma KeyIsFloor(m: Mode, t: int)
    ensures Aligned(m, Key(m, t)) && Key(m, t) <= t < Key(m, t) + Width(m)
  {
    match m
    case Hours => HourIsFloor(t);
    case Days => DayIsFloor(t);
    case Weeks => WeekOfIsMonday(t);
  }

  lemma HoursStayAligned(t: int, i: int)
    requires t % 3600 == 0
    ensures (t + i * 3600) % 3600 == 0
  {
  }

  lemma DaysStayAligned(t: int, i: int)
    requires t % 86400 == 0
    ensures (t + i * 86400) % 86400 == 0
  {
  }

  lemma WeeksStayAligned(t: int, i: int)
    requires t % 604800 == 0
    ensures (t + i * 7 * 86400) % 604800 == 0
  {
  }

  lemma StartIsAligned(m: Mode, cutoff: int, i: int)
    requires Aligned(m, cutoff)
    ensures Aligned(m, BucketStart(m, cutoff, i))
  {
    match m
    case Hours => HoursStayAligned(cutoff, i);
    case Days => DaysStayAligned(cutoff, i);
    case Weeks => WeeksStayAligned(cutoff, i);
  }

  lemma CutoffIsAligned(m: Mode, n: int, now: int)
    ensures Aligned(m, Cutoff(m, n, now))
  {
    KeyIsFloor(m, now);
    StartIsAligned(m, Key(m, now), -(n - 1));
    CutoffIsABucketStart(m, n, now);
  }

  lemma CutoffIsABucketStart(m: Mode, n: int, now: int)
    ensures Cutoff(m, n, now) == BucketStart(m, Key(m, now), -(n - 1))
  {
  }

  /** Different multiples of a width are at least one width apart. */
  lemma MultiplesApart(m: Mode, a: int, b: int)
    requires Aligned(m, a) && Aligned(m, b) && a < b
    ensures a + Width(m) <= b
  {
    match m
    case Hours => assert a / 3600 < b / 3600;
    case Days => assert a / 86400 < b / 86400;
    case Weeks => assert a / 604800 < b / 604800;
  }

  /** A time has the key of a bucket exactly when it lies in that bucket. */
  lemma KeyMeansInterval(m: Mode, start: int, t: int)
    requires Aligned(m, start)
    ensures Key(m, t) == start <==> start <= t < start + Width(m)
  {
    KeyIsFloor(m, t);
    var k := Key(m, t);
    if k < start {
      MultiplesApart(m, k, start);
    } else if start < k {
      MultiplesApart(m, start, k);
    }
  }

  // ── Counting ─────────────────────────────────────────────────────────────────

  datatype Job = Job(createdAt: int, retention: bool, failed: bool, bytesUploaded: Option<int>)

  datatype Counts = Counts(backups: int, restoreTests: int, failures: int, bytes: int)

  const ZERO := Counts(0, 0, 0, 0)

  predicate IsSum(c: Counts, a: Counts, b: Counts) {
    && c.backups == a.backups + b.backups
    && c.restoreTests == a.restoreTests + b.restoreTests
    && c.failures == a.failures + b.failures
    && c.bytes == a.bytes + b.bytes
  }

  /** A job is either a failure or a backup with the bytes it uploaded. */
  function Bump(c: Counts, j: Job): Counts {
    if j.failed then c.(failures := c.failures + 1)
    else c.(backups := c.backups + 1, bytes := c.bytes + if j.bytesUploaded.Some? then j.bytesUploaded.value else 0)
  }

  function WithTests(c: Counts, tests: nat): Counts {
    c.(restoreTests := c.restoreTests + tests)
  }

  /** Direct totals of the jobs, and of the restore tests, created in [from, to). */
  function JobsIn(jobs: seq<Job>, from: int, to: int): Counts {
    if jobs == [] then ZERO
    else
      var before, j := JobsIn(jobs[..|jobs| - 1], from, to), jobs[|jobs| - 1];
      if from <= j.createdAt < to && !j.retention then Bump(before, j) else before
  }

  function TestsIn(tests: seq<int>, from: int, to: int): nat {
    if tests == [] then 0
    else TestsIn(tests[..|tests| - 1], from, to) + if from <= tests[|tests| - 1] < to then 1 else 0
  }

  function Total(jobs: seq<Job>, tests: seq<int>, from: int, to: int): Counts {
    WithTests(JobsIn(jobs, from, to), TestsIn(tests, from, to))
  }

  /** What the loops count for one key of the map. */
  function KeyedJobs(m: Mode, jobs: seq<Job>, key: int): Counts {
    if jobs == [] then ZERO
    else
      var before, j := KeyedJobs(m, jobs[..|jobs| - 1], key), jobs[|jobs| - 1];
      if Key(m, j.createdAt) == key && !j.retention then Bump(before, j) else before
  }

  function KeyedTests(m: Mode, tests: seq<int>, key: int): nat {
    if tests == [] then 0
    else KeyedTests(m, tests[..|tests| - 1], key) + if Key(m, tests[|tests| - 1]) == key then 1 else 0
  }

  // ── What the totals are ──────────────────────────────────────────────────────

  /** The job, which is no retention job, was created in [from, to), and failed or not. */
  predicate Takes(j: Job, from: int, to: int, failed: bool) {
    from <= j.createdAt < to && !j.retention && j.failed == failed
  }

  /** The positions of such jobs. */
  function JobsAt(jobs: seq<Job>, from: int, to: int, failed: bool): set<nat> {
    set i | 0 <= i < |jobs| && Takes(jobs[i], from, to, failed)
  }

  function TestsAt(tests: seq<int>, from: int, to: int): set<nat> {
    set i | 0 <= i < |tests| && from <= tests[i] < to
  }

  /** The bytes of the jobs at the positions `at`. */
  function Uploaded(jobs: seq<Job>, at: set<nat>, n: nat): int
    requires n <= |jobs|
  {
    if n == 0 then 0
    else
      Uploaded(jobs, at, n - 1)
      + if n - 1 in at && jobs[n - 1].bytesUploaded.Some? then jobs[n - 1].bytesUploaded.value else 0
  }

  /** The number of failed jobs, of the others and of restore tests, and the bytes of the jobs that did not fail. */
  ghost predicate Counted(c: Counts, jobs: seq<Job>, tests: seq<int>, from: int, to: int) {
    && c.failures == |JobsAt(jobs, from, to, true)|
    && c.backups == |JobsAt(jobs, from, to, false)|
    && c.bytes == Uploaded(jobs, JobsAt(jobs, from, to, false), |jobs|)
    && c.restoreTests == |TestsAt(tests, from, to)|
  }

  lemma {:induction false} SameUploads(front: seq<Job>, jobs: seq<Job>, a: set<nat>, b: set<nat>, n: nat)
    requires n <= |front| <= |jobs| && front == jobs[..|front|]
    requires forall i :: 0 <= i < n ==> (i in a <==> i in b)
    ensures Uploaded(front, a, n) == Uploaded(jobs, b, n)
  {
    if n > 0 {
      SameUploads(front, jobs, a, b, n - 1);
    }
  }

  lemma JobsAtGrow(front: seq<Job>, j: Job, from: int, to: int, failed: bool)
    ensures JobsAt(front + [j], from, to, failed)
            == JobsAt(front, from, to, failed) + if Takes(j, from, to, failed) then {|front|} else {}
  {
  }

  /** One more job adds itself and its bytes where it belongs. */
  lemma OneMoreJob(front: seq<Job>, j: Job, from: int, to: int, failed: bool)
    ensures var all, before := JobsAt(front + [j], from, to, failed), JobsAt(front, from, to, failed);
            && |all| == |before| + (if Takes(j, from, to, failed) then 1 else 0)
            && Uploaded(front + [j], all, |front| + 1)
               == Uploaded(front, before, |front|)
                  + if Takes(j, from, to, failed) && j.bytesUploaded.Some? then j.bytesUploaded.value else 0
  {
    JobsAtGrow(front, j, from, to, failed);
    SameUploads(front, front + [j], JobsAt(front, from, to, failed), JobsAt(front + [j], from, to, failed), |front|);
  }

  lemma {:induction false} JobsInAreCounted(jobs: seq<Job>, from: int, to: int)
    ensures var c := JobsIn(jobs, from, to);
            && c.failures == |JobsAt(jobs, from, to, true)| && c.backups == |JobsAt(jobs, from, to, false)|
            && c.bytes == Uploaded(jobs, JobsAt(jobs, from, to, false), |jobs|) && c.restoreTests == 0
  {
    if jobs != [] {
      var front, j := jobs[..|jobs| - 1], jobs[|jobs| - 1];
      JobsInAreCounted(front, from, to);
      assert jobs == front + [j];
      OneMoreJob(front, j, from, to, true);
      OneMoreJob(front, j, from, to, false);
    }
  }

  lemma {:induction false} TestsInAreCounted(tests: seq<int>, from: int, to: int)
    ensures TestsIn(tests, from, to) == |TestsAt(tests, from, to)|
  {
    if tests != [] {
      var last := |tests| - 1;
      TestsInAreCounted(tests[..last], from, to);
      assert TestsAt(tests, from, to)
          == TestsAt(tests[..last], from, to) + if from <= tests[last] < to then {last} else {};
    }
  }

  /** Every total counts each job and each test of its interval once, under its own heading. */
  lemma TotalIsCounted(jobs: seq<Job>, tests: seq<int>, from: int, to: int)
    ensures Counted(Total(jobs, tests, from, to), jobs, tests, from, to)
  {
    JobsInAreCounted(jobs, from, to);
    TestsInAreCounted(tests, from, to);
  }

  // ── The loops ────────────────────────────────────────────────────────────────

  lemma {:induction false} KeyedJobsAreThoseInside(m: Mode, jobs: seq<Job>, start: int)
    requires Aligned(m, start)
    ensures KeyedJobs(m, jobs, start) == JobsIn(jobs, start, start + Width(m))
  {
    if jobs != [] {
      KeyedJobsAreThoseInside(m, jobs[..|jobs| - 1], start);
      KeyMeansInterval(m, start, jobs[|jobs| - 1].createdAt);
    }
  }

  lemma {:induction false} KeyedTestsAreThoseInside(m: Mode, tests: seq<int>, start: int)
    requires Aligned(m, start)
    ensures KeyedTests(m, tests, start) == TestsIn(tests, start, start + Width(m))
  {
    if tests != [] {
      KeyedTestsAreThoseInside(m, tests[..|tests| - 1], start);
      KeyMeansInterval(m, start, tests[|tests| - 1]);
    }
  }

  /** One round of the loop over jobs; a job without a bucket, or of type retention, is dropped. */
  method CountJob(m: Mode, buckets: map<int, Counts>, j: Job) returns (after: map<int, Counts>)
    ensures after.Keys == buckets.Keys
    ensures forall k :: k in buckets ==>
              after[k] == if Key(m, j.createdAt) == k && !j.retention then Bump(buckets[k], j) else buckets[k]
  {
    after := buckets;
    var key := Key(m, j.createdAt);
    if key !in buckets || j.retention {
      return;
    }
    var b := buckets[key];
    if j.failed {
      after := buckets[key := b.(failures := b.failures + 1)];
    } else {
      var uploaded := if j.bytesUploaded.Some? then j.bytesUploaded.value else 0;
      after := buckets[key := b.(backups := b.backups + 1, bytes := b.bytes + uploaded)];
    }
  }

  method CountJobs(m: Mode, empty: map<int, Counts>, jobs: seq<Job>) returns (buckets: map<int, Counts>)
    requires forall k :: k in empty ==> empty[k] == ZERO
    ensures buckets.Keys == empty.Keys
    ensures forall k :: k in buckets ==> buckets[k] == KeyedJobs(m, jobs, k)
  {
    buckets := empty;
    for x := 0 to |jobs|
      invariant buckets.Keys == empty.Keys
      invariant forall k :: k in buckets ==> buckets[k] == KeyedJobs(m, jobs[..x], k)
    {
      assert jobs[..x + 1][..x] == jobs[..x];
      buckets := CountJob(m, buckets, jobs[x]);
    }
    assert jobs[..|jobs|] == jobs;
  }

  /** The loop over restore tests; a test without a bucket is dropped. */
  method CountTests(m: Mode, before: map<int, Counts>, tests: seq<int>) returns (buckets: map<int, Counts>)
    ensures buckets.Keys == before.Keys
    ensures forall k :: k in buckets ==> buckets[k] == WithTests(before[k], KeyedTests(m, tests, k))
  {
    buckets := before;
    for x := 0 to |tests|
      invariant buckets.Keys == before.Keys
      invariant forall k :: k in buckets ==> buckets[k] == WithTests(before[k], KeyedTests(m, tests[..x], k))
    {
      assert tests[..x + 1][..x] == tests[..x];
      var key := Key(m, tests[x]);
      if key in buckets {
        var b := buckets[key];
        buckets := buckets[key := b.(restoreTests := b.restoreTests + 1)];
      }
    }
    assert tests[..|tests|] == tests;
  }

  lemma KeyedIsTotal(m: Mode, jobs: seq<Job>, tests: seq<int>, start: int)
    requires Aligned(m, start)
    ensures WithTests(KeyedJobs(m, jobs, start), KeyedTests(m, tests, start))
            == Total(jobs, tests, start, start + Width(m))
  {
    KeyedJobsAreThoseInside(m, jobs, start);
    KeyedTestsAreThoseInside(m, tests, start);
  }

  /** Where the buckets start, and, as last element, where the last one ends. */
  function Boundaries(m: Mode, n: int, now: int): seq<int>
    requires n >= 1
  {
    seq(n + 1, i requires 0 <= i => BucketStart(m, Cutoff(m, n, now), i))
  }

  lemma StartsAscend(m: Mode, cutoff: int, i: nat)
    ensures cutoff == BucketStart(m, cutoff, 0) <= BucketStart(m, cutoff, i)
    ensures BucketStart(m, cutoff, i + 1) == BucketStart(m, cutoff, i) + Width(m)
  {
  }

  lemma LastBucketEndsTheWindow(m: Mode, n: int, now: int)
    ensures BucketStart(m, Cutoff(m, n, now), n) == Key(m, now) + Width(m)
  {
  }

  /** The buckets tile the time from the cutoff to the end of the bucket `now` lies in. */
  lemma BoundariesTile(m: Mode, n: int, now: int, i: int)
    requires 0 <= i < n
    ensures var b := Boundaries(m, n, now);
            && b[0] == Cutoff(m, n, now) <= b[i]
            && b[n] == Key(m, now) + Width(m)
            && b[i + 1] == b[i] + Width(m)
            && Aligned(m, b[i])
  {
    CutoffIsAligned(m, n, now);
    StartIsAligned(m, Cutoff(m, n, now), i);
    StartsAscend(m, Cutoff(m, n, now), i);
    LastBucketEndsTheWindow(m, n, now);
  }

  /** Bucket `i` holds exactly what was created in its own interval. */
  ghost predicate Holds(cs: seq<Counts>, jobs: seq<Job>, tests: seq<int>, bounds: seq<int>)
    requires |cs| < |bounds|
  {
    forall i {:trigger cs[i]} :: 0 <= i < |cs| ==> cs[i] == Total(jobs, tests, bounds[i], bounds[i + 1])
  }

  method ReadBucket(m: Mode, n: int, now: int, jobs: seq<Job>, tests: seq<int>,
                    buckets: map<int, Counts>, i: int) returns (c: Counts)
    requires 0 <= i < n && Boundaries(m, n, now)[i] in buckets
    requires forall k :: k in buckets ==>
               buckets[k] == WithTests(KeyedJobs(m, jobs, k), KeyedTests(m, tests, k))
    ensures c == Total(jobs, tests, Boundaries(m, n, now)[i], Boundaries(m, n, now)[i + 1])
  {
    c := buckets[Boundaries(m, n, now)[i]];
    BoundariesTile(m, n, now, i);
    KeyedIsTotal(m, jobs, tests, Boundaries(m, n, now)[i]);
  }

  /** The buckets in order of time. */
  method ReadBuckets(m: Mode, n: int, now: int, jobs: seq<Job>, tests: seq<int>, buckets: map<int, Counts>)
    returns (result: seq<Counts>)
    requires n >= 1
    requires forall i :: 0 <= i < n ==> Boundaries(m, n, now)[i] in buckets
    requires forall k :: k in buckets ==>
               buckets[k] == WithTests(KeyedJobs(m, jobs, k), KeyedTests(m, tests, k))
    ensures |result| == n
    ensures Holds(result, jobs, tests, Boundaries(m, n, now))
  {
    result := [];
    for i := 0 to n
      invariant |result| == i
      invariant Holds(result, jobs, tests, Boundaries(m, n, now))
    {
      var c := ReadBucket(m, n, now, jobs, tests, buckets, i);
      result := result + [c];
    }
  }

  /** The chart: every bucket holds exactly what was created in its own interval. */
  method HealthActivity(m: Mode, n: int, now: int, jobs: seq<Job>, tests: seq<int>) returns (result: seq<Counts>)
    requires n >= 1
    ensures |result| == n
    ensures Holds(result, jobs, tests, Boundaries(m, n, now))
    ensures var b := Boundaries(m, n, now);
            forall i :: 0 <= i < n ==> Counted(result[i], jobs, tests, b[i], b[i + 1])
  {
    var bounds := Boundaries(m, n, now);
    var buckets := map i | 0 <= i < n :: bounds[i] := ZERO;
    buckets := CountJobs(m, buckets, jobs);
    buckets := CountTests(m, buckets, tests);
    result := ReadBuckets(m, n, now, jobs, tests, buckets);
    forall i | 0 <= i < n ensures Counted(result[i], jobs, tests, bounds[i], bounds[i + 1]) {
      TotalIsCounted(jobs, tests, bounds[i], bounds[i + 1]);
    }
  }

  // ── Conservation ─────────────────────────────────────────────────────────────

  function Sum(cs: seq<Counts>): Counts {
    if cs == [] then ZERO
    else
      var s, c := Sum(cs[..|cs| - 1]), cs[|cs| - 1];
      Counts(s.backups + c.backups, s.restoreTests + c.restoreTests, s.failures + c.failures, s.bytes + c.bytes)
  }

  lemma SumStep(cs: seq<Counts>, n: nat)
    requires 0 < n <= |cs|
    ensures IsSum(Sum(cs[..n]), Sum(cs[..n - 1]), cs[n - 1])
  {
    assert cs[..n][..n - 1] == cs[..n - 1];
  }

  lemma SumIsUnique(c: Counts, d: Counts, a: Counts, b: Counts)
    requires IsSum(c, a, b) && IsSum(d, a, b)
    ensures c == d
  {
  }

  /** Adjacent intervals share nothing and miss nothing. */
  lemma {:induction false} JobsSplit(jobs: seq<Job>, a: int, b: int, c: int)
    requires a <= b <= c
    ensures IsSum(JobsIn(jobs, a, c), JobsIn(jobs, a, b), JobsIn(jobs, b, c))
  {
    if jobs != [] {
      JobsSplit(jobs[..|jobs| - 1], a, b, c);
    }
  }

  lemma {:induction false} TestsSplit(tests: seq<int>, a: int, b: int, c: int)
    requires a <= b <= c
    ensures TestsIn(tests, a, c) == TestsIn(tests, a, b) + TestsIn(tests, b, c)
  {
    if tests != [] {
      TestsSplit(tests[..|tests| - 1], a, b, c);
    }
  }

  lemma TotalSplits(jobs: seq<Job>, tests: seq<int>, a: int, b: int, c: int)
    requires a <= b <= c
    ensures IsSum(Total(jobs, tests, a, c), Total(jobs, tests, a, b), Total(jobs, tests, b, c))
  {
    JobsSplit(jobs, a, b, c);
    TestsSplit(tests, a, b, c);
  }

  lemma {:induction false} EmptyInterval(jobs: seq<Job>, tests: seq<int>, a: int)
    ensures JobsIn(jobs, a, a) == ZERO && TestsIn(tests, a, a) == 0
  {
    if jobs != [] {
      EmptyInterval(jobs[..|jobs| - 1], tests, a);
    } else if tests != [] {
      EmptyInterval(jobs, tests[..|tests| - 1], a);
    }
  }

  ghost predicate Ascends(bounds: seq<int>) {
    forall i, j :: 0 <= i <= j < |bounds| ==> bounds[i] <= bounds[j]
  }

  lemma BoundariesAscend(m: Mode, n: int, now: int)
    requires n >= 1
    ensures Ascends(Boundaries(m, n, now))
  {
    var cutoff := Cutoff(m, n, now);
    forall i, j | 0 <= i <= j <= n ensures BucketStart(m, cutoff, i) <= BucketStart(m, cutoff, j) {
    }
  }

  lemma HoldsAt(cs: seq<Counts>, jobs: seq<Job>, tests: seq<int>, bounds: seq<int>, i: nat)
    requires i < |cs| < |bounds| && Ascends(bounds) && Holds(cs, jobs, tests, bounds)
    ensures cs[i] == Total(jobs, tests, bounds[i], bounds[i + 1]) && bounds[0] <= bounds[i] <= bounds[i + 1]
  {
  }

  /** The inductive step: the totals so far and those of the next interval. */
  lemma OneMoreInterval(jobs: seq<Job>, tests: seq<int>, a: int, b: int, c: int, sum: Counts, next: Counts, all: Counts)
    requires a <= b <= c && IsSum(all, sum, next)
    requires sum == Total(jobs, tests, a, b) && next == Total(jobs, tests, b, c)
    ensures all == Total(jobs, tests, a, c)
  {
    TotalSplits(jobs, tests, a, b, c);
    SumIsUnique(all, Total(jobs, tests, a, c), sum, next);
  }

  /** Consecutive intervals together hold what lies between the first and the last boundary. */
  lemma {:induction false} IntervalsAddUp(jobs: seq<Job>, tests: seq<int>, cs: seq<Counts>, bounds: seq<int>, n: nat)
    requires n <= |cs| < |bounds| && Ascends(bounds) && Holds(cs, jobs, tests, bounds)
    ensures Sum(cs[..n]) == Total(jobs, tests, bounds[0], bounds[n])
  {
    if n == 0 {
      EmptyInterval(jobs, tests, bounds[0]);
    } else {
      IntervalsAddUp(jobs, tests, cs, bounds, n - 1);
      SumStep(cs, n);
      HoldsAt(cs, jobs, tests, bounds, n - 1);
      OneMoreInterval(jobs, tests, bounds[0], bounds[n - 1], bounds[n], Sum(cs[..n - 1]), cs[n - 1], Sum(cs[..n]));
    }
  }

  /**
    The buckets together hold what the window holds: every job that is not a retention job, as
    failure or as backup with its bytes, and every restore test, is counted in one bucket and in
    no other.
  */
  lemma NothingLostOrDoubled(m: Mode, n: int, now: int, jobs: seq<Job>, tests: seq<int>, result: seq<Counts>)
    requires |result| == n >= 1
    requires Holds(result, jobs, tests, Boundaries(m, n, now))
    ensures Counted(Sum(result), jobs, tests, Cutoff(m, n, now), Key(m, now) + Width(m))
  {
    var from, to := Cutoff(m, n, now), Key(m, now) + Width(m);
    var bounds := Boundaries(m, n, now);
    BoundariesTile(m, n, now, 0);
    BoundariesAscend(m, n, now);
    IntervalsAddUp(jobs, tests, result, bounds, n);
    assert result[..n] == result;
    TotalIsCounted(jobs, tests, from, to);
  }
}
