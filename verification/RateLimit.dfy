/**
  The per-IP token bucket (internal/security/ratelimit.go), with reals for float64 and seconds
  for time. `Bucket` and `IPRateLimiter` are the objects; the theorems are about the functions
  that specify them.
*/
module RateLimit {
  import opened Prelude

  datatype Rate = Rate(perSecond: real, burst: real, ttl: real)

  ghost predicate Sensible(r: Rate) { r.perSecond >= 0.0 && r.burst >= 0.0 && r.ttl >= 0.0 }

  /** The two fields of a bucket. */
  datatype Fill = Fill(tokens: real, lastSeen: real)

  function Min(a: real, b: real): real { if a <= b then a else b }

  function Refilled(r: Rate, l: Fill, now: real): real {
    Min(r.burst, l.tokens + (now - l.lastSeen) * r.perSecond)
  }

  predicate Permits(r: Rate, l: Fill, now: real) { Refilled(r, l, now) >= 1.0 }

  function AfterRequest(r: Rate, l: Fill, now: real): Fill {
    Fill(if Permits(r, l, now) then Refilled(r, l, now) - 1.0 else Refilled(r, l, now), now)
  }

  // ── The objects ──────────────────────────────────────────────────────────────

  class Bucket {
    var tokens: real
    var lastSeen: real

    constructor (tokens: real, lastSeen: real)
      ensures this.tokens == tokens && this.lastSeen == lastSeen
    {
      this.tokens, this.lastSeen := tokens, lastSeen;
    }

    function View(): Fill
      reads this
    {
      Fill(tokens, lastSeen)
    }

    method Allow(r: Rate, now: real) returns (ok: bool)
      modifies this
      ensures ok <==> Permits(r, old(View()), now)
      ensures View() == AfterRequest(r, old(View()), now)
    {
      var elapsed := now - lastSeen;
      tokens := tokens + elapsed * r.perSecond;
      if tokens > r.burst {
        tokens := r.burst;
      }
      lastSeen := now;
      if tokens < 1.0 {
        return false;
      }
      tokens := tokens - 1.0;
      return true;
    }
  }

  type Fills = map<string, Fill>

  /** The fill a request from `ip` meets: an unknown address starts full at its first request. */
  function Before(r: Rate, m: Fills, ip: string, now: real): Fill {
    if ip in m then m[ip] else Fill(r.burst, now)
  }

  predicate Stale(r: Rate, l: Fill, now: real) { now - l.lastSeen > r.ttl }

  function Evicted(r: Rate, m: Fills, now: real): Fills {
    map ip | ip in m && !Stale(r, m[ip], now) :: m[ip]
  }

  class IPRateLimiter {
    const rate: Rate
    var buckets: map<string, Bucket>

    ghost predicate Valid()
      reads this
    {
      forall a, b :: a in buckets && b in buckets && a != b ==> buckets[a] != buckets[b]
    }

    ghost function Contents(): Fills
      reads this, buckets.Values
    {
      map ip | ip in buckets :: buckets[ip].View()
    }

    constructor (rate: Rate)
      ensures Valid() && Contents() == map[] && this.rate == rate && buckets == map[]
    {
      this.rate := rate;
      buckets := map[];
    }

    /** The creation of a missing bucket reads the clock (`created`) before `allow` does (`now`). */
    method Allow(ip: string, created: real, now: real) returns (ok: bool)
      requires Valid() && created <= now && rate.perSecond >= 0.0
      modifies this, buckets.Values
      ensures Valid() && fresh(buckets.Values - old(buckets.Values))
      ensures ok <==> Permits(rate, Before(rate, old(Contents()), ip, now), now)
      ensures Contents() == old(Contents())[ip := AfterRequest(rate, Before(rate, old(Contents()), ip, now), now)]
    {
      ghost var counted := Before(rate, Contents(), ip, now);
      ghost var met := counted;
      if ip !in buckets {
        AddFull(ip, created);
        NewBucketIsFull(rate, created, now);
        met := Fill(rate.burst, created);
      }
      assert Contents()[ip] == met && Refilled(rate, met, now) == Refilled(rate, counted, now);
      ghost var before := Contents();
      var bucket := buckets[ip];
      assert bucket in buckets.Values;
      ok := bucket.Allow(rate, now);
      assert Contents() == before[ip := bucket.View()];
    }

    /** A full bucket for an address seen for the first time. */
    method AddFull(ip: string, created: real)
      requires Valid() && ip !in buckets
      modifies this
      ensures Valid() && ip in buckets && fresh(buckets.Values - old(buckets.Values))
      ensures Contents() == old(Contents())[ip := Fill(rate.burst, created)]
    {
      var b := new Bucket(rate.burst, created);
      buckets := buckets[ip := b];
    }

    /** One tick of the clean-up: exactly the buckets idle longer than the ttl go. */
    method Cleanup(now: real)
      requires Valid()
      modifies this
      ensures Valid() && Contents() == Evicted(rate, old(Contents()), now)
      ensures buckets.Values <= old(buckets.Values)
      ensures forall ip :: ip in buckets <==> ip in old(buckets) && now - old(buckets[ip].lastSeen) <= rate.ttl
      ensures forall ip :: ip in buckets ==> buckets[ip] == old(buckets)[ip]
    {
      var ips := buckets.Keys;
      while ips != {}
        invariant ips <= old(buckets).Keys
        invariant buckets.Keys <= old(buckets).Keys
        invariant forall ip :: ip in buckets ==> buckets[ip] == old(buckets)[ip]
        invariant forall ip :: ip in old(buckets) ==>
                    (ip in buckets <==> ip in ips || !Stale(rate, old(buckets)[ip].View(), now))
        decreases ips
      {
        var ip :| ip in ips;
        if now - buckets[ip].lastSeen > rate.ttl {
          buckets := buckets - {ip};
        }
        ips := ips - {ip};
      }
    }
  }

  // ── Any history of one limiter ───────────────────────────────────────────────

  datatype Event = Request(ip: string, at: real) | Tick(at: real)

  /** Answers of the limiter that evicts; a tick answers nothing. */
  function Answers(r: Rate, m: Fills, es: seq<Event>): seq<bool>
    decreases es
  {
    if es == [] then []
    else match es[0]
      case Request(ip, at) =>
        var l := Before(r, m, ip, at);
        [Permits(r, l, at)] + Answers(r, m[ip := AfterRequest(r, l, at)], es[1..])
      case Tick(at) => Answers(r, Evicted(r, m, at), es[1..])
  }

  /** Answers of a limiter that never forgets anyone. */
  function AnswersWithoutEviction(r: Rate, m: Fills, es: seq<Event>): seq<bool>
    decreases es
  {
    if es == [] then []
    else match es[0]
      case Request(ip, at) =>
        var l := Before(r, m, ip, at);
        [Permits(r, l, at)] + AnswersWithoutEviction(r, m[ip := AfterRequest(r, l, at)], es[1..])
      case Tick(_) => AnswersWithoutEviction(r, m, es[1..])
  }

  ghost predicate ClockRuns(es: seq<Event>, from: real) {
    es != [] ==> es[0].at >= from && ClockRuns(es[1..], es[0].at)
  }

  predicate FullBy(r: Rate, l: Fill, now: real) {
    l.tokens + (now - l.lastSeen) * r.perSecond >= r.burst
  }

  predicate Settled(l: Fill, now: real) { l.tokens >= 0.0 && l.lastSeen <= now }

  /** `n` never forgot; `m` did, but only addresses whose bucket is full again by `now`. */
  ghost predicate Agree(r: Rate, m: Fills, n: Fills, now: real) {
    && (forall ip :: ip in m ==> ip in n && m[ip] == n[ip])
    && (forall ip :: ip in n ==> Settled(n[ip], now))
    && (forall ip :: ip in n && ip !in m ==> FullBy(r, n[ip], now))
  }

  /** When a new bucket was created does not matter: it is full. */
  lemma NewBucketIsFull(r: Rate, created: real, now: real)
    requires created <= now && r.perSecond >= 0.0
    ensures Refilled(r, Fill(r.burst, created), now) == r.burst == Refilled(r, Fill(r.burst, now), now)
  {
    NothingIsLost(created, now, r.perSecond);
    NothingIsLost(now, now, r.perSecond);
  }

  lemma Faster(a: real, b: real, rate: real)
    requires a <= b && rate >= 0.0
    ensures a * rate <= b * rate
  {
  }

  lemma FullLater(r: Rate, l: Fill, now: real, later: real)
    requires r.perSecond >= 0.0 && FullBy(r, l, now) && now <= later
    ensures FullBy(r, l, later)
  {
    Faster(now - l.lastSeen, later - l.lastSeen, r.perSecond);
  }

  lemma StaleIsFull(r: Rate, l: Fill, now: real)
    requires Sensible(r) && r.perSecond * r.ttl >= r.burst && Settled(l, now) && Stale(r, l, now)
    ensures FullBy(r, l, now)
  {
    Faster(r.ttl, now - l.lastSeen, r.perSecond);
  }

  lemma RefilledIsSensible(r: Rate, l: Fill, now: real)
    requires Sensible(r) && Settled(l, now)
    ensures 0.0 <= Refilled(r, l, now) <= r.burst
    ensures FullBy(r, l, now) ==> Refilled(r, l, now) == r.burst
    ensures Settled(AfterRequest(r, l, now), now)
  {
    NothingIsLost(l.lastSeen, now, r.perSecond);
    ClampBounds(l.tokens, (now - l.lastSeen) * r.perSecond, r.burst);
  }

  lemma ClampBounds(tokens: real, gain: real, burst: real)
    requires tokens >= 0.0 && gain >= 0.0 && burst >= 0.0
    ensures 0.0 <= Min(burst, tokens + gain) <= burst
    ensures tokens + gain >= burst ==> Min(burst, tokens + gain) == burst
  {
  }

  lemma NothingIsLost(from: real, to: real, rate: real)
    requires from <= to && rate >= 0.0
    ensures (to - from) * rate >= 0.0
  {
    var elapsed := to - from;
    assert elapsed * rate >= 0.0;
  }

  lemma NewIsFull(r: Rate, now: real)
    ensures Refilled(r, Fill(r.burst, now), now) == r.burst
  {
  }

  lemma AgreeLater(r: Rate, m: Fills, n: Fills, now: real, later: real)
    requires Sensible(r) && Agree(r, m, n, now) && now <= later
    ensures Agree(r, m, n, later)
  {
    forall ip | ip in n && ip !in m ensures FullBy(r, n[ip], later) {
      FullLater(r, n[ip], now, later);
    }
  }

  lemma AgreeAfterTick(r: Rate, m: Fills, n: Fills, now: real)
    requires Sensible(r) && r.perSecond * r.ttl >= r.burst && Agree(r, m, n, now)
    ensures Agree(r, Evicted(r, m, now), n, now)
  {
    forall ip | ip in n && ip !in Evicted(r, m, now) ensures FullBy(r, n[ip], now) {
      if ip in m {
        StaleIsFull(r, n[ip], now);
      }
    }
  }

  lemma RequestKeepsAgreement(r: Rate, m: Fills, n: Fills, ip: string, now: real)
    requires Sensible(r) && Agree(r, m, n, now)
    ensures Permits(r, Before(r, m, ip, now), now) == Permits(r, Before(r, n, ip, now), now)
    ensures Agree(r, m[ip := AfterRequest(r, Before(r, m, ip, now), now)],
                  n[ip := AfterRequest(r, Before(r, n, ip, now), now)], now)
  {
    var lm, ln := Before(r, m, ip, now), Before(r, n, ip, now);
    NewIsFull(r, now);
    RefilledIsSensible(r, ln, now);
    assert Refilled(r, lm, now) == Refilled(r, ln, now);
    assert AfterRequest(r, lm, now) == AfterRequest(r, ln, now);
  }

  /** Evicting idle buckets is invisible when an idle ttl always refills a bucket. */
  lemma {:induction false} EvictionIsInvisible(r: Rate, m: Fills, n: Fills, now: real, es: seq<Event>)
    requires Sensible(r) && r.perSecond * r.ttl >= r.burst
    requires Agree(r, m, n, now) && ClockRuns(es, now)
    ensures Answers(r, m, es) == AnswersWithoutEviction(r, n, es)
    decreases es
  {
    if es != [] {
      var at := es[0].at;
      AgreeLater(r, m, n, now, at);
      match es[0] {
        case Request(ip, _) =>
          RequestKeepsAgreement(r, m, n, ip, at);
          EvictionIsInvisible(r, m[ip := AfterRequest(r, Before(r, m, ip, at), at)],
                              n[ip := AfterRequest(r, Before(r, n, ip, at), at)], at, es[1..]);
        case Tick(_) =>
          AgreeAfterTick(r, m, n, at);
          EvictionIsInvisible(r, Evicted(r, m, at), n, at, es[1..]);
      }
    }
  }

  const FIVE_MINUTES := 300.0
  const GLOBAL := Rate(20.0, 20.0, FIVE_MINUTES)
  const LOGIN := Rate(5.0 / 60.0, 5.0, FIVE_MINUTES)
  const ENROLLMENT := Rate(2.0 / 60.0, 3.0, FIVE_MINUTES)

  /** So the three configured limiters answer as if nobody were ever forgotten. */
  lemma ConfiguredLimitersForgetInvisibly(r: Rate, es: seq<Event>, start: real)
    requires r in {GLOBAL, LOGIN, ENROLLMENT} && ClockRuns(es, start)
    ensures Answers(r, map[], es) == AnswersWithoutEviction(r, map[], es)
  {
    assert 2.0 / 60.0 * 300.0 == 10.0 && 5.0 / 60.0 * 300.0 == 25.0;
    EvictionIsInvisible(r, map[], map[], start, es);
  }

  // ── The condition is exact ───────────────────────────────────────────────────

  /** From `m` and `n` at time `now` some further history is answered differently. */
  ghost predicate Differ(r: Rate, m: Fills, n: Fills, now: real) {
    exists es :: ClockRuns(es, now) && Answers(r, m, es) != AnswersWithoutEviction(r, n, es)
  }

  /** A difference after one more event is a difference. */
  lemma DifferAfterRequest(r: Rate, m: Fills, n: Fills, now: real, ip: string, at: real)
    requires now <= at
    requires Permits(r, Before(r, m, ip, at), at) != Permits(r, Before(r, n, ip, at), at)
             || Differ(r, m[ip := AfterRequest(r, Before(r, m, ip, at), at)],
                       n[ip := AfterRequest(r, Before(r, n, ip, at), at)], at)
    ensures Differ(r, m, n, now)
  {
    var m' := m[ip := AfterRequest(r, Before(r, m, ip, at), at)];
    var n' := n[ip := AfterRequest(r, Before(r, n, ip, at), at)];
    var es: seq<Event> := [];
    if Permits(r, Before(r, m, ip, at), at) == Permits(r, Before(r, n, ip, at), at) {
      es :| ClockRuns(es, at) && Answers(r, m', es) != AnswersWithoutEviction(r, n', es);
    }
    var longer := [Request(ip, at)] + es;
    assert longer[1..] == es;
    assert ClockRuns(longer, now);
    var a, b := Answers(r, m, longer), AnswersWithoutEviction(r, n, longer);
    assert a[0] != b[0] || a[1..] != b[1..];
  }

  lemma DifferAfterTick(r: Rate, m: Fills, n: Fills, now: real, at: real)
    requires now <= at && Differ(r, Evicted(r, m, at), n, at)
    ensures Differ(r, m, n, now)
  {
    var es :| ClockRuns(es, at) && Answers(r, Evicted(r, m, at), es) != AnswersWithoutEviction(r, n, es);
    var longer := [Tick(at)] + es;
    assert longer[1..] == es;
    assert ClockRuns(longer, now);
  }

  /** Both below one token: wait until exactly the fuller one has earned it. */
  lemma WaitTellsApart(r: Rate, m: Fills, n: Fills, ip: string, now: real)
    requires r.perSecond > 0.0 && r.burst >= 1.0 && ip in m && ip in n
    requires m[ip].lastSeen == now == n[ip].lastSeen && n[ip].tokens < m[ip].tokens < 1.0
    ensures Differ(r, m, n, now)
  {
    var wait := (1.0 - m[ip].tokens) / r.perSecond;
    assert wait * r.perSecond == 1.0 - m[ip].tokens;
    assert (now + wait) - now == wait;
    assert Refilled(r, m[ip], now + wait) == 1.0;
    assert Refilled(r, n[ip], now + wait) < 1.0;
    DifferAfterRequest(r, m, n, now, ip, now + wait);
  }

  /** A bucket just used holds what is left, and nothing is earned in no time. */
  lemma RightAfter(r: Rate, l: Fill, now: real)
    requires Refilled(r, l, now) >= 0.0
    ensures Refilled(r, AfterRequest(r, l, now), now) == AfterRequest(r, l, now).tokens
  {
  }

  /** Two buckets of one address with different contents can be told apart. */
  lemma {:induction false} UnequalBucketsDiffer(r: Rate, m: Fills, n: Fills, ip: string, now: real)
    requires r.perSecond > 0.0 && r.burst >= 1.0
    requires 0.0 <= Refilled(r, Before(r, n, ip, now), now) < Refilled(r, Before(r, m, ip, now), now)
    ensures Differ(r, m, n, now)
    decreases Refilled(r, Before(r, n, ip, now), now).Floor
  {
    var lm, ln := Before(r, m, ip, now), Before(r, n, ip, now);
    var m', n' := m[ip := AfterRequest(r, lm, now)], n[ip := AfterRequest(r, ln, now)];
    RightAfter(r, lm, now);
    RightAfter(r, ln, now);
    if Permits(r, ln, now) {
      UnequalBucketsDiffer(r, m', n', ip, now);
    } else if !Permits(r, lm, now) {
      WaitTellsApart(r, m', n', ip, now);
    }
    DifferAfterRequest(r, m, n, now, ip, now);
  }

  /** An empty bucket that is evicted before it is full again gives the game away. */
  lemma EmptyBucketDiffers(r: Rate, m: Fills, ip: string, now: real)
    requires r.perSecond > 0.0 && r.burst >= 1.0 && r.ttl >= 0.0 && r.perSecond * r.ttl < r.burst
    requires ip in m && m[ip] == Fill(0.0, now)
    ensures Differ(r, m, m, now)
  {
    var slack := (r.burst - r.perSecond * r.ttl) / (2.0 * r.perSecond);
    assert slack * r.perSecond == (r.burst - r.perSecond * r.ttl) / 2.0;
    assert slack > 0.0;
    var wait := r.ttl + slack;
    var at := now + wait;
    assert wait * r.perSecond == r.ttl * r.perSecond + slack * r.perSecond;
    assert Refilled(r, m[ip], at) == wait * r.perSecond;
    assert ip !in Evicted(r, m, at);
    assert Refilled(r, Before(r, Evicted(r, m, at), ip, at), at) == r.burst;
    UnequalBucketsDiffer(r, Evicted(r, m, at), m, ip, at);
    DifferAfterTick(r, m, m, now, at);
  }

  /** Any bucket can be brought to exactly empty. */
  lemma {:induction false} BucketCanBeEmptied(r: Rate, m: Fills, ip: string, now: real)
    requires r.perSecond > 0.0 && r.burst >= 1.0 && r.ttl >= 0.0 && r.perSecond * r.ttl < r.burst
    requires Refilled(r, Before(r, m, ip, now), now) >= 0.0
    ensures Differ(r, m, m, now)
    decreases Refilled(r, Before(r, m, ip, now), now).Floor, 1
  {
    var l := Before(r, m, ip, now);
    var x := Refilled(r, l, now);
    var m' := m[ip := AfterRequest(r, l, now)];
    if x > 1.0 {
      BucketCanBeEmptied(r, m', ip, now);
    } else if x == 1.0 {
      EmptyBucketDiffers(r, m', ip, now);
    } else {
      var wait := (1.0 - x) / r.perSecond;
      assert wait * r.perSecond == 1.0 - x;
      assert Refilled(r, m'[ip], now + wait) == 1.0;
      EmptyBucketDiffers(r, m'[ip := AfterRequest(r, m'[ip], now + wait)], ip, now + wait);
      DifferAfterRequest(r, m', m', now, ip, now + wait);
    }
    DifferAfterRequest(r, m, m, now, ip, now);
  }

  ghost predicate SameOn(r: Rate, es: seq<Event>) {
    Answers(r, map[], es) == AnswersWithoutEviction(r, map[], es)
  }

  ghost predicate Invisible(r: Rate) {
    forall es: seq<Event>, start: real :: ClockRuns(es, start) ==> SameOn(r, es)
  }

  /** Without any refill an eviction gives a spent bucket back. */
  lemma {:induction false} WithoutRefillEvictionShows(r: Rate, m: Fills, ip: string, now: real)
    requires r.perSecond == 0.0 && r.burst >= 1.0 && r.ttl >= 0.0
    requires Refilled(r, Before(r, m, ip, now), now) >= 0.0
    ensures Differ(r, m, m, now)
    decreases Refilled(r, Before(r, m, ip, now), now).Floor
  {
    var l := Before(r, m, ip, now);
    if Permits(r, l, now) {
      RightAfter(r, l, now);
      WithoutRefillEvictionShows(r, m[ip := AfterRequest(r, l, now)], ip, now);
      DifferAfterRequest(r, m, m, now, ip, now);
    } else {
      NewIsFull(r, now);
      var at := (if m[ip].lastSeen > now then m[ip].lastSeen else now) + r.ttl + 1.0;
      assert ip !in Evicted(r, m, at);
      NewIsFull(r, at);
      DifferAfterRequest(r, Evicted(r, m, at), m, at, ip, at);
      DifferAfterTick(r, m, m, now, at);
    }
  }

  /** A burst below one token lets nobody through, evicted or not. */
  lemma {:induction false} NobodyPasses(r: Rate, m: Fills, n: Fills, es: seq<Event>)
    requires r.burst < 1.0
    ensures Answers(r, m, es) == AnswersWithoutEviction(r, n, es)
    decreases es
  {
    if es != [] {
      match es[0]
      case Request(ip, at) =>
        NobodyPasses(r, m[ip := AfterRequest(r, Before(r, m, ip, at), at)],
                     n[ip := AfterRequest(r, Before(r, n, ip, at), at)], es[1..]);
      case Tick(at) =>
        NobodyPasses(r, Evicted(r, m, at), n, es[1..]);
    }
  }

  /** Eviction is invisible exactly if rate·ttl ≥ burst, or if nobody is ever let through. */
  lemma EvictionInvisibleIff(r: Rate)
    requires r.perSecond >= 0.0 && r.ttl >= 0.0
    ensures Invisible(r) <==> r.perSecond * r.ttl >= r.burst || r.burst < 1.0
  {
    if r.burst < 1.0 {
      forall es, start | ClockRuns(es, start) ensures SameOn(r, es) {
        NobodyPasses(r, map[], map[], es);
      }
    } else if r.perSecond * r.ttl >= r.burst {
      forall es, start | ClockRuns(es, start) ensures SameOn(r, es) {
        EvictionIsInvisible(r, map[], map[], start, es);
      }
    } else {
      var start := 0.0;
      NewIsFull(r, start);
      if r.perSecond > 0.0 {
        BucketCanBeEmptied(r, map[], "ip", start);
      } else {
        WithoutRefillEvictionShows(r, map[], "ip", start);
      }
      var es :| ClockRuns(es, start) && Answers(r, map[], es) != AnswersWithoutEviction(r, map[], es);
      assert ClockRuns(es, start) && !SameOn(r, es);
    }
  }

  // ── The bucket is exact ──────────────────────────────────────────────────────

  /** The bucket a request finds, `k` requests into the given times. */
  function StateAt(r: Rate, l: Fill, times: seq<real>, k: nat): Fill
    requires k <= |times|
  {
    if k == 0 then l else AfterRequest(r, StateAt(r, l, times, k - 1), times[k - 1])
  }

  function Available(r: Rate, l: Fill, times: seq<real>, k: nat): real
    requires k < |times|
  {
    Refilled(r, StateAt(r, l, times, k), times[k])
  }

  /** Verdict on request `k`. */
  predicate Verdict(r: Rate, l: Fill, times: seq<real>, k: nat)
    requires k < |times|
  {
    Permits(r, StateAt(r, l, times, k), times[k])
  }

  /** Requests allowed among those numbered `i` to `j - 1`. */
  function AllowedBetween(r: Rate, l: Fill, times: seq<real>, i: nat, j: nat): nat
    requires i <= j <= |times|
  {
    if i == j then 0
    else AllowedBetween(r, l, times, i, j - 1) + (if Verdict(r, l, times, j - 1) then 1 else 0)
  }

  ghost predicate InOrder(times: seq<real>) {
    forall i, j :: 0 <= i < j < |times| ==> times[i] <= times[j]
  }

  /** A bucket as its first request finds it. */
  ghost predicate StartsFull(r: Rate, l: Fill, times: seq<real>) {
    times != [] ==> l == Fill(r.burst, times[0])
  }

  lemma {:induction false} TokensInRange(r: Rate, l: Fill, times: seq<real>, k: nat)
    requires Sensible(r) && InOrder(times) && StartsFull(r, l, times) && k < |times|
    ensures Settled(StateAt(r, l, times, k), times[k])
    ensures k > 0 ==> StateAt(r, l, times, k).lastSeen == times[k - 1]
    ensures 0.0 <= Available(r, l, times, k) <= r.burst
  {
    if k > 0 {
      TokensInRange(r, l, times, k - 1);
      RefilledIsSensible(r, StateAt(r, l, times, k - 1), times[k - 1]);
    }
    RefilledIsSensible(r, StateAt(r, l, times, k), times[k]);
  }

  /** rate·length of the window from request `i` to request `j`. */
  function Earned(r: Rate, times: seq<real>, i: nat, j: nat): real
    requires i < |times| && j < |times|
  {
    (times[j] - times[i]) * r.perSecond
  }

  lemma EarnedAdds(r: Rate, times: seq<real>, i: nat, j: nat, k: nat)
    requires i < |times| && j < |times| && k < |times|
    ensures Earned(r, times, i, j) + Earned(r, times, j, k) == Earned(r, times, i, k)
  {
    var a, b := times[j] - times[i], times[k] - times[j];
    assert (a + b) * r.perSecond == a * r.perSecond + b * r.perSecond;
  }

  /** One request on: what is available is what was left and what was earned, up to the burst. */
  lemma AvailableNext(r: Rate, l: Fill, times: seq<real>, k: nat)
    requires Sensible(r) && InOrder(times) && StartsFull(r, l, times) && k + 1 < |times|
    ensures Available(r, l, times, k + 1)
            == Min(r.burst, Available(r, l, times, k) - (if Verdict(r, l, times, k) then 1.0 else 0.0) + Earned(r, times, k, k + 1))
  {
    TokensInRange(r, l, times, k + 1);
  }

  /** What is available never exceeds what the window since request `i` would give. */
  lemma {:induction false} AvailableBound(r: Rate, l: Fill, times: seq<real>, i: nat, j: nat)
    requires Sensible(r) && InOrder(times) && StartsFull(r, l, times) && i <= j < |times|
    ensures Available(r, l, times, j) <= r.burst + Earned(r, times, i, j) - AllowedBetween(r, l, times, i, j) as real
  {
    if i == j {
      TokensInRange(r, l, times, j);
    } else {
      AvailableBound(r, l, times, i, j - 1);
      AvailableNext(r, l, times, j - 1);
      EarnedAdds(r, times, i, j - 1, j);
    }
  }

  /** And it equals that since the last time the bucket was full. */
  lemma {:induction false} AvailableSinceFull(r: Rate, l: Fill, times: seq<real>, j: nat) returns (i: nat)
    requires Sensible(r) && InOrder(times) && StartsFull(r, l, times) && j < |times|
    ensures i <= j
    ensures Available(r, l, times, j) == r.burst + Earned(r, times, i, j) - AllowedBetween(r, l, times, i, j) as real
  {
    if j == 0 || Available(r, l, times, j) == r.burst {
      i := j;
      NewIsFull(r, times[0]);
    } else {
      i := AvailableSinceFull(r, l, times, j - 1);
      AvailableNext(r, l, times, j - 1);
      EarnedAdds(r, times, i, j - 1, j);
    }
  }

  /** In any window, from request `i` to request `j`, at most burst + rate·length requests are allowed. */
  lemma WindowBound(r: Rate, l: Fill, times: seq<real>, i: nat, j: nat)
    requires Sensible(r) && InOrder(times) && StartsFull(r, l, times) && i <= j < |times|
    ensures AllowedBetween(r, l, times, i, j + 1) as real <= r.burst + Earned(r, times, i, j)
  {
    AvailableBound(r, l, times, i, j);
    TokensInRange(r, l, times, j);
  }

  /** Allowing request `j` keeps every window ending with it within its bound. */
  ghost predicate FitsEveryWindow(r: Rate, l: Fill, times: seq<real>, j: nat)
    requires j < |times|
  {
    forall i: nat :: i <= j ==>
      AllowedBetween(r, l, times, i, j) as real + 1.0 <= r.burst + Earned(r, times, i, j)
  }

  /** A request is allowed exactly when that breaks the bound of no window ending now. */
  lemma BucketIsExact(r: Rate, l: Fill, times: seq<real>, j: nat)
    requires Sensible(r) && InOrder(times) && StartsFull(r, l, times) && j < |times|
    ensures Verdict(r, l, times, j) <==> FitsEveryWindow(r, l, times, j)
  {
    if Verdict(r, l, times, j) {
      forall i: nat | i <= j
        ensures AllowedBetween(r, l, times, i, j) as real + 1.0 <= r.burst + Earned(r, times, i, j)
      {
        AvailableBound(r, l, times, i, j);
      }
    } else {
      var i := AvailableSinceFull(r, l, times, j);
    }
  }

  // ── And so is the limiter, address by address ────────────────────────────────

  function TimesOf(es: seq<Event>, ip: string): seq<real> {
    if es == [] then []
    else if es[0].Request? && es[0].ip == ip then [es[0].at] + TimesOf(es[1..], ip)
    else TimesOf(es[1..], ip)
  }

  /** The answers that went to one address. */
  function AnswersTo(es: seq<Event>, answers: seq<bool>, ip: string): seq<bool> {
    if es == [] || answers == [] then []
    else match es[0]
      case Request(who, _) => (if who == ip then [answers[0]] else []) + AnswersTo(es[1..], answers[1..], ip)
      case Tick(_) => AnswersTo(es[1..], answers, ip)
  }

  /** The verdicts of one bucket on a list of times. */
  function Replay(r: Rate, l: Fill, times: seq<real>): seq<bool>
    decreases times
  {
    if times == [] then [] else [Permits(r, l, times[0])] + Replay(r, AfterRequest(r, l, times[0]), times[1..])
  }

  lemma {:induction false} ReplayIsVerdicts(r: Rate, l: Fill, times: seq<real>, k: nat)
    requires k < |times|
    ensures |Replay(r, l, times)| == |times| && Replay(r, l, times)[k] == Verdict(r, l, times, k)
    decreases times
  {
    var next := AfterRequest(r, l, times[0]);
    if k > 0 {
      ReplayIsVerdicts(r, next, times[1..], k - 1);
      StateShift(r, l, times, k);
    } else if |times| > 1 {
      ReplayIsVerdicts(r, next, times[1..], 0);
    }
  }

  lemma {:induction false} StateShift(r: Rate, l: Fill, times: seq<real>, k: nat)
    requires 0 < k <= |times|
    ensures StateAt(r, l, times, k) == StateAt(r, AfterRequest(r, l, times[0]), times[1..], k - 1)
  {
    if k > 1 {
      StateShift(r, l, times, k - 1);
    } else {
      assert StateAt(r, l, times, 0) == l;
    }
  }

  /** Without eviction each address sees its own bucket and nothing else. */
  lemma {:induction false} AddressesAreIndependent(r: Rate, m: Fills, es: seq<Event>, ip: string)
    ensures var times := TimesOf(es, ip);
            times != [] || ip in m ==>
              AnswersTo(es, AnswersWithoutEviction(r, m, es), ip)
              == Replay(r, if ip in m then m[ip] else Fill(r.burst, times[0]), times)
    ensures TimesOf(es, ip) == [] ==> AnswersTo(es, AnswersWithoutEviction(r, m, es), ip) == []
    decreases es
  {
    if es != [] {
      match es[0] {
        case Request(who, at) =>
          var l := Before(r, m, who, at);
          AddressesAreIndependent(r, m[who := AfterRequest(r, l, at)], es[1..], ip);
        case Tick(_) =>
          AddressesAreIndependent(r, m, es[1..], ip);
      }
    }
  }

  lemma {:induction false} TimesInOrder(es: seq<Event>, ip: string, from: real)
    requires ClockRuns(es, from)
    ensures InOrder(TimesOf(es, ip))
    ensures forall k :: 0 <= k < |TimesOf(es, ip)| ==> TimesOf(es, ip)[k] >= from
    decreases es
  {
    if es != [] {
      TimesInOrder(es[1..], ip, es[0].at);
    }
  }

  /**
    The limiter as configured, eviction and all: the `k`-th request of an address is allowed
    exactly when no window ending with it would exceed burst + rate·length.
  */
  lemma LimiterIsExact(r: Rate, es: seq<Event>, start: real, ip: string, k: nat)
    requires r in {GLOBAL, LOGIN, ENROLLMENT} && ClockRuns(es, start) && k < |TimesOf(es, ip)|
    ensures var times := TimesOf(es, ip);
            var answers := AnswersTo(es, Answers(r, map[], es), ip);
            && |answers| == |times|
            && (answers[k] <==> FitsEveryWindow(r, Fill(r.burst, times[0]), times, k))
  {
    var times := TimesOf(es, ip);
    var l := Fill(r.burst, times[0]);
    ConfiguredLimitersForgetInvisibly(r, es, start);
    AddressesAreIndependent(r, map[], es, ip);
    ReplayIsVerdicts(r, l, times, k);
    TimesInOrder(es, ip, start);
    BucketIsExact(r, l, times, k);
  }
}
