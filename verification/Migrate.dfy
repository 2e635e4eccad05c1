/**
  Schema migrations at start-up (internal/migrate/migrate.go): every pending one in ascending
  order, each in its own transaction together with the recorded version.
*/
module Migrate {
  import opened Prelude
  import opened Strings

  datatype Migration = Migration(version: int, name: string)

  // ── File names ───────────────────────────────────────────────────────────────

  /** The first underscore of the name is at `i`. */
  ghost predicate IsPrefix(base: string, i: nat) {
    i < |base| && base[i] == '_' && forall k :: 0 <= k < i ==> base[k] != '_'
  }

  /** The version is the number before the first underscore, which may not come first. */
  function ParseName(base: string): (r: Option<Migration>)
    ensures r.Some? ==> r.value.name == base && exists i :: 0 < i < |base| && IsPrefix(base, i) && Atoi(base[..i]) == Some(r.value.version)
    ensures r == None ==> forall i :: 0 < i < |base| && IsPrefix(base, i) ==> Atoi(base[..i]) == None
  {
    var idx := IndexOf(base, '_', 0);
    assert base[0..] == base;
    assert idx.Some? ==> forall k :: 0 <= k < idx.value ==> base[0..idx.value][k] == base[k];
    assert idx.Some? ==> IsPrefix(base, idx.value) && forall i :: 0 <= i < |base| && IsPrefix(base, i) ==> i == idx.value;
    if idx == None || idx.value == 0 then None
    else
      var v := Atoi(base[..idx.value]);
      if v == None then None else Some(Migration(v.value, base))
  }

  function Version(m: Migration): int { m.version }

  /** All files or none: one bad name refuses the whole set; the result ascends by version. */
  method LoadMigrations(names: seq<string>) returns (r: Option<seq<Migration>>)
    ensures r == None <==> exists i :: 0 <= i < |names| && ParseName(names[i]) == None
    ensures r.Some? ==> SortedBy(Version, r.value) && |r.value| == |names|
    ensures r.Some? ==> forall m :: m in r.value <==> exists i :: 0 <= i < |names| && ParseName(names[i]) == Some(m)
  {
    var migs: seq<Migration> := [];
    for n := 0 to |names|
      invariant |migs| == n
      invariant forall i :: 0 <= i < n ==> ParseName(names[i]) == Some(migs[i])
    {
      var m := ParseName(names[n]);
      if m == None {
        return None;
      }
      migs := migs + [m.value];
    }
    var sorted := SortByKey(Version, migs);
    SameMembers(sorted, migs);
    forall m ensures m in sorted <==> exists i :: 0 <= i < |names| && ParseName(names[i]) == Some(m) {
      if m in migs {
        var i :| 0 <= i < |migs| && migs[i] == m;
        assert ParseName(names[i]) == Some(m);
      }
    }
    return Some(sorted);
  }

  // ── The database ─────────────────────────────────────────────────────────────

  datatype Row = Row(version: int, dirty: bool)

  /** What is committed: the schema changes in order, and the one row of schema_migrations. */
  datatype Schema = Schema(applied: seq<int>, recorded: Option<Row>)

  function CurrentVersion(s: Schema): int {
    if s.recorded == None then 0 else s.recorded.value.version
  }

  predicate Dirty(s: Schema) { s.recorded.Some? && s.recorded.value.dirty }

  /** How one attempt ends: a crash or error before the commit, or one after it. */
  datatype Fault = NoFault | BeforeCommit | AfterCommit

  function Recorded(s: Schema, m: Migration): Schema {
    Schema(s.applied + [m.version], Some(Row(m.version, false)))
  }

  /** What a run may do: refuse to start, or go on until a fault. Missing faults are `NoFault`. */
  datatype Plan = Plan(starts: bool, faults: seq<Fault>)

  /** The loop of `Run`: `version` was read once, before it. */
  function Loop(migs: seq<Migration>, version: int, s: Schema, faults: seq<Fault>): (Schema, bool)
    decreases migs
  {
    if migs == [] then (s, true)
    else if migs[0].version <= version then Loop(migs[1..], version, s, faults)
    else
      var fault := if faults == [] then NoFault else faults[0];
      var rest := if faults == [] then [] else faults[1..];
      match fault
      case NoFault => Loop(migs[1..], version, Recorded(s, migs[0]), rest)
      case BeforeCommit => (s, false)
      case AfterCommit => (Recorded(s, migs[0]), false)
  }

  function RunSpec(migs: seq<Migration>, s: Schema, plan: Plan): (Schema, bool) {
    if !plan.starts || Dirty(s) then (s, false) else Loop(migs, CurrentVersion(s), s, plan.faults)
  }

  // ── What a run does ──────────────────────────────────────────────────────────

  function FaultAt(faults: seq<Fault>, k: nat): Fault {
    if k < |faults| then faults[k] else NoFault
  }

  /** From `p` on everything is newer than `version`, before it nothing is. */
  ghost predicate PendingFrom(migs: seq<Migration>, version: int, p: nat) {
    && p <= |migs|
    && (forall i :: 0 <= i < p ==> migs[i].version <= version)
    && (forall i :: p <= i < |migs| ==> migs[i].version > version)
  }

  /** `t` is `s` after the first `q` of the pending migrations, each applied once, the last recorded. */
  ghost predicate AppliedFirst(pending: seq<Migration>, q: nat, s: Schema, t: Schema)
    requires q <= |pending|
  {
    && |t.applied| == |s.applied| + q && s.applied <= t.applied
    && (forall i :: 0 <= i < q ==> t.applied[|s.applied| + i] == pending[i].version)
    && t.recorded == if q == 0 then s.recorded else Some(Row(pending[q - 1].version, false))
  }

  /** A fault falls on the pending migration `k`, the first one it falls on; `t` is what that leaves of `s`. */
  ghost predicate StopsAt(pending: seq<Migration>, k: nat, faults: seq<Fault>, s: Schema, t: Schema) {
    && k < |pending| && !FaultAt(faults, k).NoFault?
    && (forall j :: 0 <= j < k ==> FaultAt(faults, j).NoFault?)
    && AppliedFirst(pending, if FaultAt(faults, k).BeforeCommit? then k else k + 1, s, t)
  }

  /**
    What a run makes of schema `s`: it succeeds if and only if it starts, the schema is clean and
    no fault falls on a pending migration, and then all pending ones are applied. A run that does
    not start changes nothing, any other stops at its first fault.
  */
  ghost predicate RunMeans(pending: seq<Migration>, s: Schema, plan: Plan, t: Schema, ok: bool) {
    && (ok <==> plan.starts && !Dirty(s) && forall k :: 0 <= k < |pending| ==> FaultAt(plan.faults, k).NoFault?)
    && (ok ==> AppliedFirst(pending, |pending|, s, t))
    && (!plan.starts || Dirty(s) ==> t == s)
    && (plan.starts && !Dirty(s) && !ok ==> exists k: nat :: StopsAt(pending, k, plan.faults, s, t))
  }

  lemma {:induction false} FindPending(migs: seq<Migration>, version: int) returns (p: nat)
    requires SortedBy(Version, migs)
    ensures PendingFrom(migs, version, p)
  {
    p := |migs|;
    while p > 0 && Version(migs[p - 1]) > version
      invariant p <= |migs| && forall i :: p <= i < |migs| ==> migs[i].version > version
    {
      p := p - 1;
    }
    forall i | 0 <= i < p ensures migs[i].version <= version {
      assert Version(migs[i]) <= Version(migs[p - 1]);
    }
  }

  /** What is not pending is passed over. */
  lemma {:induction false} LoopSkips(migs: seq<Migration>, n: nat, p: nat, version: int, s: Schema, faults: seq<Fault>)
    requires PendingFrom(migs, version, p) && n <= p
    ensures Loop(migs[n..], version, s, faults) == Loop(migs[p..], version, s, faults)
    decreases p - n
  {
    if n < p {
      assert migs[n..][1..] == migs[n + 1..];
      LoopSkips(migs, n + 1, p, version, s, faults);
    }
  }

  /** From the `n`-th pending migration on, the `n` before it applied without a fault. */
  lemma {:induction false} LoopApplies(pending: seq<Migration>, n: nat, version: int, s: Schema, u: Schema, faults: seq<Fault>)
    requires n <= |pending| && forall i :: 0 <= i < |pending| ==> pending[i].version > version
    requires AppliedFirst(pending, n, s, u) && forall j :: 0 <= j < n ==> FaultAt(faults, j).NoFault?
    ensures var (t, ok) := Loop(pending[n..], version, u, Drop(faults, n));
            && (ok ==> AppliedFirst(pending, |pending|, s, t) && forall k :: 0 <= k < |pending| ==> FaultAt(faults, k).NoFault?)
            && (!ok ==> exists k: nat :: StopsAt(pending, k, faults, s, t))
    decreases |pending| - n
  {
    if n < |pending| {
      assert pending[n..][0] == pending[n] && pending[n..][1..] == pending[n + 1..];
      var left := Drop(faults, n);
      assert (if left == [] then NoFault else left[0]) == FaultAt(faults, n);
      assert (if left == [] then [] else left[1..]) == Drop(faults, n + 1);
      var v := Recorded(u, pending[n]);
      assert AppliedFirst(pending, n + 1, s, v);
      match FaultAt(faults, n)
      case NoFault => LoopApplies(pending, n + 1, version, s, v, faults);
      case BeforeCommit => assert StopsAt(pending, n, faults, s, u);
      case AfterCommit => assert StopsAt(pending, n, faults, s, v);
    }
  }

  function Drop(faults: seq<Fault>, n: nat): seq<Fault> {
    if n < |faults| then faults[n..] else []
  }

  lemma RunSpecMeans(migs: seq<Migration>, s: Schema, plan: Plan) returns (p: nat)
    requires SortedBy(Version, migs)
    ensures PendingFrom(migs, CurrentVersion(s), p)
    ensures RunMeans(migs[p..], s, plan, RunSpec(migs, s, plan).0, RunSpec(migs, s, plan).1)
  {
    var version := CurrentVersion(s);
    p := FindPending(migs, version);
    if plan.starts && !Dirty(s) {
      LoopSkips(migs, 0, p, version, s, plan.faults);
      assert migs[0..] == migs && migs[p..][0..] == migs[p..];
      assert Drop(plan.faults, 0) == plan.faults;
      LoopApplies(migs[p..], 0, version, s, s, plan.faults);
    }
  }

  class Database {
    var schema: Schema

    constructor (schema: Schema)
      ensures this.schema == schema
    {
      this.schema := schema;
    }

    /** Change and version are one transaction. */
    method ApplyOne(m: Migration, fault: Fault) returns (ok: bool)
      modifies this
      ensures ok <==> fault.NoFault?
      ensures schema == if fault.BeforeCommit? then old(schema) else Recorded(old(schema), m)
    {
      if fault.BeforeCommit? {
        return false;
      }
      schema := Recorded(schema, m);
      return fault.NoFault?;
    }

    method Run(migs: seq<Migration>, plan: Plan) returns (ok: bool)
      modifies this
      ensures (schema, ok) == RunSpec(migs, old(schema), plan)
      ensures SortedBy(Version, migs) ==>
                exists p: nat :: PendingFrom(migs, CurrentVersion(old(schema)), p)
                  && RunMeans(migs[p..], old(schema), plan, schema, ok)
    {
      if SortedBy(Version, migs) {
        ghost var p := RunSpecMeans(migs, schema, plan);
      }
      if !plan.starts || Dirty(schema) {
        return false;
      }
      var version := CurrentVersion(schema);
      var faults := plan.faults;
      for n := 0 to |migs|
        invariant Loop(migs, version, old(schema), plan.faults) == Loop(migs[n..], version, schema, faults)
      {
        assert migs[n..][1..] == migs[n + 1..];
        if migs[n].version <= version {
          continue;
        }
        var fault := if faults == [] then NoFault else faults[0];
        faults := if faults == [] then [] else faults[1..];
        var applied := ApplyOne(migs[n], fault);
        if !applied {
          return false;
        }
      }
      assert migs[|migs|..] == [];
      return true;
    }
  }

  // ── Any number of runs ───────────────────────────────────────────────────────

  /** The file set as `LoadMigrations` delivers it, versions distinct. */
  ghost predicate Ascending(migs: seq<Migration>) {
    forall i, j :: 0 <= i < j < |migs| ==> migs[i].version < migs[j].version
  }

  /** The versions above `low` and up to `high`, in order. */
  function Between(migs: seq<Migration>, low: int, high: int): seq<int> {
    if migs == [] then []
    else (if low < migs[0].version <= high then [migs[0].version] else []) + Between(migs[1..], low, high)
  }

  /** The newest version of the set, or `low` when there is none above. */
  function Newest(migs: seq<Migration>, low: int): int {
    if migs == [] || migs[|migs| - 1].version <= low then low else migs[|migs| - 1].version
  }

  /** `s` arose from a schema at version `start` by applying what lies between, once and in order. */
  ghost predicate Consistent(migs: seq<Migration>, start: Schema, s: Schema) {
    && !Dirty(s)
    && CurrentVersion(start) <= CurrentVersion(s)
    && (s.recorded == start.recorded || exists i :: 0 <= i < |migs| && migs[i].version == CurrentVersion(s))
    && s.applied == start.applied + Between(migs, CurrentVersion(start), CurrentVersion(s))
  }

  lemma {:induction false} BetweenNothing(migs: seq<Migration>, low: int, high: int)
    requires forall i :: 0 <= i < |migs| ==> !(low < migs[i].version <= high)
    ensures Between(migs, low, high) == []
  {
    if migs != [] {
      BetweenNothing(migs[1..], low, high);
    }
  }

  lemma {:induction false} BetweenSplits(a: seq<Migration>, b: seq<Migration>, low: int, high: int)
    ensures Between(a + b, low, high) == Between(a, low, high) + Between(b, low, high)
  {
    if a == [] {
      assert a + b == b;
    } else {
      assert (a + b)[1..] == a[1..] + b;
      BetweenSplits(a[1..], b, low, high);
    }
  }

  lemma {:induction false} BetweenSame(migs: seq<Migration>, low: int, high: int, high': int)
    requires forall i :: 0 <= i < |migs| ==> migs[i].version <= high && migs[i].version <= high'
    ensures Between(migs, low, high) == Between(migs, low, high')
  {
    if migs != [] {
      BetweenSame(migs[1..], low, high, high');
    }
  }

  /** Going from one version to the next in the set adds exactly that one. */
  lemma BetweenGrows(migs: seq<Migration>, n: nat, low: int, high: int)
    requires Ascending(migs) && n < |migs| && low <= high < migs[n].version
    requires forall i :: 0 <= i < n ==> migs[i].version <= high
    ensures Between(migs, low, migs[n].version) == Between(migs, low, high) + [migs[n].version]
  {
    var v := migs[n].version;
    assert migs == migs[..n] + ([migs[n]] + migs[n + 1..]);
    BetweenSplits(migs[..n], [migs[n]] + migs[n + 1..], low, v);
    BetweenSplits(migs[..n], [migs[n]] + migs[n + 1..], low, high);
    BetweenSame(migs[..n], low, high, v);
    BetweenNothing(migs[n + 1..], low, v);
    BetweenNothing([migs[n]] + migs[n + 1..], low, high);
    assert ([migs[n]] + migs[n + 1..])[1..] == migs[n + 1..];
  }

  /** The loop keeps the schema consistent wherever it stops; getting through means being current. */
  lemma {:induction false} LoopConsistent(migs: seq<Migration>, n: nat, version: int, start: Schema, s: Schema, faults: seq<Fault>)
    requires Ascending(migs) && n <= |migs| && Consistent(migs, start, s)
    requires version <= CurrentVersion(s)
    requires forall i :: 0 <= i < n ==> migs[i].version <= CurrentVersion(s)
    requires forall i :: n <= i < |migs| && migs[i].version > version ==> migs[i].version > CurrentVersion(s)
    ensures var (t, ok) := Loop(migs[n..], version, s, faults);
            && Consistent(migs, start, t)
            && (ok ==> forall i :: 0 <= i < |migs| ==> migs[i].version <= CurrentVersion(t))
    decreases |migs| - n
  {
    if n < |migs| {
      assert migs[n..][1..] == migs[n + 1..];
      var m := migs[n];
      if m.version <= version {
        LoopConsistent(migs, n + 1, version, start, s, faults);
      } else {
        var fault := if faults == [] then NoFault else faults[0];
        var rest := if faults == [] then [] else faults[1..];
        var t := Recorded(s, m);
        BetweenGrows(migs, n, CurrentVersion(start), CurrentVersion(s));
        assert Consistent(migs, start, t);
        if fault.NoFault? {
          LoopConsistent(migs, n + 1, version, start, t, rest);
        }
      }
    }
  }

  /** One run, whatever befalls it. */
  lemma RunConsistent(migs: seq<Migration>, start: Schema, s: Schema, plan: Plan)
    requires Ascending(migs) && Consistent(migs, start, s)
    ensures var (t, ok) := RunSpec(migs, s, plan);
            && Consistent(migs, start, t)
            && (ok ==> forall i :: 0 <= i < |migs| ==> migs[i].version <= CurrentVersion(t))
  {
    assert migs[0..] == migs;
    if plan.starts {
      LoopConsistent(migs, 0, CurrentVersion(s), start, s, plan.faults);
    }
  }

  function Runs(migs: seq<Migration>, s: Schema, plans: seq<Plan>): Schema {
    if plans == [] then s
    else RunSpec(migs, Runs(migs, s, plans[..|plans| - 1]), plans[|plans| - 1]).0
  }

  lemma {:induction false} RunsConsistent(migs: seq<Migration>, start: Schema, plans: seq<Plan>)
    requires Ascending(migs) && !Dirty(start)
    ensures Consistent(migs, start, Runs(migs, start, plans))
  {
    if plans == [] {
      BetweenNothing(migs, CurrentVersion(start), CurrentVersion(start));
    } else {
      var front := plans[..|plans| - 1];
      RunsConsistent(migs, start, front);
      RunConsistent(migs, start, Runs(migs, start, front), plans[|plans| - 1]);
    }
  }

  /** `Between` is a strictly ascending list of exactly the versions in range. */
  lemma {:induction false} BetweenIsExact(migs: seq<Migration>, low: int, high: int)
    requires Ascending(migs)
    ensures forall i, j :: 0 <= i < j < |Between(migs, low, high)| ==> Between(migs, low, high)[i] < Between(migs, low, high)[j]
    ensures forall v :: v in Between(migs, low, high) <==>
              low < v <= high && exists i :: 0 <= i < |migs| && migs[i].version == v
  {
    if migs != [] {
      var rest := Between(migs[1..], low, high);
      BetweenIsExact(migs[1..], low, high);
      forall v | v in rest ensures migs[0].version < v && exists i :: 0 <= i < |migs| && migs[i].version == v {
        var i :| 0 <= i < |migs[1..]| && migs[1..][i].version == v;
        assert migs[i + 1].version == v;
      }

      var all := Between(migs, low, high);
      assert all == (if low < migs[0].version <= high then [migs[0].version] else []) + rest;
      forall i, j | 0 <= i < j < |all| ensures all[i] < all[j] {
        assert all[j] in rest;
      }
      forall v | low < v <= high && exists i :: 0 <= i < |migs| && migs[i].version == v
        ensures v in Between(migs, low, high)
      {
        var i :| 0 <= i < |migs| && migs[i].version == v;
        assert i > 0 ==> migs[1..][i - 1].version == v;
      }
    }
  }

  /** No fault at all. */
  predicate FaultFree(plan: Plan) {
    plan.starts && forall k :: 0 <= k < |plan.faults| ==> plan.faults[k].NoFault?
  }

  /**
    However many runs crash or fail wherever they like: what is applied is each version above the
    start up to the recorded one, exactly once and ascending. The next run without a fault gets
    through, and once a run gets through, all of them are applied, the recorded version is the
    newest, and any further run changes nothing.
  */
  lemma MigrationsApplyExactlyOnce(migs: seq<Migration>, start: Schema, plans: seq<Plan>, last: Plan, again: Plan)
    requires Ascending(migs) && !Dirty(start)
    ensures var s := Runs(migs, start, plans);
            && !Dirty(s)
            && s.applied == start.applied + Between(migs, CurrentVersion(start), CurrentVersion(s))
    ensures FaultFree(last) ==> RunSpec(migs, Runs(migs, start, plans), last).1
    ensures var (t, ok) := RunSpec(migs, Runs(migs, start, plans), last);
            ok ==>
              && (forall i :: 0 <= i < |migs| ==> migs[i].version <= CurrentVersion(t))
              && CurrentVersion(t) == Newest(migs, CurrentVersion(start))
              && t.applied == start.applied + Between(migs, CurrentVersion(start), Newest(migs, CurrentVersion(start)))
              && RunSpec(migs, t, again) == (t, again.starts)
  {
    RunsConsistent(migs, start, plans);
    var s := Runs(migs, start, plans);
    RunConsistent(migs, start, s, last);
    var p := RunSpecMeans(migs, s, last);
    var (t, ok) := RunSpec(migs, s, last);
    if ok {
      assert CurrentVersion(t) == Newest(migs, CurrentVersion(start));
      NothingPending(migs, CurrentVersion(t), t, again.faults);
    }
  }

  lemma {:induction false} NothingPending(migs: seq<Migration>, version: int, s: Schema, faults: seq<Fault>)
    requires forall i :: 0 <= i < |migs| ==> migs[i].version <= version
    ensures Loop(migs, version, s, faults) == (s, true)
    decreases migs
  {
    if migs != [] {
      NothingPending(migs[1..], version, s, faults);
    }
  }
}
