/**
  Retention (internal/api/agent_retention.go): which snapshots a round may delete, so that a
  system never loses its last restore-tested one.
*/
module Retention {
  import opened Prelude

  type SnapshotId = nat

  datatype Snapshot = Snapshot(id: SnapshotId, engineId: string, createdAt: int)

  datatype RestoreTest = RestoreTest(snapshotId: SnapshotId, success: bool)

  // ── The rule ─────────────────────────────────────────────────────────────────

  function VerifiedIds(rts: seq<RestoreTest>): set<SnapshotId> {
    set rt | rt in rts && rt.success :: rt.snapshotId
  }

  /** Some position of the list holds a successful test of the snapshot. */
  ghost predicate Tested(rts: seq<RestoreTest>, id: SnapshotId) {
    exists k :: 0 <= k < |rts| && rts[k].snapshotId == id && rts[k].success
  }

  lemma VerifiedMeansTested(rts: seq<RestoreTest>, id: SnapshotId)
    ensures id in VerifiedIds(rts) <==> Tested(rts, id)
  {
    if k :| 0 <= k < |rts| && rts[k].snapshotId == id && rts[k].success {
      assert rts[k] in rts;
    }
  }

  /** One more test verifies its snapshot if it succeeded, and nothing otherwise. */
  lemma OneMoreTest(rts: seq<RestoreTest>, rt: RestoreTest)
    ensures VerifiedIds(rts + [rt]) == VerifiedIds(rts) + if rt.success then {rt.snapshotId} else {}
  {
    assert rt in rts + [rt];
    assert forall t :: t in rts ==> t in rts + [rt];
  }

  predicate VerifiedCandidate(candidates: seq<string>, verified: set<SnapshotId>, sn: Snapshot) {
    sn.id in verified && sn.engineId in candidates
  }

  predicate VerifiedSurvivor(candidates: seq<string>, verified: set<SnapshotId>, sn: Snapshot) {
    sn.id in verified && sn.engineId !in candidates
  }

  /** How many verified snapshots no candidate names. */
  function Survivors(candidates: seq<string>, snaps: seq<Snapshot>, verified: set<SnapshotId>): nat {
    if snaps == [] then 0
    else
      var last := |snaps| - 1;
      Survivors(candidates, snaps[..last], verified)
      + (if VerifiedSurvivor(candidates, verified, snaps[last]) then 1 else 0)
  }

  datatype Best = Best(time: int, engineId: string)

  /** The scan for the newest verified candidate; earlier entries win ties. */
  function Latest(candidates: seq<string>, snaps: seq<Snapshot>, verified: set<SnapshotId>): Best {
    if snaps == [] then Best(0, "")
    else
      var sn := snaps[|snaps| - 1];
      var b := Latest(candidates, snaps[..|snaps| - 1], verified);
      if VerifiedCandidate(candidates, verified, sn) && sn.createdAt > b.time then Best(sn.createdAt, sn.engineId) else b
  }

  /** The engine id a round must not delete, if any. */
  function Protect(candidates: seq<string>, snaps: seq<Snapshot>, verified: set<SnapshotId>): Option<string> {
    if Survivors(candidates, snaps, verified) > 0 then None
    else
      var b := Latest(candidates, snaps, verified);
      if b.engineId == "" then None else Some(b.engineId)
  }

  /** The candidates that are (`keep`) or are not the protected one, in order. */
  function Select(candidates: seq<string>, p: Option<string>, keep: bool): seq<string> {
    if candidates == [] then []
    else
      var last := |candidates| - 1;
      var front := Select(candidates[..last], p, keep);
      if (Some(candidates[last]) == p) == keep then front + [candidates[last]] else front
  }

  lemma {:induction false} SelectMembers(candidates: seq<string>, p: Option<string>, keep: bool)
    ensures forall id :: id in Select(candidates, p, keep) <==> id in candidates && ((Some(id) == p) == keep)
  {
    if candidates != [] {
      var last := |candidates| - 1;
      SelectMembers(candidates[..last], p, keep);
      assert candidates == candidates[..last] + [candidates[last]];
    }
  }

  /** Approved and protected lists share out the candidates, occurrence by occurrence. */
  lemma {:induction false} SelectPartitions(candidates: seq<string>, p: Option<string>)
    ensures multiset(Select(candidates, p, true)) + multiset(Select(candidates, p, false)) == multiset(candidates)
  {
    if candidates != [] {
      var last := |candidates| - 1;
      SelectPartitions(candidates[..last], p);
      assert candidates == candidates[..last] + [candidates[last]];
    }
  }

  /** The positions of the candidates that `Select` takes. */
  function Positions(candidates: seq<string>, p: Option<string>, keep: bool): seq<nat> {
    if candidates == [] then []
    else
      var last := |candidates| - 1;
      var front := Positions(candidates[..last], p, keep);
      if (Some(candidates[last]) == p) == keep then front + [last] else front
  }

  /** `taken` is `candidates` at the strictly increasing positions `at`. */
  ghost predicate TakenAt(candidates: seq<string>, at: seq<nat>, taken: seq<string>) {
    && |taken| == |at|
    && (forall i :: 0 <= i < |at| ==> at[i] < |candidates| && taken[i] == candidates[at[i]])
    && (forall i, j :: 0 <= i < j < |at| ==> at[i] < at[j])
  }

  lemma TakenFromLonger(candidates: seq<string>, at: seq<nat>, taken: seq<string>)
    requires candidates != [] && TakenAt(candidates[..|candidates| - 1], at, taken)
    ensures TakenAt(candidates, at, taken)
    ensures TakenAt(candidates, at + [|candidates| - 1], taken + [candidates[|candidates| - 1]])
  {
  }

  /** Both lists keep the candidates' order. */
  lemma {:induction false} SelectKeepsOrder(candidates: seq<string>, p: Option<string>, keep: bool)
    ensures TakenAt(candidates, Positions(candidates, p, keep), Select(candidates, p, keep))
  {
    if candidates != [] {
      var front := candidates[..|candidates| - 1];
      SelectKeepsOrder(front, p, keep);
      TakenFromLonger(candidates, Positions(front, p, keep), Select(front, p, keep));
    }
  }

  /** Every position of the candidates belongs to exactly one of the two lists. */
  lemma {:induction false} PositionsPartition(candidates: seq<string>, p: Option<string>, k: nat)
    requires k < |candidates|
    ensures k in Positions(candidates, p, true) <==> k !in Positions(candidates, p, false)
  {
    var last := |candidates| - 1;
    var front := candidates[..last];
    if k < last {
      PositionsPartition(front, p, k);
    } else {
      SelectKeepsOrder(front, p, true);
      SelectKeepsOrder(front, p, false);
    }
  }

  lemma {:induction false} SurvivorsExist(candidates: seq<string>, snaps: seq<Snapshot>, verified: set<SnapshotId>)
    ensures Survivors(candidates, snaps, verified) > 0
            <==> exists i :: 0 <= i < |snaps| && VerifiedSurvivor(candidates, verified, snaps[i])
  {
    if snaps != [] {
      var last := |snaps| - 1;
      SurvivorsExist(candidates, snaps[..last], verified);
      if i :| 0 <= i < last && VerifiedSurvivor(candidates, verified, snaps[..last][i]) {
        assert VerifiedSurvivor(candidates, verified, snaps[i]);
      }
      if i :| 0 <= i < |snaps| && VerifiedSurvivor(candidates, verified, snaps[i]) {
        assert i == last || VerifiedSurvivor(candidates, verified, snaps[..last][i]);
      }
    }
  }

  /** Index `i` is the newest verified candidate, the first of its time. */
  ghost predicate IsNewest(candidates: seq<string>, snaps: seq<Snapshot>, verified: set<SnapshotId>, i: nat) {
    && i < |snaps| && VerifiedCandidate(candidates, verified, snaps[i])
    && (forall k :: 0 <= k < |snaps| && VerifiedCandidate(candidates, verified, snaps[k]) ==>
          snaps[k].createdAt <= snaps[i].createdAt && (k < i ==> snaps[k].createdAt < snaps[i].createdAt))
  }

  lemma {:induction false} LatestIsNewest(candidates: seq<string>, snaps: seq<Snapshot>, verified: set<SnapshotId>) returns (i: nat)
    requires forall k :: 0 <= k < |snaps| ==> snaps[k].createdAt > 0
    ensures Latest(candidates, snaps, verified).time == 0 ==>
              Latest(candidates, snaps, verified).engineId == ""
              && forall k :: 0 <= k < |snaps| ==> !VerifiedCandidate(candidates, verified, snaps[k])
    ensures Latest(candidates, snaps, verified).time >= 0
    ensures Latest(candidates, snaps, verified).time > 0 ==>
              IsNewest(candidates, snaps, verified, i)
              && Latest(candidates, snaps, verified) == Best(snaps[i].createdAt, snaps[i].engineId)
  {
    i := 0;
    if snaps != [] {
      var last := |snaps| - 1;
      var front := snaps[..last];
      i := LatestIsNewest(candidates, front, verified);
      var b := Latest(candidates, front, verified);
      forall k | 0 <= k < |snaps| && VerifiedCandidate(candidates, verified, snaps[k]) && k < last
        ensures b.time > 0 && snaps[k].createdAt <= b.time
      {
        assert front[k] == snaps[k];
        assert VerifiedCandidate(candidates, verified, front[k]);
      }
      if VerifiedCandidate(candidates, verified, snaps[last]) && snaps[last].createdAt > b.time {
        i := last;
      } else if b.time > 0 {
        forall k | 0 <= k < |snaps| && VerifiedCandidate(candidates, verified, snaps[k])
          ensures snaps[k].createdAt <= snaps[i].createdAt && (k < i ==> snaps[k].createdAt < snaps[i].createdAt)
        {
          assert k < last ==> front[k] == snaps[k];
        }
      }
    }
  }

  /** Snapshots as the catalog stores them. */
  ghost predicate WellFormed(snaps: seq<Snapshot>) {
    forall k :: 0 <= k < |snaps| ==> snaps[k].createdAt > 0 && snaps[k].engineId != ""
  }

  /**
    Protection applies to exactly the newest verified candidate, and only when no verified
    snapshot would survive otherwise.
  */
  lemma ProtectExactly(candidates: seq<string>, snaps: seq<Snapshot>, verified: set<SnapshotId>)
    requires WellFormed(snaps)
    ensures Protect(candidates, snaps, verified).Some? <==>
              && (exists k :: 0 <= k < |snaps| && VerifiedCandidate(candidates, verified, snaps[k]))
              && !(exists k :: 0 <= k < |snaps| && VerifiedSurvivor(candidates, verified, snaps[k]))
    ensures Protect(candidates, snaps, verified).Some? ==>
              exists i: nat :: IsNewest(candidates, snaps, verified, i)
                && Protect(candidates, snaps, verified) == Some(snaps[i].engineId)
  {
    SurvivorsExist(candidates, snaps, verified);
    var i := LatestIsNewest(candidates, snaps, verified);
  }

  /** Row `i` has a successful test, and no tested row is newer. */
  ghost predicate NewestTested(snaps: seq<Snapshot>, rts: seq<RestoreTest>, i: nat) {
    && i < |snaps| && Tested(rts, snaps[i].id)
    && forall k :: 0 <= k < |snaps| && Tested(rts, snaps[k].id) ==> snaps[k].createdAt <= snaps[i].createdAt
  }

  /**
    The rule on the rows and the tests themselves. A tested row stays out of the approved list
    whenever there is one. What is protected is the newest tested row, if all tested rows are
    candidates, and nothing otherwise.
  */
  ghost predicate RuleOn(candidates: seq<string>, snaps: seq<Snapshot>, rts: seq<RestoreTest>,
                         approved: seq<string>, protectedList: seq<string>) {
    && ((exists i :: 0 <= i < |snaps| && Tested(rts, snaps[i].id)) ==>
          exists i :: 0 <= i < |snaps| && Tested(rts, snaps[i].id) && snaps[i].engineId !in approved)
    && (protectedList != [] ==>
          && (forall i :: 0 <= i < |snaps| && Tested(rts, snaps[i].id) ==> snaps[i].engineId in candidates)
          && exists i: nat :: NewestTested(snaps, rts, i) && forall id :: id in protectedList ==> id == snaps[i].engineId)
    && (protectedList == [] ==>
          || (forall i :: 0 <= i < |snaps| ==> !Tested(rts, snaps[i].id))
          || (exists i :: 0 <= i < |snaps| && Tested(rts, snaps[i].id) && snaps[i].engineId !in candidates))
  }

  lemma RuleHolds(candidates: seq<string>, snaps: seq<Snapshot>, rts: seq<RestoreTest>)
    requires WellFormed(snaps)
    ensures var p := Protect(candidates, snaps, VerifiedIds(rts));
            RuleOn(candidates, snaps, rts, Select(candidates, p, false), Select(candidates, p, true))
  {
    var verified := VerifiedIds(rts);
    var p := Protect(candidates, snaps, verified);
    forall id ensures id in verified <==> Tested(rts, id) {
      VerifiedMeansTested(rts, id);
    }
    ProtectExactly(candidates, snaps, verified);
    ProtectedIsListed(candidates, snaps, verified);
    SelectMembers(candidates, p, false);
    if p.Some? {
      var i: nat :| IsNewest(candidates, snaps, verified, i) && p == Some(snaps[i].engineId);
      forall k | 0 <= k < |snaps| && Tested(rts, snaps[k].id)
        ensures snaps[k].engineId in candidates && snaps[k].createdAt <= snaps[i].createdAt
      {
        assert !VerifiedSurvivor(candidates, verified, snaps[k]);
        assert VerifiedCandidate(candidates, verified, snaps[k]);
      }
      assert NewestTested(snaps, rts, i) && snaps[i].engineId !in Select(candidates, p, false);
    } else if i :| 0 <= i < |snaps| && Tested(rts, snaps[i].id) {
      if k :| 0 <= k < |snaps| && VerifiedSurvivor(candidates, verified, snaps[k]) {
        assert Tested(rts, snaps[k].id) && snaps[k].engineId !in Select(candidates, p, false);
      } else {
        assert VerifiedCandidate(candidates, verified, snaps[i]);
      }
    }
  }

  /** The protected list holds nothing but the protected id, and is empty only if none is protected. */
  lemma ProtectedIsListed(candidates: seq<string>, snaps: seq<Snapshot>, verified: set<SnapshotId>)
    ensures var p := Protect(candidates, snaps, verified);
            && (forall id :: id in Select(candidates, p, true) ==> p == Some(id))
            && (p == None ==> Select(candidates, p, true) == [])
            && (WellFormed(snaps) && p.Some? ==> p.value in Select(candidates, p, true))
  {
    var p := Protect(candidates, snaps, verified);
    var listed := Select(candidates, p, true);
    SelectMembers(candidates, p, true);
    assert listed == [] || listed[0] in listed;
    if WellFormed(snaps) && p.Some? {
      ProtectExactly(candidates, snaps, verified);
    }
  }

  /** The handler, loop by loop. */
  method Validate(candidates: seq<string>, snaps: seq<Snapshot>, rts: seq<RestoreTest>)
    returns (approved: seq<string>, protectedList: seq<string>)
    ensures approved == Approved(candidates, snaps, VerifiedIds(rts))
    ensures protectedList == Select(candidates, Protect(candidates, snaps, VerifiedIds(rts)), true)
    ensures multiset(approved) + multiset(protectedList) == multiset(candidates)
    ensures WellFormed(snaps) ==> RuleOn(candidates, snaps, rts, approved, protectedList)
  {
    if WellFormed(snaps) {
      RuleHolds(candidates, snaps, rts);
    }
    if candidates == [] {
      return [], [];
    }
    var verified := CollectVerified(rts);
    var surviving := CountSurvivors(candidates, snaps, verified);
    var protected: Option<string> := None;
    if surviving == 0 {
      var latest := FindLatest(candidates, snaps, verified);
      if latest.engineId != "" {
        protected := Some(latest.engineId);
      }
    }
    approved, protectedList := Split(candidates, protected);
    SelectPartitions(candidates, protected);
  }

  method CollectVerified(rts: seq<RestoreTest>) returns (verified: set<SnapshotId>)
    ensures verified == VerifiedIds(rts)
    ensures forall id :: id in verified <==> Tested(rts, id)
  {
    verified := {};
    for n := 0 to |rts|
      invariant verified == VerifiedIds(rts[..n])
    {
      assert rts[..n + 1] == rts[..n] + [rts[n]];
      if rts[n].success {
        verified := verified + {rts[n].snapshotId};
      }
    }
    assert rts[..|rts|] == rts;
    forall id ensures id in verified <==> Tested(rts, id) {
      VerifiedMeansTested(rts, id);
    }
  }

  method CountSurvivors(candidates: seq<string>, snaps: seq<Snapshot>, verified: set<SnapshotId>) returns (surviving: nat)
    ensures surviving == Survivors(candidates, snaps, verified)
  {
    surviving := 0;
    for n := 0 to |snaps|
      invariant surviving == Survivors(candidates, snaps[..n], verified)
    {
      assert snaps[..n + 1][..n] == snaps[..n];
      if snaps[n].id in verified && snaps[n].engineId !in candidates {
        surviving := surviving + 1;
      }
    }
    assert snaps[..|snaps|] == snaps;
  }

  method FindLatest(candidates: seq<string>, snaps: seq<Snapshot>, verified: set<SnapshotId>) returns (latest: Best)
    ensures latest == Latest(candidates, snaps, verified)
  {
    latest := Best(0, "");
    for n := 0 to |snaps|
      invariant latest == Latest(candidates, snaps[..n], verified)
    {
      assert snaps[..n + 1][..n] == snaps[..n];
      if snaps[n].id in verified && snaps[n].engineId in candidates {
        if snaps[n].createdAt > latest.time {
          latest := Best(snaps[n].createdAt, snaps[n].engineId);
        }
      }
    }
    assert snaps[..|snaps|] == snaps;
  }

  method Split(candidates: seq<string>, protected: Option<string>) returns (approved: seq<string>, protectedList: seq<string>)
    ensures approved == Select(candidates, protected, false)
    ensures protectedList == Select(candidates, protected, true)
  {
    approved, protectedList := [], [];
    for n := 0 to |candidates|
      invariant approved == Select(candidates[..n], protected, false)
      invariant protectedList == Select(candidates[..n], protected, true)
    {
      assert candidates[..n + 1][..n] == candidates[..n];
      if Some(candidates[n]) == protected {
        protectedList := protectedList + [candidates[n]];
      } else {
        approved := approved + [candidates[n]];
      }
    }
    assert candidates[..|candidates|] == candidates;
  }

  /**
    The clean-up of the completion handler: the rows whose engine id was reported as removed go,
    except those whose delete fails.
  */
  method RemoveFromCatalog(snaps: seq<Snapshot>, removed: seq<string>, failing: set<SnapshotId>)
    returns (kept: seq<Snapshot>)
    ensures forall sn :: sn in kept <==> sn in snaps && (sn.engineId !in removed || sn.id in failing)
  {
    kept := [];
    for n := 0 to |snaps|
      invariant forall sn :: sn in kept <==> sn in snaps[..n] && (sn.engineId !in removed || sn.id in failing)
    {
      if snaps[n].engineId !in removed || snaps[n].id in failing {
        kept := kept + [snaps[n]];
      }
    }
  }

  // ── Two validations of one catalog ───────────────────────────────────────────

  /** What a validation of `candidates` approves. */
  function Approved(candidates: seq<string>, snaps: seq<Snapshot>, verified: set<SnapshotId>): seq<string> {
    Select(candidates, Protect(candidates, snaps, verified), false)
  }

  /** All verified snapshots are candidates. */
  ghost predicate Covers(candidates: seq<string>, snaps: seq<Snapshot>, verified: set<SnapshotId>) {
    forall k :: 0 <= k < |snaps| && snaps[k].id in verified ==> snaps[k].engineId in candidates
  }

  function EngineIds(snaps: seq<Snapshot>): seq<string> {
    seq(|snaps|, i requires 0 <= i < |snaps| => snaps[i].engineId)
  }

  /** The engine id of the newest verified snapshot. */
  function NewestVerified(snaps: seq<Snapshot>, verified: set<SnapshotId>): string {
    Latest(EngineIds(snaps), snaps, verified).engineId
  }

  /** The scan only asks whether verified snapshots are candidates. */
  lemma {:induction false} LatestOfCovering(c: seq<string>, d: seq<string>, snaps: seq<Snapshot>, verified: set<SnapshotId>)
    requires Covers(c, snaps, verified) && Covers(d, snaps, verified)
    ensures Latest(c, snaps, verified) == Latest(d, snaps, verified)
  {
    if snaps != [] {
      var front := snaps[..|snaps| - 1];
      assert forall k :: 0 <= k < |front| ==> front[k] == snaps[k];
      LatestOfCovering(c, d, front, verified);
    }
  }

  /** A list that covers all verified snapshots protects the newest of them; any other protects nothing. */
  lemma ProtectByCoverage(candidates: seq<string>, snaps: seq<Snapshot>, verified: set<SnapshotId>)
    requires WellFormed(snaps) && exists k :: 0 <= k < |snaps| && snaps[k].id in verified
    ensures Protect(candidates, snaps, verified)
            == if Covers(candidates, snaps, verified) then Some(NewestVerified(snaps, verified)) else None
  {
    ProtectExactly(candidates, snaps, verified);
    if Covers(candidates, snaps, verified) {
      var k :| 0 <= k < |snaps| && snaps[k].id in verified;
      assert VerifiedCandidate(candidates, verified, snaps[k]);
      AllCovered(snaps, verified);
      LatestOfCovering(candidates, EngineIds(snaps), snaps, verified);
    } else {
      var k :| 0 <= k < |snaps| && snaps[k].id in verified && snaps[k].engineId !in candidates;
      assert VerifiedSurvivor(candidates, verified, snaps[k]);
    }
  }

  lemma AllCovered(snaps: seq<Snapshot>, verified: set<SnapshotId>)
    ensures Covers(EngineIds(snaps), snaps, verified)
  {
    forall k | 0 <= k < |snaps| ensures snaps[k].engineId in EngineIds(snaps) {
      assert EngineIds(snaps)[k] == snaps[k].engineId;
    }
  }

  /** Row `k` is a verified snapshot that neither list may delete. */
  ghost predicate SparedByBoth(c: seq<string>, d: seq<string>, snaps: seq<Snapshot>, verified: set<SnapshotId>, k: nat) {
    && k < |snaps| && snaps[k].id in verified
    && snaps[k].engineId !in Approved(c, snaps, verified)
    && snaps[k].engineId !in Approved(d, snaps, verified)
  }

  /** The lists that together take every verified snapshot. */
  ghost predicate TakeEverything(c: seq<string>, d: seq<string>, snaps: seq<Snapshot>, verified: set<SnapshotId>) {
    if Covers(c, snaps, verified) then
      !Covers(d, snaps, verified) && NewestVerified(snaps, verified) in d
    else if Covers(d, snaps, verified) then
      NewestVerified(snaps, verified) in c
    else
      forall k :: 0 <= k < |snaps| && snaps[k].id in verified ==> snaps[k].engineId in c || snaps[k].engineId in d
  }

  lemma ApprovedByCoverage(candidates: seq<string>, snaps: seq<Snapshot>, verified: set<SnapshotId>)
    requires WellFormed(snaps) && exists k :: 0 <= k < |snaps| && snaps[k].id in verified
    ensures forall id :: id in Approved(candidates, snaps, verified) <==>
              id in candidates && (Covers(candidates, snaps, verified) ==> id != NewestVerified(snaps, verified))
  {
    ProtectByCoverage(candidates, snaps, verified);
    SelectMembers(candidates, Protect(candidates, snaps, verified), false);
  }

  lemma NewestIsThere(snaps: seq<Snapshot>, verified: set<SnapshotId>) returns (i: nat)
    requires WellFormed(snaps) && exists k :: 0 <= k < |snaps| && snaps[k].id in verified
    ensures i < |snaps| && snaps[i].id in verified && snaps[i].engineId == NewestVerified(snaps, verified)
  {
    AllCovered(snaps, verified);
    i := LatestIsNewest(EngineIds(snaps), snaps, verified);
    var k :| 0 <= k < |snaps| && snaps[k].id in verified;
    assert VerifiedCandidate(EngineIds(snaps), verified, snaps[k]);
  }

  /**
    Two validations of one catalog, neither completed before the other: a verified snapshot is
    spared by both exactly when the two candidate lists do not take everything between them.
  */
  lemma TwoValidationsIff(c: seq<string>, d: seq<string>, snaps: seq<Snapshot>, verified: set<SnapshotId>)
    requires WellFormed(snaps) && exists k :: 0 <= k < |snaps| && snaps[k].id in verified
    ensures (exists k: nat :: SparedByBoth(c, d, snaps, verified, k)) <==> !TakeEverything(c, d, snaps, verified)
  {
    ApprovedByCoverage(c, snaps, verified);
    ApprovedByCoverage(d, snaps, verified);
    var n := NewestIsThere(snaps, verified);
    if !TakeEverything(c, d, snaps, verified) {
      if Covers(c, snaps, verified) || Covers(d, snaps, verified) {
        assert SparedByBoth(c, d, snaps, verified, n);
      } else {
        var k :| 0 <= k < |snaps| && snaps[k].id in verified && snaps[k].engineId !in c && snaps[k].engineId !in d;
        assert SparedByBoth(c, d, snaps, verified, k);
      }
    }
  }

  /** In any catalog with two verified snapshots one list with the one and one with all others take everything. */
  lemma OverlappingRoundsApproveEverything(snaps: seq<Snapshot>, verified: set<SnapshotId>, a: nat, b: nat)
    requires WellFormed(snaps) && a < |snaps| && b < |snaps| && snaps[a].id in verified && snaps[b].id in verified
    requires snaps[a].engineId != snaps[b].engineId
    ensures var one := snaps[a].engineId;
            forall k: nat :: !SparedByBoth([one], Without(EngineIds(snaps), one), snaps, verified, k)
  {
    var one := snaps[a].engineId;
    var rest := Without(EngineIds(snaps), one);
    assert snaps[b].engineId !in [one];
    assert snaps[a].engineId !in rest;
    AllCovered(snaps, verified);
    TwoValidationsIff([one], rest, snaps, verified);
  }

  function Without(ids: seq<string>, one: string): (rest: seq<string>)
    ensures forall id :: id in rest <==> id in ids && id != one
  {
    if ids == [] then []
    else if ids[0] == one then Without(ids[1..], one)
    else [ids[0]] + Without(ids[1..], one)
  }

  // ── Whole runs ───────────────────────────────────────────────────────────────

  /**
    One system. `open` holds the approved lists of all rounds that have neither completed nor
    failed; the control plane keeps no record of them, so any number may be outstanding. `stored`
    are the engine ids whose data is still in a repository, `tests` all finished restore tests.
  */
  datatype State = State(
    snaps: seq<Snapshot>,
    issued: set<SnapshotId>,
    tests: seq<RestoreTest>,
    open: seq<seq<string>>,
    stored: set<string>)
  {
    const verified: set<SnapshotId> := VerifiedIds(tests)
  }

  datatype Step =
    | Backup(sn: Snapshot)
    | TestEnds(rt: RestoreTest)
    | ValidateRound(candidates: seq<string>)
    | RemoveData(r: nat, ids: set<string>)
    | CompleteRound(r: nat, kept: seq<Snapshot>)
    | FailRound(r: nat)

  /** A completed round deletes catalog rows of its approved ids only, possibly not all of them. */
  ghost predicate DeletesApproved(s: State, r: nat, kept: seq<Snapshot>) {
    && r < |s.open|
    && (forall i :: 0 <= i < |kept| ==> kept[i] in s.snaps)
    && (forall i :: 0 <= i < |s.snaps| && s.snaps[i] !in kept ==> s.snaps[i].engineId in s.open[r])
  }

  /** So a report naming approved ids only makes `RemoveFromCatalog` a legal completion. */
  lemma HonestReportDeletesApproved(s: State, r: nat, removed: seq<string>, failing: set<SnapshotId>, kept: seq<Snapshot>)
    requires r < |s.open| && forall id :: id in removed ==> id in s.open[r]
    requires forall sn :: sn in kept <==> sn in s.snaps && (sn.engineId !in removed || sn.id in failing)
    ensures DeletesApproved(s, r, kept)
  {
  }

  /** Validation is never refused; the agent removes data of approved ids only, before it reports. */
  ghost predicate Enabled(s: State, step: Step) {
    match step
    case Backup(sn) => sn.id !in s.issued && sn.createdAt > 0 && sn.engineId != ""
    case TestEnds(rt) => exists i :: 0 <= i < |s.snaps| && s.snaps[i].id == rt.snapshotId
    case ValidateRound(_) => true
    case RemoveData(r, ids) => r < |s.open| && forall id :: id in ids ==> id in s.open[r]
    case CompleteRound(r, kept) => DeletesApproved(s, r, kept)
    case FailRound(r) => r < |s.open|
  }

  ghost function Do(s: State, step: Step): State
    requires Enabled(s, step)
  {
    match step
    case Backup(sn) => s.(snaps := [sn] + s.snaps, issued := s.issued + {sn.id}, stored := s.stored + {sn.engineId})
    case TestEnds(rt) => s.(tests := s.tests + [rt])
    case ValidateRound(candidates) => s.(open := s.open + [Approved(candidates, s.snaps, s.verified)])
    case RemoveData(_, ids) => s.(stored := s.stored - ids)
    case CompleteRound(r, kept) => s.(snaps := kept, open := Settled(s.open, r))
    case FailRound(r) => s.(open := Settled(s.open, r))
  }

  /** The outstanding lists without the one that completed or failed. */
  function Settled(open: seq<seq<string>>, r: nat): seq<seq<string>>
    requires r < |open|
  {
    open[..r] + open[r + 1..]
  }

  ghost predicate Outstanding(s: State, id: string) { exists r :: 0 <= r < |s.open| && id in s.open[r] }

  /** In what sense a restore-tested snapshot is to remain: as a catalog row, or with its data. */
  datatype Sense = AsRow | AsData

  ghost predicate Counts(w: Sense, s: State, sn: Snapshot) {
    sn.id in s.verified && (w.AsData? ==> sn.engineId in s.stored)
  }

  ghost predicate HasVerified(w: Sense, s: State) {
    exists i :: 0 <= i < |s.snaps| && Counts(w, s, s.snaps[i])
  }

  /** A verified snapshot outside all outstanding lists. */
  ghost predicate SafeAt(w: Sense, s: State, i: nat) {
    i < |s.snaps| && Counts(w, s, s.snaps[i]) && !Outstanding(s, s.snaps[i].engineId)
  }

  ghost predicate Safe(w: Sense, s: State) { exists i: nat :: SafeAt(w, s, i) }

  // ── One step ─────────────────────────────────────────────────────────────────

  lemma StepKeepsRows(s: State, step: Step)
    requires WellFormed(s.snaps) && Enabled(s, step)
    ensures WellFormed(Do(s, step).snaps)
  {
    var t := Do(s, step);
    if step.CompleteRound? {
      forall k | 0 <= k < |t.snaps| ensures t.snaps[k].createdAt > 0 && t.snaps[k].engineId != "" {
        assert t.snaps[k] in s.snaps;
      }
    }
  }

  lemma SettlingFrees(open: seq<seq<string>>, r: nat)
    requires r < |open|
    ensures forall list :: list in Settled(open, r) ==> list in open
  {
  }

  /** Only a validation can endanger a snapshot that no outstanding list names. */
  lemma OthersKeepSafe(w: Sense, s: State, step: Step)
    requires Enabled(s, step) && !step.ValidateRound? && Safe(w, s)
    ensures Safe(w, Do(s, step))
  {
    var t := Do(s, step);
    var i: nat :| SafeAt(w, s, i);
    match step {
      case Backup(sn) => assert t.snaps[i + 1] == s.snaps[i] && SafeAt(w, t, i + 1);
      case TestEnds(rt) => OneMoreTest(s.tests, rt); assert SafeAt(w, t, i);
      case RemoveData(r, ids) => assert SafeAt(w, t, i);
      case CompleteRound(r, kept) =>
        SettlingFrees(s.open, r);
        assert s.snaps[i] in kept;
        var j :| 0 <= j < |kept| && kept[j] == s.snaps[i];
        assert SafeAt(w, t, j);
      case FailRound(r) =>
        SettlingFrees(s.open, r);
        assert SafeAt(w, t, i);
    }
  }

  /** What a caller can check before it sends `candidates`: a safe snapshot is left out, or is the protected one. */
  ghost predicate MayValidate(w: Sense, s: State, candidates: seq<string>) {
    exists i: nat :: SafeAt(w, s, i)
      && (s.snaps[i].engineId !in candidates
          || Protect(candidates, s.snaps, s.verified) == Some(s.snaps[i].engineId))
  }

  /** A validation leaves a verified snapshot outside all outstanding lists exactly in this case. */
  lemma ValidationKeepsSafeIff(w: Sense, s: State, candidates: seq<string>)
    ensures Safe(w, Do(s, ValidateRound(candidates))) <==> MayValidate(w, s, candidates)
  {
    var t := Do(s, ValidateRound(candidates));
    var approved := Approved(candidates, s.snaps, s.verified);
    SelectMembers(candidates, Protect(candidates, s.snaps, s.verified), false);
    forall id ensures Outstanding(t, id) <==> Outstanding(s, id) || id in approved {
      if Outstanding(s, id) {
        var r :| 0 <= r < |s.open| && id in s.open[r];
        assert id in t.open[r];
      }
      if id in approved {
        assert id in t.open[|s.open|];
      }
    }
    forall i: nat
      ensures SafeAt(w, t, i) <==>
                SafeAt(w, s, i)
                && (s.snaps[i].engineId !in candidates
                    || Protect(candidates, s.snaps, s.verified) == Some(s.snaps[i].engineId))
    {
    }
  }

  /** With nothing outstanding, rows alone are always safe; data are if no verified row has lost its own. */
  lemma NothingOutstandingMayValidate(w: Sense, s: State, candidates: seq<string>)
    requires WellFormed(s.snaps) && HasVerified(w, s) && forall id :: !Outstanding(s, id)
    requires w.AsData? ==> forall i :: 0 <= i < |s.snaps| && s.snaps[i].id in s.verified ==> s.snaps[i].engineId in s.stored
    ensures MayValidate(w, s, candidates)
  {
    var h :| 0 <= h < |s.snaps| && Counts(w, s, s.snaps[h]);
    ProtectByCoverage(candidates, s.snaps, s.verified);
    if Covers(candidates, s.snaps, s.verified) {
      var n := NewestIsThere(s.snaps, s.verified);
      assert SafeAt(w, s, n);
    } else {
      var k :| 0 <= k < |s.snaps| && s.snaps[k].id in s.verified && s.snaps[k].engineId !in candidates;
      assert SafeAt(w, s, k);
    }
  }

  /** So with nothing outstanding a validation always leaves a verified row outside the approved list. */
  lemma ValidationIsSafe(s: State, candidates: seq<string>)
    requires WellFormed(s.snaps) && HasVerified(AsRow, s) && s.open == []
    ensures Safe(AsRow, Do(s, ValidateRound(candidates)))
  {
    NothingOutstandingMayValidate(AsRow, s, candidates);
    ValidationKeepsSafeIff(AsRow, s, candidates);
  }

  /** Every verified row still has its data. */
  ghost predicate VerifiedStored(s: State) {
    forall i :: 0 <= i < |s.snaps| && s.snaps[i].id in s.verified ==> s.snaps[i].engineId in s.stored
  }

  /** Engine ids of the rows whose data is still there. */
  function StoredIds(snaps: seq<Snapshot>, stored: set<string>): (ids: seq<string>)
    ensures forall id :: id in ids <==> id in stored && exists k :: 0 <= k < |snaps| && snaps[k].engineId == id
  {
    if snaps == [] then []
    else
      var rest := StoredIds(snaps[1..], stored);
      assert forall k :: 0 <= k < |snaps[1..]| ==> snaps[1..][k] == snaps[k + 1];
      assert forall k :: 0 < k < |snaps| ==> snaps[k] == snaps[1..][k - 1];
      if snaps[0].engineId in stored then [snaps[0].engineId] + rest else rest
  }

  /**
    With nothing outstanding, whatever the candidates, a verified snapshot with its data stays out
    of reach exactly when there is one and no verified row has lost its data.
  */
  lemma AnyValidationIsSafeIff(s: State)
    requires WellFormed(s.snaps) && s.open == []
    ensures (forall candidates :: MayValidate(AsData, s, candidates)) <==> HasVerified(AsData, s) && VerifiedStored(s)
  {
    if HasVerified(AsData, s) && VerifiedStored(s) {
      forall candidates ensures MayValidate(AsData, s, candidates) {
        NothingOutstandingMayValidate(AsData, s, candidates);
      }
    } else if HasVerified(AsData, s) {
      var lost :| 0 <= lost < |s.snaps| && s.snaps[lost].id in s.verified && s.snaps[lost].engineId !in s.stored;
      var candidates := StoredIds(s.snaps, s.stored);
      assert !Covers(candidates, s.snaps, s.verified);
      ProtectByCoverage(candidates, s.snaps, s.verified);
      assert !MayValidate(AsData, s, candidates);
    } else {
      assert !MayValidate(AsData, s, []);
    }
  }

  // ── Runs ─────────────────────────────────────────────────────────────────────

  /** What the participants of a run keep to, beyond what the handlers enforce. */
  datatype Rule =
    | Anything
    | Asking(w: Sense)
    | OneAtATime(w: Sense)
    | NoFurtherRound
    | CleanRounds

  ghost predicate Obeys(rule: Rule, s: State, step: Step) {
    && Enabled(s, step)
    && match rule
       case Anything => true
       case Asking(w) => step.ValidateRound? && Safe(w, s) ==> MayValidate(w, s, step.candidates)
       case OneAtATime(w) => step.ValidateRound? ==> s.open == [] && (w.AsData? ==> VerifiedStored(s))
       case NoFurtherRound => !step.ValidateRound?
       case CleanRounds => (step.ValidateRound? ==> s.open == []) && LeavesNoEmptyRow(s, step)
  }

  /** A round that ends leaves no row of its list whose data it has removed. */
  ghost predicate LeavesNoEmptyRow(s: State, step: Step)
    requires Enabled(s, step)
  {
    match step
    case CompleteRound(r, kept) => forall sn :: sn in kept && sn.engineId in s.open[r] ==> sn.engineId in s.stored
    case FailRound(r) => forall sn :: sn in s.snaps && sn.engineId in s.open[r] ==> sn.engineId in s.stored
    case _ => true
  }

  ghost predicate Next(rule: Rule, s: State, t: State) {
    exists step :: Obeys(rule, s, step) && t == Do(s, step)
  }

  ghost predicate IsRun(rule: Rule, run: seq<State>) {
    && run != [] && Kept(rule, run[0])
    && forall i :: 0 <= i < |run| - 1 ==> Next(rule, run[i], run[i + 1])
  }

  /** What every step keeps besides safety. */
  ghost predicate Kept(rule: Rule, s: State) {
    WellFormed(s.snaps) && (rule.CleanRounds? ==> MissingIsOutstanding(s))
  }

  /** Data missing from a row is only ever data of an outstanding round. */
  ghost predicate MissingIsOutstanding(s: State) {
    forall i :: 0 <= i < |s.snaps| ==> s.snaps[i].engineId in s.stored || Outstanding(s, s.snaps[i].engineId)
  }

  lemma SettledKeepsOthers(s: State, r: nat, id: string)
    requires r < |s.open| && Outstanding(s, id) && id !in s.open[r]
    ensures exists q :: 0 <= q < |Settled(s.open, r)| && id in Settled(s.open, r)[q]
  {
    var q :| 0 <= q < |s.open| && id in s.open[q];
    assert Settled(s.open, r)[if q < r then q else q - 1] == s.open[q];
  }

  lemma CleanKeepsData(s: State, step: Step)
    requires Enabled(s, step) && LeavesNoEmptyRow(s, step) && MissingIsOutstanding(s)
    ensures MissingIsOutstanding(Do(s, step))
  {
    var t := Do(s, step);
    forall i | 0 <= i < |t.snaps| ensures t.snaps[i].engineId in t.stored || Outstanding(t, t.snaps[i].engineId) {
      var id := t.snaps[i].engineId;
      match step {
        case Backup(sn) => assert i > 0 ==> t.snaps[i] == s.snaps[i - 1];
        case TestEnds(_) => assert t.snaps[i] == s.snaps[i];
        case ValidateRound(_) => StaysOutstanding(s, t, id);
        case RemoveData(r, ids) => assert t.snaps[i] == s.snaps[i] && (id in ids ==> id in t.open[r]);
        case CompleteRound(r, kept) =>
          assert t.snaps[i] in kept && t.snaps[i] in s.snaps;
          if id !in s.stored { SettledKeepsOthers(s, r, id); }
        case FailRound(r) =>
          assert t.snaps[i] in s.snaps;
          if id !in s.stored { SettledKeepsOthers(s, r, id); }
      }
    }
  }

  lemma StaysOutstanding(s: State, t: State, id: string)
    requires |s.open| <= |t.open| && forall r :: 0 <= r < |s.open| ==> t.open[r] == s.open[r]
    ensures Outstanding(s, id) ==> Outstanding(t, id)
  {
    if Outstanding(s, id) {
      var r :| 0 <= r < |s.open| && id in s.open[r];
      assert id in t.open[r];
    }
  }

  lemma StepKeepsKept(rule: Rule, s: State, step: Step)
    requires Kept(rule, s) && Obeys(rule, s, step)
    ensures Kept(rule, Do(s, step))
  {
    StepKeepsRows(s, step);
    if rule.CleanRounds? {
      CleanKeepsData(s, step);
    }
  }

  /** The rules under which a safe snapshot stays safe. */
  predicate Protects(rule: Rule, w: Sense) {
    match rule
    case Anything => false
    case Asking(v) => v == w
    case OneAtATime(v) => v == w
    case NoFurtherRound => true
    case CleanRounds => w.AsData?
  }

  lemma StepKeepsSafe(rule: Rule, w: Sense, s: State, step: Step)
    requires Protects(rule, w) && Kept(rule, s) && Obeys(rule, s, step) && Safe(w, s)
    ensures Safe(w, Do(s, step))
  {
    if step.ValidateRound? {
      if !rule.Asking? {
        var i: nat :| SafeAt(w, s, i);
        NothingOutstandingMayValidate(w, s, step.candidates);
      }
      ValidationKeepsSafeIff(w, s, step.candidates);
    } else {
      OthersKeepSafe(w, s, step);
    }
  }

  lemma {:induction false} SafeForever(rule: Rule, w: Sense, run: seq<State>, i: nat, k: nat)
    requires Protects(rule, w) && IsRun(rule, run) && i <= k < |run|
    ensures Kept(rule, run[k])
    ensures Safe(w, run[i]) ==> Safe(w, run[k])
  {
    if k > 0 {
      SafeForever(rule, w, run, if i < k then i else 0, k - 1);
      assert Next(rule, run[k - 1], run[k - 1 + 1]);
      var step :| Obeys(rule, run[k - 1], step) && run[k] == Do(run[k - 1], step);
      StepKeepsKept(rule, run[k - 1], step);
      if i < k && Safe(w, run[i]) {
        StepKeepsSafe(rule, w, run[k - 1], step);
      }
    }
  }

  /**
    A system that has a restore-tested snapshot while nothing is outstanding keeps one for ever,
    over any sequence of rounds that do not overlap, backups, further tests and data removals:
    always a catalog row, and its data too if no validation meets a verified row without data.
  */
  lemma AlwaysOneRestoreTested(w: Sense, run: seq<State>, i: nat, k: nat)
    requires IsRun(OneAtATime(w), run) && i <= k < |run|
    requires HasVerified(w, run[i]) && run[i].open == []
    ensures HasVerified(w, run[k])
    ensures exists h :: 0 <= h < |run[k].snaps| && Tested(run[k].tests, run[k].snaps[h].id)
  {
    var h :| 0 <= h < |run[i].snaps| && Counts(w, run[i], run[i].snaps[h]);
    assert SafeAt(w, run[i], h);
    SafeForever(OneAtATime(w), w, run, i, k);
    var g :| 0 <= g < |run[k].snaps| && Counts(w, run[k], run[k].snaps[g]);
    VerifiedMeansTested(run[k].tests, run[k].snaps[g].id);
  }

  /** Over rounds that leave no row without data, what remains has its data, not only its row. */
  lemma AlwaysOneStored(run: seq<State>, i: nat, k: nat)
    requires IsRun(CleanRounds, run) && i <= k < |run|
    requires HasVerified(AsRow, run[i]) && run[i].open == []
    ensures HasVerified(AsData, run[k])
  {
    SafeForever(CleanRounds, AsData, run, 0, i);
    var h :| 0 <= h < |run[i].snaps| && Counts(AsRow, run[i], run[i].snaps[h]);
    assert SafeAt(AsData, run[i], h);
    SafeForever(CleanRounds, AsData, run, i, k);
  }

  // ── Exactly when nothing can be lost ─────────────────────────────────────────

  /** However the outstanding rounds end, as long as no further one is validated. */
  ghost predicate KeepsOneForever(w: Sense, s: State) {
    forall run: seq<State>, k: nat :: IsRun(NoFurtherRound, run) && run[0] == s && k < |run| ==> HasVerified(w, run[k])
  }

  /** Without a safe snapshot the outstanding rounds, completed one after the other, can take everything. */
  lemma {:induction false} CompleteAll(w: Sense, s: State) returns (run: seq<State>)
    requires WellFormed(s.snaps) && !Safe(w, s)
    ensures IsRun(NoFurtherRound, run) && run[0] == s && !HasVerified(w, run[|run| - 1])
    decreases |s.open|
  {
    if s.open == [] {
      run := [s];
      forall i | 0 <= i < |s.snaps| ensures !Counts(w, s, s.snaps[i]) {
        assert !SafeAt(w, s, i);
      }
    } else {
      var t := CompleteFirst(w, s);
      var rest := CompleteAll(w, t);
      run := Prepend(s, rest);
    }
  }

  lemma Prepend(s: State, rest: seq<State>) returns (run: seq<State>)
    requires IsRun(NoFurtherRound, rest) && WellFormed(s.snaps) && Next(NoFurtherRound, s, rest[0])
    ensures run == [s] + rest && IsRun(NoFurtherRound, run)
  {
    run := [s] + rest;
    forall i | 0 <= i < |run| - 1 ensures Next(NoFurtherRound, run[i], run[i + 1]) {
      if i > 0 {
        assert Next(NoFurtherRound, rest[i - 1], rest[i - 1 + 1]);
      }
    }
  }

  lemma CompleteFirst(w: Sense, s: State) returns (t: State)
    requires WellFormed(s.snaps) && !Safe(w, s) && s.open != []
    ensures Next(NoFurtherRound, s, t)
    ensures WellFormed(t.snaps) && !Safe(w, t) && |t.open| == |s.open| - 1
  {
    var kept := Undeleted(s.snaps, s.open[0]);
    var step := CompleteRound(0, kept);
    t := Do(s, step);
    StepKeepsRows(s, step);
    forall j: nat ensures !SafeAt(w, t, j) {
      if SafeAt(w, t, j) {
        assert kept[j] in s.snaps;
        var i :| 0 <= i < |s.snaps| && s.snaps[i] == kept[j];
        forall r | 0 <= r < |s.open| ensures s.snaps[i].engineId !in s.open[r] {
          assert r > 0 ==> t.open[r - 1] == s.open[r];
        }
        assert SafeAt(w, s, i);
      }
    }
    assert Obeys(NoFurtherRound, s, step);
  }

  /**
    While no further round is validated, a restore-tested snapshot is kept for ever if and only if
    one lies outside all outstanding lists. It fails for a snapshot first tested while approved.
  */
  lemma KeepsOneForeverIff(w: Sense, s: State)
    requires WellFormed(s.snaps)
    ensures KeepsOneForever(w, s) <==> Safe(w, s)
  {
    if Safe(w, s) {
      forall run: seq<State>, k: nat | IsRun(NoFurtherRound, run) && run[0] == s && k < |run|
        ensures HasVerified(w, run[k])
      {
        SafeForever(NoFurtherRound, w, run, 0, k);
        var i: nat :| SafeAt(w, run[k], i);
      }
    } else {
      var run := CompleteAll(w, s);
      assert IsRun(NoFurtherRound, run) && run[0] == s && !HasVerified(w, run[|run| - 1]);
    }
  }

  /** What remains when every approved id is deleted. */
  function Undeleted(snaps: seq<Snapshot>, removed: seq<string>): (kept: seq<Snapshot>)
    ensures forall sn :: sn in kept <==> sn in snaps && sn.engineId !in removed
  {
    if snaps == [] then []
    else if snaps[0].engineId in removed then Undeleted(snaps[1..], removed)
    else [snaps[0]] + Undeleted(snaps[1..], removed)
  }

  // ── What the conditions are for ──────────────────────────────────────────────

  lemma Extend(rule: Rule, run: seq<State>, step: Step) returns (longer: seq<State>)
    requires IsRun(rule, run) && Obeys(rule, run[|run| - 1], step)
    ensures longer == run + [Do(run[|run| - 1], step)] && IsRun(rule, longer)
  {
    longer := run + [Do(run[|run| - 1], step)];
    forall i | 0 <= i < |longer| - 1 ensures Next(rule, longer[i], longer[i + 1]) {
      if i < |run| - 1 {
        assert Next(rule, run[i], run[i + 1]);
      }
    }
  }

  /** First tested while approved: a system whose only snapshot is `a` had a restore-tested one and then has none. */
  lemma TestedDuringRoundIsLost(a: Snapshot) returns (run: seq<State>)
    requires WellFormed([a])
    ensures IsRun(Anything, run) && |run| == 4 && run[0] == State([a], {a.id}, [], [], {a.engineId})
    ensures HasVerified(AsRow, run[2]) && !HasVerified(AsRow, run[3])
  {
    var s := State([a], {a.id}, [], [], {a.engineId});
    assert s.snaps[0] == a;
    ProtectExactly([a.engineId], [a], s.verified);
    SelectMembers([a.engineId], None, false);
    run := Extend(Anything, [s], ValidateRound([a.engineId]));
    run := Extend(Anything, run, TestEnds(RestoreTest(a.id, true)));
    OneMoreTest([], RestoreTest(a.id, true));
    assert Counts(AsRow, run[2], run[2].snaps[0]);
    assert a.engineId in run[2].open[0];
    run := Extend(Anything, run, CompleteRound(0, []));
  }

  /** A round for one id, while another verified row exists, that removes the data and then fails. */
  lemma FailedRound(run: seq<State>, id: string) returns (longer: seq<State>)
    requires IsRun(OneAtATime(AsRow), run) && run[|run| - 1].open == []
    requires WellFormed(run[|run| - 1].snaps)
    requires var s := run[|run| - 1];
             exists k :: 0 <= k < |s.snaps| && s.snaps[k].id in s.verified && s.snaps[k].engineId != id
    ensures IsRun(OneAtATime(AsRow), longer) && longer[0] == run[0]
    ensures var s := run[|run| - 1]; longer[|longer| - 1] == s.(stored := s.stored - {id})
  {
    var s := run[|run| - 1];
    ApprovedByCoverage([id], s.snaps, s.verified);
    longer := Extend(OneAtATime(AsRow), run, ValidateRound([id]));
    assert longer[|longer| - 1].open[0] == Approved([id], s.snaps, s.verified);
    longer := Extend(OneAtATime(AsRow), longer, RemoveData(0, {id}));
    longer := Extend(OneAtATime(AsRow), longer, FailRound(0));
  }

  /**
    Rounds that do not overlap but leave rows behind: `a` loses its data in a round that fails, its
    row then counts as the survivor, and `b` loses its own.
  */
  lemma RowsOutliveData(a: Snapshot, b: Snapshot, tests: seq<RestoreTest>, stored: set<string>) returns (run: seq<State>)
    requires WellFormed([a, b]) && a.id != b.id && a.engineId != b.engineId && {a.engineId, b.engineId} <= stored
    requires Tested(tests, a.id) && Tested(tests, b.id)
    ensures IsRun(OneAtATime(AsRow), run)
    ensures run[0] == State([a, b], {a.id, b.id}, tests, [], stored) && HasVerified(AsData, run[0])
    ensures HasVerified(AsRow, run[|run| - 1]) && !HasVerified(AsData, run[|run| - 1])
  {
    var s := State([a, b], {a.id, b.id}, tests, [], stored);
    VerifiedMeansTested(tests, a.id);
    VerifiedMeansTested(tests, b.id);
    assert Counts(AsData, s, s.snaps[0]);
    assert s.snaps[1].engineId != a.engineId && s.snaps[0].engineId != b.engineId;
    run := FailedRound([s], a.engineId);
    run := FailedRound(run, b.engineId);
    assert Counts(AsRow, run[|run| - 1], s.snaps[0]);
  }

  lemma {:induction false} FreshName(used: seq<string>) returns (name: string)
    ensures name != "" && forall id :: id in used ==> |id| < |name|
  {
    if used == [] {
      name := "x";
    } else {
      name := FreshName(used[1..]);
      if |name| <= |used[0]| {
        name := used[0] + "x";
      }
      assert used == [used[0]] + used[1..];
    }
  }

  lemma NewlyTested(s: State) returns (run: seq<State>, x: Snapshot)
    requires WellFormed(s.snaps)
    ensures IsRun(Anything, run) && run[0] == s
    ensures x.engineId !in EngineIds(s.snaps) && WellFormed([x] + s.snaps)
    ensures var t := run[|run| - 1];
            t.snaps == [x] + s.snaps && t.verified == s.verified + {x.id} && t.open == s.open
  {
    var id := FreshNumber(s.issued);
    var name := FreshName(EngineIds(s.snaps));
    x := Snapshot(id, name, 1);
    run := Extend(Anything, [s], Backup(x));
    assert run[1].snaps[0].id == id;
    run := Extend(Anything, run, TestEnds(RestoreTest(id, true)));
    OneMoreTest(s.tests, RestoreTest(id, true));
  }

  /** After validating all other ids and then the new one, the outstanding lists name every row. */
  lemma TwoListsNameAll(s: State, x: Snapshot, rest: seq<string>, t: State)
    requires s.snaps != [] && s.snaps[0] == x && WellFormed(s.snaps) && x.id in s.verified
    requires x.engineId !in rest && forall k :: 0 < k < |s.snaps| ==> s.snaps[k].engineId in rest
    requires exists k :: 0 < k < |s.snaps| && s.snaps[k].id in s.verified
    requires t == Do(Do(s, ValidateRound(rest)), ValidateRound([x.engineId]))
    ensures !Safe(AsRow, t)
  {
    ApprovedByCoverage(rest, s.snaps, s.verified);
    ApprovedByCoverage([x.engineId], s.snaps, s.verified);
    assert !Covers(rest, s.snaps, s.verified);
    var n := |s.open|;
    forall k | 0 <= k < |t.snaps| ensures Outstanding(t, t.snaps[k].engineId) {
      assert t.open[n] == Approved(rest, s.snaps, s.verified);
      assert t.open[n + 1] == Approved([x.engineId], s.snaps, s.verified);
      assert t.snaps[k].engineId in t.open[if k == 0 then n + 1 else n];
    }
  }

  lemma QuietContinues(run: seq<State>, rest: seq<State>) returns (longer: seq<State>)
    requires IsRun(Anything, run) && IsRun(NoFurtherRound, rest) && rest[0] == run[|run| - 1]
    ensures longer == run + rest[1..] && IsRun(Anything, longer)
  {
    longer := run + rest[1..];
    var m := |run| - 1;
    forall i | 0 <= i < |longer| - 1 ensures Next(Anything, longer[i], longer[i + 1]) {
      if i < m {
        assert Next(Anything, run[i], run[i + 1]);
      } else {
        assert longer[i] == rest[i - m] && longer[i + 1] == rest[i - m + 1];
        assert Next(NoFurtherRound, rest[i - m], rest[i - m + 1]);
        var step :| Obeys(NoFurtherRound, rest[i - m], step) && rest[i - m + 1] == Do(rest[i - m], step);
        assert Obeys(Anything, longer[i], step);
      }
    }
  }

  /**
    If rounds may overlap, no state at all is safe: from every one some run accepted by the
    handlers ends without a restore-tested snapshot.
  */
  lemma OverlapsSpareNothing(s: State) returns (run: seq<State>)
    requires WellFormed(s.snaps)
    ensures IsRun(Anything, run) && run[0] == s && !HasVerified(AsRow, run[|run| - 1])
  {
    if !HasVerified(AsRow, s) {
      run := [s];
    } else {
      var h :| 0 <= h < |s.snaps| && Counts(AsRow, s, s.snaps[h]);
      var x;
      run, x := NewlyTested(s);
      var t, ids := run[|run| - 1], EngineIds(s.snaps);
      assert t.snaps[h + 1] == s.snaps[h];
      forall k | 0 < k < |t.snaps| ensures t.snaps[k].engineId in ids {
        assert t.snaps[k] == s.snaps[k - 1] && ids[k - 1] == s.snaps[k - 1].engineId;
      }
      run := Extend(Anything, run, ValidateRound(ids));
      run := Extend(Anything, run, ValidateRound([x.engineId]));
      var u := run[|run| - 1];
      TwoListsNameAll(t, x, ids, u);
      var rest := CompleteAll(AsRow, u);
      run := QuietContinues(run, rest);
    }
  }
}
