/**
  Backup dispatch (internal/scheduler/scheduler.go): the daily window, the systems a policy is
  dispatched to, and what repeated dispatches can and cannot do to that set.
*/
module Scheduler {
  import opened Prelude
  import J = Jobs

  // ── The backup window ────────────────────────────────────────────────────────

  /** Start and end as minutes of the day; `None` when either text is empty. */
  datatype Window = Window(start: int, end: int)

  predicate InBackupWindow(w: Option<Window>, nowMin: int) {
    match w
    case None => true
    case Some(Window(start, end)) =>
      if start <= end then nowMin >= start && nowMin < end
      else nowMin >= start || nowMin < end
  }

  /** The texts are not checked, so any number of minutes can come out; the day ends at 24:00. */
  function OnTheClock(m: int): int { if m < 0 then 0 else if m > 1440 then 1440 else m }

  /** Minutes the window is open a day; one whose ends coincide is empty, one that ends before it starts spans midnight. */
  function OpenMinutes(w: Window): int {
    OnTheClock(w.end) - OnTheClock(w.start) + if w.start <= w.end then 0 else 1440
  }

  /**
    On the clock face the window is one arc: it is open exactly while the minutes gone since its
    start are fewer than the minutes it stays open, across midnight and for 00:00 to 24:00 too.
  */
  lemma WindowIsAnArc(w: Window, nowMin: int)
    requires 0 <= nowMin < 1440
    ensures InBackupWindow(None, nowMin)
    ensures InBackupWindow(Some(w), nowMin) <==> (nowMin - OnTheClock(w.start)) % 1440 < OpenMinutes(w)
  {
  }

  // ── Dispatch ─────────────────────────────────────────────────────────────────

  datatype Row = Row(sys: J.SystemId, policy: J.PolicyId, backup: bool, status: J.Status)

  /** Systems with a backup job of the policy. */
  function Systems(rows: seq<Row>, policy: J.PolicyId): set<J.SystemId> {
    set r | r in rows && r.policy == policy && r.backup :: r.sys
  }

  lemma SystemsAreThoseWithBackups(rows: seq<Row>, policy: J.PolicyId)
    ensures forall sys :: sys in Systems(rows, policy) <==>
              exists k :: 0 <= k < |rows| && rows[k].policy == policy && rows[k].backup && rows[k].sys == sys
  {
  }

  class JobTable {
    var rows: seq<Row>

    constructor ()
      ensures rows == []
    {
      rows := [];
    }

    /** Every system once; the order is that of a map. */
    method SystemsForPolicy(policy: J.PolicyId) returns (out: seq<J.SystemId>)
      ensures forall sys :: sys in out <==>
                exists k :: 0 <= k < |rows| && rows[k].policy == policy && rows[k].backup && rows[k].sys == sys
      ensures forall a, b :: 0 <= a < b < |out| ==> out[a] != out[b]
    {
      var seen: set<J.SystemId> := {};
      for k := 0 to |rows|
        invariant seen == Systems(rows[..k], policy)
      {
        assert rows[..k + 1] == rows[..k] + [rows[k]];
        if rows[k].policy == policy && rows[k].backup {
          seen := seen + {rows[k].sys};
        }
      }
      assert rows[..|rows|] == rows;
      ghost var all := seen;
      SystemsAreThoseWithBackups(rows, policy);
      out := [];
      while seen != {}
        invariant seen <= all
        invariant forall sys :: sys in out <==> sys in all && sys !in seen
        invariant forall a, b :: 0 <= a < b < |out| ==> out[a] != out[b]
        decreases seen
      {
        var sys :| sys in seen;
        out := out + [sys];
        seen := seen - {sys};
      }
    }

    /**
      Inside the window one pending backup job per system of the policy, except where the insert
      fails; outside it, or for a policy without systems, nothing.
    */
    method DispatchBackup(policy: J.PolicyId, w: Option<Window>, nowMin: int, failing: set<J.SystemId>)
      modifies this
      ensures IsDispatch(old(rows), rows, policy, failing, InBackupWindow(w, nowMin))
    {
      if !InBackupWindow(w, nowMin) {
        return;
      }
      var systems := SystemsForPolicy(policy);
      ghost var before := rows;
      ghost var created: seq<Row> := [];
      for k := 0 to |systems|
        invariant rows == before + created
        invariant forall r :: r in created <==> r.sys in systems[..k] && r.sys !in failing && r == Row(r.sys, policy, true, J.Pending)
        invariant forall a, b :: 0 <= a < b < |created| ==> created[a] != created[b]
      {
        assert systems[..k + 1] == systems[..k] + [systems[k]];
        assert systems[k] !in systems[..k];
        if systems[k] !in failing {
          var job := Row(systems[k], policy, true, J.Pending);
          created := created + [job];
          rows := rows + [job];
        }
      }
      assert systems[..|systems|] == systems;
      assert rows[|before|..] == created;
    }
  }

  /** `after` is `before` with exactly one new pending job per system that is neither failing nor outside. */
  ghost predicate IsDispatch(before: seq<Row>, after: seq<Row>, policy: J.PolicyId, failing: set<J.SystemId>, open: bool) {
    && before <= after
    && (forall r :: r in after[|before|..] <==>
          && open && r.sys !in failing && r == Row(r.sys, policy, true, J.Pending)
          && exists k :: 0 <= k < |before| && before[k].policy == policy && before[k].backup && before[k].sys == r.sys)
    && (forall a, b :: |before| <= a < b < |after| ==> after[a] != after[b])
  }

  lemma DispatchKeepsSystems(before: seq<Row>, after: seq<Row>, policy: J.PolicyId, failing: set<J.SystemId>, open: bool, other: J.PolicyId)
    requires IsDispatch(before, after, policy, failing, open)
    ensures Systems(after, other) == Systems(before, other)
  {
  }

  ghost predicate Dispatched(before: seq<Row>, after: seq<Row>) {
    exists policy, failing, open :: IsDispatch(before, after, policy, failing, open)
  }

  /**
    However often the scheduler runs, the systems of a policy stay what they were: it never adds a
    system, so a policy without any backup job never gets one from the schedule alone.
  */
  lemma {:induction false} SchedulingNeverBootstraps(run: seq<seq<Row>>, policy: J.PolicyId)
    requires run != [] && forall k :: 0 <= k < |run| - 1 ==> Dispatched(run[k], run[k + 1])
    ensures Systems(run[|run| - 1], policy) == Systems(run[0], policy)
    ensures Systems(run[0], policy) == {} ==> forall r :: r in run[|run| - 1] && r.backup ==> r.policy != policy
  {
    var last := |run| - 1;
    if last > 0 {
      var q := run[..last];
      forall k | 0 <= k < |q| - 1 ensures Dispatched(q[k], q[k + 1]) {
        assert Dispatched(run[k], run[k + 1]);
      }
      SchedulingNeverBootstraps(q, policy);
      assert Dispatched(run[last - 1], run[last - 1 + 1]);
      var p, failing, open :| IsDispatch(run[last - 1], run[last], p, failing, open);
      DispatchKeepsSystems(run[last - 1], run[last], p, failing, open, policy);
    }
    var rows := run[last];
    forall r | r in rows && r.backup && r.policy == policy ensures r.sys in Systems(rows, policy) {
    }
  }
}
