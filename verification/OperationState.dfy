/**
  The two gates in front of the resource counts: the admin-set operation state and the
  health derived from the last heartbeat (internal/catalog/operation_state.go).
*/
module OperationState {
  import opened Prelude

  const MINUTE := 60
  const HEALTH_ONLINE_WITHIN := 2 * MINUTE
  const HEALTH_DEGRADED_WITHIN := 15 * MINUTE

  datatype BlockReason =
    | GlobalLimit | RepositoryLimit | AgentLimit
    | Maintenance | Draining | Suspended
    | Offline | HealthUnknown

  /** The stored text: one of the four known states, or anything else. */
  datatype OpState = Active | InMaintenance | InDraining | IsSuspended | Unrecognised(text: string)

  datatype Health = Online | Degraded | OfflineHealth | UnknownHealth

  predicate Valid(o: OpState) { !o.Unrecognised? }

  predicate AllowsNewJobs(o: OpState) { o.Active? }

  function DispatchBlockReason(o: OpState): Option<BlockReason> {
    match o
    case InMaintenance => Some(Maintenance)
    case InDraining => Some(Draining)
    case IsSuspended => Some(Suspended)
    case _ => None
  }

  function DeriveHealthState(lastSeen: Option<int>, now: int): Health {
    match lastSeen
    case None => UnknownHealth
    case Some(seen) =>
      if now - seen <= HEALTH_ONLINE_WITHIN then Online
      else if now - seen <= HEALTH_DEGRADED_WITHIN then Degraded
      else OfflineHealth
  }

  function HealthDispatchBlockReason(h: Health): Option<BlockReason> {
    match h
    case OfflineHealth => Some(Offline)
    case UnknownHealth => Some(HealthUnknown)
    case _ => None
  }

  /** Operation state first, so that its reason wins over a health reason. */
  function Gate(o: OpState, lastSeen: Option<int>, now: int): Option<BlockReason> {
    var r := DispatchBlockReason(o);
    if r.Some? then r else HealthDispatchBlockReason(DeriveHealthState(lastSeen, now))
  }

  /**
    The block reason and `AllowsNewJobs` disagree on exactly the texts that are no operation state;
    a constraint on the column (migrations/000024_system_operation_state.up.sql) keeps these out.
  */
  lemma BlockReasonVersusAllows(o: OpState)
    ensures (DispatchBlockReason(o) == None <==> AllowsNewJobs(o)) <==> Valid(o)
  {
  }

  /** For a valid state the gate is open exactly when the system is active and was seen within 15 minutes. */
  lemma GateOpens(o: OpState, lastSeen: Option<int>, now: int)
    requires Valid(o)
    ensures Gate(o, lastSeen, now) == None
            <==> o.Active? && lastSeen.Some? && now - lastSeen.value <= 15 * MINUTE
    ensures !o.Active? ==> Gate(o, lastSeen, now) == DispatchBlockReason(o)
    ensures Gate(o, lastSeen, now) !in {Some(GlobalLimit), Some(RepositoryLimit), Some(AgentLimit)}
  {
  }
}
