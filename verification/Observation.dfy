/** What host heartbeats, the reconciler, the iOS drift monitor and administrators do to a
    device row (internal/hostcommand/service.go, internal/reconcile/service.go,
    internal/iossession/reconcile.go, internal/management/service.go). */
module Observation {
  import opened Domain
  import opened Rows

  // ---- Host heartbeats ----

  /** One device of a heartbeat; `known` says whether platform, kind and provider agree with the row. */
  datatype Discovered = Discovered(lifecycle: Lifecycle, health: Health, known: bool, providerBusy: bool)

  predicate ValidDiscovered(o: Discovered) {
    && o.lifecycle in {DeviceBooting, DeviceReady, DeviceStopped}
    && (o.lifecycle == DeviceReady ==> o.health == HealthHealthy)
  }

  /** The lifecycle a recovered device returns to, given what it is still assigned to. */
  function RecoveredLifecycle(target: Option<Lifecycle>): (result: Lifecycle) {
    if target.Some? then target.value else DeviceReady
  }

  /** The discovered lifecycle folded into the recorded one; None when the aggregate refuses. */
  function Discover(l: Lifecycle, health: Health, incoming: Lifecycle): (result: Option<Lifecycle>) {
    if l == incoming then Some(l)
    else match incoming
      case DeviceBooting => Some(if l in {DeviceProvisioning, DeviceStopped} then DeviceBooting else l)
      case DeviceReady =>
        if l in {DeviceProvisioning, DeviceStopped, DeviceBooting} then
          if health == HealthHealthy then Some(DeviceReady) else None
        else Some(l)
      case DeviceStopped => Some(if l in {DeviceBooting, DeviceReady} then DeviceStopped else l)
      case _ => Some(l)
  }

  predicate Recovers(dev: Device, o: Discovered, inFlight: bool) {
    && dev.lifecycle == DeviceQuarantined && dev.reason.Some?
    && IsSystemRecoverable(dev.reason.value) && !IsSTFFailureReason(dev.reason.value)
    && o.health == HealthHealthy && !inFlight
  }

  predicate Observes(dev: Device, o: Discovered, inFlight: bool) {
    (dev.lifecycle != DeviceQuarantined || Recovers(dev, o, inFlight)) && dev.lifecycle != DeviceDeleted && !inFlight
  }

  predicate PreservesSTF(dev: Device, o: Discovered, inFlight: bool) {
    Observes(dev, o, inFlight) && o.health == HealthHealthy && dev.reason.Some? && IsSTFFailureReason(dev.reason.value)
  }

  function HealthText(h: Health): (result: string) {
    match h
    case HealthUnknown => "unknown"
    case HealthHealthy => "healthy"
    case HealthDegraded => "degraded"
    case HealthUnhealthy => "unhealthy"
  }

  /** The row a heartbeat leaves, or None when the transition it implies is refused. */
  function Observed(dev: Device, o: Discovered, inFlight: bool, target: Option<Lifecycle>): (result: Option<Device>) {
    var recovered := Recovers(dev, o, inFlight);
    var observes, preserves := Observes(dev, o, inFlight), PreservesSTF(dev, o, inFlight);
    var start := if recovered then RecoveredLifecycle(target) else dev.lifecycle;
    var health := if observes && !preserves then o.health else dev.health;
    var lifecycle :=
      if observes && dev.lifecycle !in {DeviceReserved, DeviceBusy, DeviceRecycling}
      then Discover(start, health, o.lifecycle) else Some(start);
    if lifecycle == None then None
    else Some(dev.(
                lifecycle := lifecycle.value, health := health,
                reason := if observes && !preserves
                          then if health == HealthHealthy then None
                              else Some("agent heartbeat reported " + HealthText(health))
                          else dev.reason,
                failures := if recovered || (observes && !preserves && health == HealthHealthy) then 0
                    else dev.failures,
                providerBusy := o.providerBusy))
  }

  function HeartbeatTx(s: State, d: DeviceId, o: Discovered, inFlight: bool): (result: Outcome) {
    if !ValidDiscovered(o) then Rollback(ErrInvalidArgument)
    else if d !in s.devices then Commit(s)
    else if !o.known then Rollback(ErrIdentityConflict)
    else match Observed(s.devices[d], o, inFlight, AssignmentTarget(s, d))
      case None => Rollback(ErrNotHealthy)
      case Some(dev) => Commit(s.(devices := s.devices[d := dev]))
  }

  const INVENTORY_GRACE: int := 30 * SECOND

  /** A complete inventory that no longer lists a registered simulator takes it out of service, once it has
      been unseen for the grace and no command that creates, rebuilds or deletes it is under way. */
  function MissingTx(s: State, d: DeviceId, unseen: int, inFlight: bool): (result: Outcome) {
    if || d !in s.devices || s.devices[d].platform != Ios || s.devices[d].kind != Simulator
       || s.devices[d].lifecycle in {DeviceQuarantined, DeviceDeleted} || inFlight || unseen < INVENTORY_GRACE
    then Commit(s)
    else Commit(s.(devices := s.devices[d := s.devices[d].(
                     lifecycle := DeviceQuarantined, health := HealthUnhealthy, reason := Some(IOS_MISSING),
                     failures := s.devices[d].failures + 1)]))
  }

  // ---- Health reports of the reconciler ----

  datatype Severity = Info | Warning | Failing | Critical
  datatype Report = Report(severity: Severity, recovered: bool, reason: string, force: bool, suppressQuarantine: bool,
                           suppressCount: bool)

  function HealthOutcome(dev: Device, i: Report): (result: (Health, nat)) {
    var failures := if i.suppressCount then dev.failures else dev.failures + 1;
    match i.severity
    case Info => if i.recovered then (HealthHealthy, 0) else (dev.health, dev.failures)
    case Warning => (HealthDegraded, failures)
    case _ => (HealthUnhealthy, failures)
  }

  function ReportTx(s: State, d: DeviceId, i: Report, threshold: nat): (result: Outcome) {
    if TrimSpace(i.reason) == "" then Rollback(ErrInvalidArgument)
    else if d !in s.devices then Rollback(ErrNotFound)
    else
      var dev := s.devices[d];
      var (health, failures) := HealthOutcome(dev, i);
      var start :=
        if i.recovered && health == HealthHealthy && dev.lifecycle == DeviceQuarantined
           && dev.reason.Some? && IsSystemRecoverable(dev.reason.value)
        then RecoveredLifecycle(AssignmentTarget(s, d)) else dev.lifecycle;
      var isolate := i.force || (!i.suppressQuarantine && failures >= threshold);
      if isolate && start == DeviceDeleted then Rollback(ErrInvalidTransition)
      else Commit(s.(devices := s.devices[d := dev.(
                       lifecycle := if isolate then DeviceQuarantined else start,
                       health := health, reason := Some(i.reason), failures := failures)]))
  }

  // ---- Isolation by the iOS drift monitor and by an administrator ----

  function DriftTx(s: State, d: DeviceId, why: string): (result: Outcome) {
    if d !in s.devices then Rollback(ErrNotFound)
    else if s.devices[d].lifecycle == DeviceQuarantined then Commit(s)
    else if s.devices[d].lifecycle == DeviceDeleted then Rollback(ErrInvalidTransition)
    else Commit(s.(devices := s.devices[d := s.devices[d].(
                     lifecycle := DeviceQuarantined, health := HealthDegraded, reason := Some(why),
                     failures := s.devices[d].failures + 1)]))
  }

  function OperatorQuarantineTx(s: State, d: DeviceId): (result: Outcome) {
    if d !in s.devices then Rollback(ErrNotFound)
    else if s.devices[d].lifecycle in {DeviceQuarantined, DeviceDeleted} then Rollback(ErrInvalidTransition)
    else Commit(s.(devices := s.devices[d := s.devices[d].(lifecycle := DeviceQuarantined, health := HealthUnhealthy)]))
  }

  /** An administrator lifts a quarantine. The code does not look at reservations here. */
  function UnquarantineTx(s: State, d: DeviceId): (result: Outcome) {
    if d !in s.devices then Rollback(ErrNotFound)
    else if s.devices[d].lifecycle !in {DeviceReady, DeviceStopped, DeviceQuarantined}
        then Rollback(ErrInvalidTransition)
    else Commit(s.(devices := s.devices[d := s.devices[d].(
                     lifecycle := DeviceProvisioning, health := HealthUnknown, failures := 0)]))
  }

  // ---- Queueing host commands ----

  datatype CommandKind = Create | Start | Stop | Restart | Rebuild | Reimage | ProfileUpdate | Delete | SelfHeal

  /** The lifecycle a queued command puts the device in, which is also the operation state the
      command carries. */
  function QueuedLifecycle(kind: CommandKind, l: Lifecycle): (result: Option<Lifecycle>) {
    match kind
    case Create => None
    case Start => if l == DeviceStopped then Some(DeviceBooting) else None
    case Stop => if l == DeviceReady then Some(DeviceStopped) else None
    case Restart =>
      if l == DeviceQuarantined then Some(DeviceProvisioning)
      else if l == DeviceStopped then Some(DeviceBooting)
      else if l == DeviceReady then Some(DeviceStopped) else None
    case Rebuild => if l in {DeviceReady, DeviceStopped, DeviceQuarantined} then Some(DeviceProvisioning) else None
    case Reimage => if l in {DeviceReady, DeviceStopped, DeviceQuarantined} then Some(DeviceProvisioning) else None
    case ProfileUpdate => if l in {DeviceReady, DeviceStopped, DeviceQuarantined} then Some(DeviceProvisioning)
        else None
    case Delete => if l in {DeviceReady, DeviceStopped, DeviceQuarantined} then Some(l) else None
    case SelfHeal =>
      if l == DeviceQuarantined then Some(DeviceProvisioning)
      else if l == DeviceStopped then Some(DeviceBooting) else None
  }

  /** The operation states a command of this kind can carry. */
  predicate Produces(kind: CommandKind, state: Lifecycle) {
    if kind == Create then state == DeviceProvisioning
    else exists l: Lifecycle :: QueuedLifecycle(kind, l) == Some(state)
  }

  /** What a queued command notes on the device. */
  function QueuedReason(kind: CommandKind, reason: Option<string>, why: string): (result: Option<string>) {
    if kind == Delete then Some(TrimSpace(why))
    else if kind in {Start, Stop, SelfHeal} then Some(why)
    else reason
  }

  /** Every queueing operation but the administrator's restart looks for another active command of the device
      and for an open reservation first. A delete takes the device out of its pools. */
  function QueueTx(s: State, d: DeviceId, kind: CommandKind, why: string, active: bool): (result: Outcome) {
    if d !in s.devices then Rollback(ErrNotFound)
    else if QueuedLifecycle(kind, s.devices[d].lifecycle) == None then Rollback(ErrInvalidTransition)
    else if kind != Restart && (active || HasOpen(s, d)) then Rollback(ErrConflict)
    else
      var dev := s.devices[d];
      Commit(s.(devices := s.devices[d := dev.(
                  lifecycle := QueuedLifecycle(kind, dev.lifecycle).value,
                  health := if kind == Delete then dev.health else HealthUnknown,
                  reason := QueuedReason(kind, dev.reason, why),
                  pool := if kind == Delete then None else dev.pool)]))
  }

  // ---- The services, statement by statement ----

  /** Takes a quarantined, healthy device back through `provisioning`, `booting` and `ready` to what
      it is assigned to. */
  method RecoverLifecycle(device: DeviceAggregate, target: Option<Lifecycle>, reason: string, at: int)
    returns (ok: bool)
    requires device.Valid() && TrimSpace(reason) != "" && at != 0
    requires device.lifecycle.status == DeviceQuarantined && device.health == HealthHealthy
    requires target.Some? ==> target.value in {DeviceReserved, DeviceBusy}
    modifies device.lifecycle
    ensures device.Valid()
    ensures ok && device.lifecycle.status == RecoveredLifecycle(target)
  {
    RecoveryEdges(HealthHealthy);
    ok := device.MoveTo(DeviceProvisioning, reason, at);
    ok := device.MoveTo(DeviceBooting, reason, at);
    ok := device.MoveTo(DeviceReady, reason, at);
    if target.Some? {
      ok := device.MoveTo(DeviceReserved, reason, at);
    }
    if target == Some(DeviceBusy) {
      ok := device.MoveTo(DeviceBusy, reason, at);
    }
  }

  /** Folds the discovered lifecycle into the recorded one. */
  method ApplyDiscovered(device: DeviceAggregate, incoming: Lifecycle, at: int) returns (ok: bool)
    requires device.Valid() && at != 0
    modifies device.lifecycle
    ensures device.Valid()
    ensures ok <==> Discover(old(device.lifecycle.status), device.health, incoming).Some?
    ensures ok ==> device.lifecycle.status == Discover(old(device.lifecycle.status), device.health, incoming).value
  {
    var reason := "agent discovered device";
    assert Plain(reason);
    PlainTrims(reason);
    RecoveryEdges(device.health);
    ok := true;
    if device.lifecycle.status == incoming {
      return;
    }
    match incoming
    case DeviceBooting =>
      if device.lifecycle.status == DeviceProvisioning || device.lifecycle.status == DeviceStopped {
        ok := device.MoveTo(DeviceBooting, reason, at);
      }
    case DeviceReady =>
      if device.lifecycle.status == DeviceProvisioning || device.lifecycle.status == DeviceStopped {
        ok := device.MoveTo(DeviceBooting, reason, at);
      }
      if device.lifecycle.status == DeviceBooting {
        ok := device.MoveTo(DeviceReady, reason, at);
      }
    case DeviceStopped =>
      if device.lifecycle.status == DeviceBooting || device.lifecycle.status == DeviceReady {
        ok := device.MoveTo(DeviceStopped, reason, at);
      }
    case _ =>
  }

  lemma AssignmentTargets(s: State, d: DeviceId)
    ensures AssignmentTarget(s, d).Some? ==> AssignmentTarget(s, d).value in {DeviceReserved, DeviceBusy}
  {
  }

  class HealthService {
    const db: Database
    const threshold: nat

    constructor (db: Database, threshold: nat)
      ensures this.db == db && this.threshold == threshold
    {
      this.db, this.threshold := db, threshold;
    }

    /** What a heartbeat makes of the lifecycle and health of one row; None when a transition it implies
        is refused. */
    method Fold(current: Device, o: Discovered, recovers: bool, observes: bool, preserves: bool,
                target: Option<Lifecycle>, at: Clock)
      returns (state: Option<(Lifecycle, Health)>)
      requires target.Some? ==> target.value in {DeviceReserved, DeviceBusy}
      requires recovers ==> current.lifecycle == DeviceQuarantined && o.health == HealthHealthy && observes
      ensures var start := if recovers then RecoveredLifecycle(target) else current.lifecycle;
              var health := if observes && !preserves then o.health else if recovers then HealthHealthy
                  else current.health;
              var lifecycle :=
                if observes && current.lifecycle !in {DeviceReserved, DeviceBusy, DeviceRecycling}
                then Discover(start, health, o.lifecycle) else Some(start);
              state == if lifecycle == None then None else Some((lifecycle.value, health))
    {
      var aggregate := new DeviceAggregate(current.lifecycle, current.health);
      var reason := "agent heartbeat health observation";
      assert Plain(reason);
      PlainTrims(reason);
      var ok := true;
      if recovers {
        aggregate.SetHealth(HealthHealthy, reason, at);
        ok := RecoverLifecycle(aggregate, target, reason, at);
      }
      if observes {
        if !preserves {
          aggregate.SetHealth(o.health, reason, at);
        }
        if current.lifecycle != DeviceReserved && current.lifecycle != DeviceBusy
            && current.lifecycle != DeviceRecycling {
          ok := ApplyDiscovered(aggregate, o.lifecycle, at);
          if !ok {
            return None;
          }
        }
      }
      state := Some((aggregate.lifecycle.status, aggregate.health));
    }

    method Observe(current: Device, o: Discovered, inFlight: bool, target: Option<Lifecycle>, at: Clock)
      returns (row: Option<Device>)
      requires target.Some? ==> target.value in {DeviceReserved, DeviceBusy}
      ensures row == Observed(current, o, inFlight, target)
    {
      var recovers := Recovers(current, o, inFlight);
      var observes := (current.lifecycle != DeviceQuarantined || recovers) && current.lifecycle != DeviceDeleted
          && !inFlight;
      var preserves := observes && o.health == HealthHealthy && current.reason.Some?
          && IsSTFFailureReason(current.reason.value);
      var state := Fold(current, o, recovers, observes, preserves, target, at);
      if state == None {
        return None;
      }
      var (lifecycle, health) := state.value;
      var why := current.reason;
      if observes && !preserves {
        why := None;
        if health != HealthHealthy {
          why := Some("agent heartbeat reported " + HealthText(health));
        }
      }
      var reset := recovers || (!preserves && health == HealthHealthy && current.lifecycle != DeviceQuarantined
                                && current.lifecycle != DeviceDeleted && !inFlight);
      row := Some(current.(lifecycle := lifecycle, health := health, reason := why,
                           failures := if reset then 0 else current.failures, providerBusy := o.providerBusy));
    }

    method Heartbeat(d: DeviceId, o: Discovered, inFlight: bool) returns (error: Option<Error>)
      modifies db`devices
      ensures db.Value() == HeartbeatTx(old(db.Value()), d, o, inFlight).After(old(db.Value()))
      ensures error.Some? <==> HeartbeatTx(old(db.Value()), d, o, inFlight).Rollback?
    {
      if !ValidDiscovered(o) {
        return Some(ErrInvalidArgument);
      }
      if d !in db.devices {
        return None;
      }
      if !o.known {
        return Some(ErrIdentityConflict);
      }
      AssignmentTargets(db.Value(), d);
      var target := AssignmentTarget(db.Value(), d);
      var row := Observe(db.devices[d], o, inFlight, target, db.now);
      if row == None {
        return Some(ErrNotHealthy);
      }
      db.SetDevice(d, row.value);
      error := None;
    }

    /** Takes a device out of service unless it already is. */
    method Isolate(current: Device, health: Health, reason: string, at: Clock) returns (l: Option<Lifecycle>, h: Health)
      requires TrimSpace(reason) != ""
      ensures h == health
      ensures l == if current.lifecycle == DeviceDeleted then None else Some(DeviceQuarantined)
    {
      var aggregate := new DeviceAggregate(current.lifecycle, current.health);
      aggregate.SetHealth(health, reason, at);
      h := aggregate.health;
      l := Some(current.lifecycle);
      if current.lifecycle != DeviceQuarantined {
        IsolationEdges(current.lifecycle, health);
        var ok := aggregate.MoveTo(DeviceQuarantined, reason, at);
        if !ok {
          return None, h;
        }
        l := Some(aggregate.lifecycle.status);
      }
    }

    /** The inventory of a host is complete and the registered simulator is not in it. */
    method Missing(d: DeviceId, unseen: int, inFlight: bool) returns (error: Option<Error>)
      modifies db`devices
      ensures MissingTx(old(db.Value()), d, unseen, inFlight) == Commit(db.Value()) && error == None
    {
      error := None;
      if d !in db.devices || db.devices[d].platform != Ios || db.devices[d].kind != Simulator
         || db.devices[d].lifecycle in {DeviceQuarantined, DeviceDeleted} || inFlight {
        return;
      }
      if unseen < INVENTORY_GRACE {
        return;
      }
      assert Plain(IOS_MISSING);
      PlainTrims(IOS_MISSING);
      var l, h := Isolate(db.devices[d], HealthUnhealthy, IOS_MISSING, db.now);
      db.SetDevice(d, db.devices[d].(lifecycle := l.value, health := h, reason := Some(IOS_MISSING),
                                     failures := db.devices[d].failures + 1));
    }

    /** The lifecycle and health a report leaves; None when the isolation is refused. */
    method Assess(current: Device, i: Report, health: Health, failures: nat, target: Option<Lifecycle>, at: Clock)
      returns (state: Option<Lifecycle>)
      requires TrimSpace(i.reason) != ""
      requires target.Some? ==> target.value in {DeviceReserved, DeviceBusy}
      ensures var start :=
                if i.recovered && health == HealthHealthy && current.lifecycle == DeviceQuarantined
                   && current.reason.Some? && IsSystemRecoverable(current.reason.value)
                then RecoveredLifecycle(target) else current.lifecycle;
              state == if !(i.force || (!i.suppressQuarantine && failures >= threshold)) then Some(start)
                       else if start == DeviceDeleted then None else Some(DeviceQuarantined)
    {
      var aggregate := new DeviceAggregate(current.lifecycle, current.health);
      aggregate.SetHealth(health, i.reason, at);
      var ok := true;
      if i.recovered && health == HealthHealthy && current.lifecycle == DeviceQuarantined
         && current.reason.Some? && IsSystemRecoverable(current.reason.value) {
        ok := RecoverLifecycle(aggregate, target, i.reason, at);
      }
      if (i.force || (!i.suppressQuarantine && failures >= threshold))
          && aggregate.lifecycle.status != DeviceQuarantined {
        IsolationEdges(aggregate.lifecycle.status, aggregate.health);
        ok := aggregate.MoveTo(DeviceQuarantined, i.reason, at);
        if !ok {
          return None;
        }
      }
      state := Some(aggregate.lifecycle.status);
    }

    method Report(d: DeviceId, i: Report) returns (error: Option<Error>)
      modifies db`devices
      ensures db.Value() == ReportTx(old(db.Value()), d, i, threshold).After(old(db.Value()))
      ensures error.Some? <==> ReportTx(old(db.Value()), d, i, threshold).Rollback?
    {
      if TrimSpace(i.reason) == "" {
        return Some(ErrInvalidArgument);
      }
      if d !in db.devices {
        return Some(ErrNotFound);
      }
      var (health, failures) := HealthOutcome(db.devices[d], i);
      AssignmentTargets(db.Value(), d);
      var target := AssignmentTarget(db.Value(), d);
      var state := Assess(db.devices[d], i, health, failures, target, db.now);
      if state == None {
        return Some(ErrInvalidTransition);
      }
      db.SetDevice(d, db.devices[d].(lifecycle := state.value, health := health, reason := Some(i.reason),
                                     failures := failures));
      error := None;
    }

    /** Isolation of a simulator whose sessions cannot be trusted any more. */
    method Drift(d: DeviceId, why: string) returns (error: Option<Error>)
      requires TrimSpace(why) != ""
      modifies db`devices
      ensures db.Value() == DriftTx(old(db.Value()), d, why).After(old(db.Value()))
      ensures error.Some? <==> DriftTx(old(db.Value()), d, why).Rollback?
    {
      if d !in db.devices {
        return Some(ErrNotFound);
      }
      if db.devices[d].lifecycle == DeviceQuarantined {
        return None;
      }
      var l, h := Isolate(db.devices[d], HealthDegraded, why, db.now);
      if l == None {
        return Some(ErrInvalidTransition);
      }
      db.SetDevice(d, db.devices[d].(lifecycle := l.value, health := h, reason := Some(why),
                                     failures := db.devices[d].failures + 1));
      error := None;
    }
  }

  class ManagementService {
    const db: Database

    constructor (db: Database)
      ensures this.db == db
    {
      this.db := db;
    }

    /** The direct transitions of an administrator: `quarantined`, or back to `provisioning`. */
    method TransitionDevice(d: DeviceId, to: Lifecycle, health: Health, reason: string) returns (error: Option<Error>)
      requires TrimSpace(reason) != ""
      requires (to == DeviceQuarantined && health == HealthUnhealthy)
               || (to == DeviceProvisioning && health == HealthUnknown)
      modifies db`devices
      ensures var outcome := if to == DeviceQuarantined then OperatorQuarantineTx(old(db.Value()), d)
              else UnquarantineTx(old(db.Value()), d);
              && db.Value() == outcome.After(old(db.Value()))
              && (error.Some? <==> outcome.Rollback?)
    {
      if d !in db.devices {
        return Some(ErrNotFound);
      }
      var current := db.devices[d];
      var aggregate := new DeviceAggregate(current.lifecycle, current.health);
      IsolationEdges(current.lifecycle, current.health);
      ProvisioningEdges(current.lifecycle, current.health);
      var ok := aggregate.MoveTo(to, reason, db.now);
      if !ok {
        return Some(ErrInvalidTransition);
      }
      aggregate.SetHealth(health, reason, db.now);
      var reset := aggregate.lifecycle.status == DeviceProvisioning && aggregate.health == HealthUnknown;
      db.SetDevice(d, current.(lifecycle := aggregate.lifecycle.status, health := aggregate.health,
                               failures := if reset then 0 else current.failures));
      error := None;
    }

    /** The lifecycle a command is queued with, taken through the device aggregate. */
    method Prepare(current: Device, kind: CommandKind, reason: string, at: Clock)
      returns (state: Option<(Lifecycle, Health)>)
      requires TrimSpace(reason) != ""
      ensures state == var l := QueuedLifecycle(kind, current.lifecycle);
                       if l == None then None
                           else Some((l.value, if kind == Delete then current.health else HealthUnknown))
    {
      var aggregate := new DeviceAggregate(current.lifecycle, current.health);
      var to := DeviceProvisioning;
      match kind {
        case Create => return None;
        case Delete =>
          if current.lifecycle !in {DeviceReady, DeviceStopped, DeviceQuarantined} {
            return None;
          }
          return Some((current.lifecycle, current.health));
        case Start =>
          if current.lifecycle != DeviceStopped {
            return None;
          }
          to := DeviceBooting;
        case Stop =>
          if current.lifecycle != DeviceReady {
            return None;
          }
          to := DeviceStopped;
        case Restart =>
          to := if current.lifecycle == DeviceQuarantined then DeviceProvisioning
                else if current.lifecycle == DeviceStopped then DeviceBooting else DeviceStopped;
          if current.lifecycle !in {DeviceReady, DeviceStopped, DeviceQuarantined} {
            return None;
          }
        case SelfHeal =>
          if current.lifecycle !in {DeviceStopped, DeviceQuarantined} {
            return None;
          }
          to := if current.lifecycle == DeviceStopped then DeviceBooting else DeviceProvisioning;
        case _ =>
          if current.lifecycle !in {DeviceReady, DeviceStopped, DeviceQuarantined} {
            return None;
          }
      }
      aggregate.SetHealth(HealthUnknown, reason, at);
      RecoveryEdges(HealthUnknown);
      ProvisioningEdges(current.lifecycle, HealthUnknown);
      var ok := aggregate.MoveTo(to, reason, at);
      state := Some((aggregate.lifecycle.status, aggregate.health));
    }

    /** Queues a command: the device row moves in the transaction that inserts the command. */
    method Queue(d: DeviceId, kind: CommandKind, reason: string, active: bool) returns (error: Option<Error>)
      requires TrimSpace(reason) != ""
      modifies db`devices
      ensures db.Value() == QueueTx(old(db.Value()), d, kind, reason, active).After(old(db.Value()))
      ensures error.Some? <==> QueueTx(old(db.Value()), d, kind, reason, active).Rollback?
    {
      if d !in db.devices {
        return Some(ErrNotFound);
      }
      var current := db.devices[d];
      var state := Prepare(current, kind, reason, db.now);
      if state == None {
        return Some(ErrInvalidTransition);
      }
      if kind != Restart {
        if active || HasOpen(db.Value(), d) {
          return Some(ErrConflict);
        }
      }
      var why := current.reason;
      match kind {
        case Start => why := Some(reason);
        case Stop => why := Some(reason);
        case SelfHeal => why := Some(reason);
        case Delete => why := Some(TrimSpace(reason));
        case _ =>
      }
      db.SetDevice(d, current.(lifecycle := state.value.0, health := state.value.1, reason := why));
      if kind == Delete {
        db.SetDevice(d, db.devices[d].(pool := None));
      }
      error := None;
    }
  }
}
