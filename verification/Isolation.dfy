/** What observations do to a device, said on its columns: which quarantines are lifted, by whom and on what grounds,
    and what isolates a device; and that a device isolated on other grounds stays isolated. */
module Isolation {
  import opened Domain
  import opened Rows
  import opened Scheduling
  import opened Reservations
  import opened Observation
  import opened Protocol
  import opened Safety

  // ---- The grounds ----

  /** STF does not see the device, or reports trouble of its own. */
  ghost predicate BySTF(reason: string) {
    var text := TrimSpace(reason);
    text == "device is not visible through STF" || "STF " <= text
  }

  /** The host was away, the agent saw it unhealthy, or the provider had lost it. */
  ghost predicate ByInfrastructure(reason: string) {
    var text := TrimSpace(reason);
    || text == "设备宿主机离线或暂不可用"
    || text == "agent heartbeat reported an assigned or schedulable device is not healthy"
    || "IOS_PROVIDER_DEVICE_MISSING:" <= text
  }

  lemma {:induction false} TrimLeftStops(s: string)
    ensures TrimLeft(s) == [] || !IsSpace(TrimLeft(s)[0])
    ensures s != [] && !IsSpace(s[|s| - 1]) ==> TrimLeft(s) != [] && TrimLeft(s)[|TrimLeft(s)| - 1] == s[|s| - 1]
  {
    if s != [] && IsSpace(s[0]) {
      TrimLeftStops(s[1..]);
    }
  }

  lemma {:induction false} TrimRightStops(s: string)
    ensures TrimRight(s) == [] || !IsSpace(TrimRight(s)[|TrimRight(s)| - 1])
    ensures s != [] && !IsSpace(s[0]) ==> TrimRight(s) != [] && TrimRight(s)[0] == s[0]
  {
    if s != [] && IsSpace(s[|s| - 1]) {
      TrimRightStops(s[..|s| - 1]);
    }
  }

  lemma TrimmingTwice(s: string)
    ensures TrimSpace(TrimSpace(s)) == TrimSpace(s)
  {
    TrimLeftStops(s);
    TrimRightStops(TrimLeft(s));
    if TrimSpace(s) != [] {
      PlainTrims(TrimSpace(s));
    }
  }

  lemma GroundsAreReasons(reason: string)
    ensures IsSTFFailureReason(reason) <==> BySTF(reason)
    ensures IsSystemRecoverable(reason) <==> BySTF(reason) || ByInfrastructure(reason)
  {
    TrimmingTwice(reason);
  }

  lemma MissingIsInfrastructure()
    ensures ByInfrastructure(IOS_MISSING)
  {
    assert Plain(IOS_MISSING);
    PlainTrims(IOS_MISSING);
  }

  // ---- Heartbeats ----

  /** What a heartbeat may lift. */
  ghost predicate HeartbeatLifts(dev: Device, o: Discovered, inFlight: bool) {
    && dev.reason.Some? && ByInfrastructure(dev.reason.value) && !BySTF(dev.reason.value)
    && o.health == HealthHealthy && !inFlight
  }

  /** A committed heartbeat leaves a quarantined device quarantined, with its health, reason and failures, exactly
      unless the device was isolated because of the infrastructure, is seen healthy and has no command in flight. Then
      it returns to what it is assigned to, healthy, without reason or failures. */
  lemma HeartbeatLiftsExactlyWhen(s: State, d: DeviceId, o: Discovered, inFlight: bool)
    requires d in s.devices && s.devices[d].lifecycle == DeviceQuarantined && HeartbeatTx(s, d, o, inFlight).Commit?
    ensures var dev, after := s.devices[d], HeartbeatTx(s, d, o, inFlight).post.devices;
            && d in after
            && (after[d].lifecycle == DeviceQuarantined <==> !HeartbeatLifts(dev, o, inFlight))
            && (!HeartbeatLifts(dev, o, inFlight) ==> after[d] == dev.(providerBusy := o.providerBusy))
            && (HeartbeatLifts(dev, o, inFlight) ==>
                  && after[d].health == HealthHealthy && after[d].reason == None && after[d].failures == 0
                  && after[d].lifecycle == (
                       if exists r :: Holds(s, r, d, ReservationActive) then DeviceBusy
                       else if exists r :: Holds(s, r, d, ReservationPending) then DeviceReserved
                       else if o.lifecycle == DeviceStopped then DeviceStopped else DeviceReady))
  {
    if s.devices[d].reason.Some? {
      GroundsAreReasons(s.devices[d].reason.value);
    }
    Assignments(s, d);
  }

  ghost predicate Holds(s: State, r: ReservationId, d: DeviceId, status: ReservationStatus) {
    r in s.reservations && s.reservations[r].status == status && s.reservations[r].device == Some(d)
  }

  lemma Assignments(s: State, d: DeviceId)
    ensures AssignmentTarget(s, d) == if exists r :: Holds(s, r, d, ReservationActive) then Some(DeviceBusy)
                                      else if exists r :: Holds(s, r, d, ReservationPending) then Some(DeviceReserved)
                                      else None
  {
    if HasActive(s, d) {
      var r :| && r in s.reservations && s.reservations[r].status == ReservationActive
               && s.reservations[r].device == Some(d);
      assert Holds(s, r, d, ReservationActive);
    }
    if HasPending(s, d) {
      var r :| && r in s.reservations && s.reservations[r].status == ReservationPending
               && s.reservations[r].device == Some(d);
      assert Holds(s, r, d, ReservationPending);
    }
  }

  /** A heartbeat on a device that is not quarantined. One with a command in flight, and a deleted one, keep
      everything. The health seen is taken over with its reason, except that a healthy sight leaves STF's verdict
      alone; the lifecycle of an assigned or recycling device stays, and any other follows the boot, the readiness or
      the stop that was seen. */
  lemma HeartbeatFollows(s: State, d: DeviceId, o: Discovered, inFlight: bool)
    requires d in s.devices && s.devices[d].lifecycle != DeviceQuarantined && HeartbeatTx(s, d, o, inFlight).Commit?
    ensures var dev, after := s.devices[d], HeartbeatTx(s, d, o, inFlight).post.devices;
            && d in after && after[d].providerBusy == o.providerBusy
            && (inFlight || dev.lifecycle == DeviceDeleted ==> after[d] == dev.(providerBusy := o.providerBusy))
            && (!inFlight && dev.lifecycle != DeviceDeleted ==>
                  && after[d].health == (if Kept(dev, o) then dev.health else o.health)
                  && (Kept(dev, o) ==> after[d].reason == dev.reason && after[d].failures == dev.failures)
                  && (!Kept(dev, o) && o.health == HealthHealthy ==> after[d].reason == None && after[d].failures == 0)
                  && (o.health != HealthHealthy ==> after[d].reason.Some? && after[d].failures == dev.failures)
                  && after[d].lifecycle == Followed(dev.lifecycle, o.lifecycle))
  {
    if s.devices[d].reason.Some? {
      GroundsAreReasons(s.devices[d].reason.value);
    }
  }

  /** A healthy sight of a device STF has given its verdict on. */
  ghost predicate Kept(dev: Device, o: Discovered) {
    o.health == HealthHealthy && dev.reason.Some? && BySTF(dev.reason.value)
  }

  /** A boot is followed from provisioning and stopped, readiness from there and from booting, a stop from booting and
      ready. */
  function Followed(l: Lifecycle, seen: Lifecycle): (result: Lifecycle) {
    if seen == DeviceBooting && l in {DeviceProvisioning, DeviceStopped} then DeviceBooting
    else if seen == DeviceReady && l in {DeviceProvisioning, DeviceStopped, DeviceBooting} then DeviceReady
    else if seen == DeviceStopped && l in {DeviceBooting, DeviceReady} then DeviceStopped
    else l
  }

  // ---- Reports ----

  /** The failures a report leaves: none after a recovery, as many after other information, and one more otherwise
      unless that is suppressed. */
  function FailuresAfter(dev: Device, i: Report): (result: nat) {
    if i.severity == Info then if i.recovered then 0 else dev.failures
    else if i.suppressCount then dev.failures else dev.failures + 1
  }

  function HealthAfter(dev: Device, i: Report): (result: Health) {
    if i.severity == Info then if i.recovered then HealthHealthy else dev.health
    else if i.severity == Warning then HealthDegraded else HealthUnhealthy
  }

  /** A report isolates by force, or unless that is suppressed when the failures reach the threshold. */
  ghost predicate Isolates(dev: Device, i: Report, threshold: nat) {
    i.force || (!i.suppressQuarantine && FailuresAfter(dev, i) >= threshold)
  }

  ghost predicate ReportLifts(dev: Device, i: Report) {
    && i.severity == Info && i.recovered
    && dev.reason.Some? && (BySTF(dev.reason.value) || ByInfrastructure(dev.reason.value))
  }

  /** A report with a reason, on any device: the health and the failures it leaves, and the lifecycle. It isolates
      whatever it finds, except that a deleted device makes it fail; it lifts a quarantine exactly when it is a
      recovery, the device was isolated because of the infrastructure or STF, and it does not isolate by itself. */
  lemma ReportAnswers(s: State, d: DeviceId, i: Report, threshold: nat)
    requires d in s.devices && TrimSpace(i.reason) != ""
    ensures var dev, outcome := s.devices[d], ReportTx(s, d, i, threshold);
            && (outcome.Commit? <==> !(dev.lifecycle == DeviceDeleted && Isolates(dev, i, threshold)))
            && (outcome.Commit? ==>
                  outcome.post == s.(devices := s.devices[d := dev.(
                    lifecycle := LifecycleAfter(s, d, i, threshold), health := HealthAfter(dev, i),
                    reason := Some(i.reason), failures := FailuresAfter(dev, i))]))
  {
    OutcomeAnswers(s.devices[d], i);
    if s.devices[d].reason.Some? {
      GroundsAreReasons(s.devices[d].reason.value);
    }
    Assignments(s, d);
  }

  lemma OutcomeAnswers(dev: Device, i: Report)
    ensures HealthOutcome(dev, i) == (HealthAfter(dev, i), FailuresAfter(dev, i))
  {
  }

  ghost function LifecycleAfter(s: State, d: DeviceId, i: Report, threshold: nat): (result: Lifecycle)
    requires d in s.devices
  {
    if Isolates(s.devices[d], i, threshold) then DeviceQuarantined
    else if s.devices[d].lifecycle == DeviceQuarantined && ReportLifts(s.devices[d], i) then
      if exists r :: Holds(s, r, d, ReservationActive) then DeviceBusy
      else if exists r :: Holds(s, r, d, ReservationPending) then DeviceReserved
      else DeviceReady
    else s.devices[d].lifecycle
  }

  /** A simulator the complete inventory does not list is isolated exactly when it is registered, neither quarantined
      nor deleted, unseen for thirty seconds and without a command under way. */
  lemma MissingAnswers(s: State, d: DeviceId, unseen: int, inFlight: bool)
    ensures var outcome := MissingTx(s, d, unseen, inFlight);
            if && d in s.devices && s.devices[d].platform == Ios && s.devices[d].kind == Simulator && !inFlight
               && unseen >= 30_000_000 && s.devices[d].lifecycle !in {DeviceQuarantined, DeviceDeleted}
            then
              && outcome.Commit? && d in outcome.post.devices
              && outcome.post.devices[d].lifecycle == DeviceQuarantined
              && outcome.post.devices[d].health == HealthUnhealthy
              && outcome.post.devices[d].failures == s.devices[d].failures + 1
              && outcome.post.devices[d].reason.Some? && ByInfrastructure(outcome.post.devices[d].reason.value)
            else outcome == Commit(s)
  {
    MissingIsInfrastructure();
  }

  // ---- Queueing and isolating by hand ----

  /** A command is queued only on a device that is ready, stopped or quarantined, where its kind allows it, and, except
      for a restart, only when nobody holds the device and no other command of it is active. What is rebuilt, and
      whatever was quarantined, goes back to provisioning; another stopped device boots, and another ready one stops.
      Nothing is known of its health until the command ends. A delete only notes why and takes the device out of its
      pool. */
  lemma QueueAnswers(s: State, d: DeviceId, kind: CommandKind, why: string, active: bool)
    ensures QueueTx(s, d, kind, why, active).Commit? <==>
            && d in s.devices
            && (kind != Restart ==>
                  !active && forall r :: !Holds(s, r, d, ReservationActive) && !Holds(s, r, d, ReservationPending))
            && var l := s.devices[d].lifecycle;
               match kind
               case Create => false
               case Start => l == DeviceStopped
               case Stop => l == DeviceReady
               case SelfHeal => l == DeviceQuarantined || l == DeviceStopped
               case _ => l == DeviceQuarantined || l == DeviceStopped || l == DeviceReady
    ensures QueueTx(s, d, kind, why, active).Commit? ==>
              var dev, t := s.devices[d], QueueTx(s, d, kind, why, active).post;
              && d in t.devices && t == s.(devices := s.devices[d := t.devices[d]])
              && (kind == Delete ==> t.devices[d] == dev.(reason := Some(TrimSpace(why)), pool := None))
              && (kind != Delete ==>
                    && t.devices[d].health == HealthUnknown && t.devices[d].pool == dev.pool
                    && t.devices[d].failures == dev.failures
                    && t.devices[d].lifecycle ==
                       if dev.lifecycle == DeviceQuarantined || kind in {Rebuild, Reimage, ProfileUpdate}
                       then DeviceProvisioning
                       else if dev.lifecycle == DeviceStopped then DeviceBooting
                       else DeviceStopped)
  {
    Assignments(s, d);
    assert HasOpen(s, d) <==>
           exists r :: Holds(s, r, d, ReservationActive) || Holds(s, r, d, ReservationPending) by {
      if r :| Holds(s, r, d, ReservationActive) || Holds(s, r, d, ReservationPending) {
        assert s.reservations[r].device == Some(d);
      }
    }
  }

  /** A drifted device, and one an administrator isolates, ends quarantined, whatever it was, unless it is deleted.
      Drift leaves a quarantine as it was; an administrator is told of it. */
  lemma IsolationAnswers(s: State, d: DeviceId, why: string)
    ensures DriftTx(s, d, why).Commit? <==> d in s.devices && s.devices[d].lifecycle != DeviceDeleted
    ensures OperatorQuarantineTx(s, d).Commit? <==>
            && d in s.devices && s.devices[d].lifecycle != DeviceDeleted && s.devices[d].lifecycle != DeviceQuarantined
    ensures DriftTx(s, d, why).Commit? ==>
              var dev, t := s.devices[d], DriftTx(s, d, why).post;
              && t == s.(devices := s.devices[d := t.devices[d]])
              && d in t.devices && t.devices[d].lifecycle == DeviceQuarantined
              && (dev.lifecycle == DeviceQuarantined ==> t.devices[d] == dev)
              && (dev.lifecycle != DeviceQuarantined ==>
                    && t.devices[d].health == HealthDegraded && t.devices[d].reason == Some(why)
                    && t.devices[d].failures == dev.failures + 1)
    ensures OperatorQuarantineTx(s, d).Commit? ==>
              OperatorQuarantineTx(s, d).post
              == s.(devices := s.devices[d := s.devices[d].(lifecycle := DeviceQuarantined, health := HealthUnhealthy)])
    ensures UnquarantineTx(s, d).Commit? <==>
            && d in s.devices && s.devices[d].lifecycle in {DeviceReady, DeviceStopped, DeviceQuarantined}
    ensures UnquarantineTx(s, d).Commit? ==>
              UnquarantineTx(s, d).post
              == s.(devices := s.devices[d := s.devices[d].(
                       lifecycle := DeviceProvisioning, health := HealthUnknown, failures := 0)])
  {
  }

  // ---- A quarantine on other grounds ----

  /** Isolated for a reason that nothing automatic lifts. */
  ghost predicate Isolated(s: State, d: DeviceId, reason: string) {
    && d in s.devices && s.devices[d].lifecycle == DeviceQuarantined && s.devices[d].reason == Some(reason)
    && !BySTF(reason) && !ByInfrastructure(reason)
  }

  /** What may lift such a quarantine or change its reason: an administrator who lifts it or queues a command, the end
      of a command, and a report that gives another reason. */
  ghost predicate Intervenes(step: Step, d: DeviceId, reason: string) {
    && step.OfDevice? && step.d == d
    && match step.device
       case UnquarantineStep => true
       case QueueStep(kind, why, active) => true
       case CompleteStep(kind, state, outcome, note) => true
       case ReportStep(report) => report.reason != reason
       case _ => false
  }

  lemma ObservationLeavesIsolated(s: State, d: DeviceId, step: DeviceStep, threshold: nat, reason: string)
    requires Isolated(s, d, reason) && DeviceTx(s, d, step, threshold).Commit?
    requires !Intervenes(OfDevice(d, step), d, reason)
    ensures Isolated(DeviceTx(s, d, step, threshold).post, d, reason)
  {
    match step
    case HeartbeatStep(o, inFlight) => HeartbeatLiftsExactlyWhen(s, d, o, inFlight);
    case MissingStep(unseen, inFlight) =>
    case ReportStep(report) => ReportAnswers(s, d, report, threshold);
    case DriftStep(why) =>
    case OperatorQuarantineStep =>
  }

  lemma CloseLeavesIsolated(s: State, r: ReservationId, terminal: ReservationStatus, d: DeviceId, reason: string)
    requires Isolated(s, d, reason) && CloseTx(s, r, terminal).Commit?
    ensures Isolated(CloseTx(s, r, terminal).post, d, reason)
  {
  }

  lemma LockedLeavesIsolated(s: State, r: ReservationId, force: bool, d: DeviceId, reason: string)
    requires Isolated(s, d, reason) && r in s.reservations && ReleaseLockedTx(s, r, force).Commit?
    ensures Isolated(ReleaseLockedTx(s, r, force).post, d, reason)
  {
    LockedShape(s, r, force);
    if s.reservations[r].status == ReservationActive && ReleaseLockedTx(s, r, force).post != s {
      CloseLeavesIsolated(s, r, if force then ReservationForceReleased else ReservationReleased, d, reason);
    }
  }

  lemma LeaseLeavesIsolated(s: State, step: LeaseStep, d: DeviceId, reason: string)
    requires Isolated(s, d, reason) && LeaseTx(s, step).Commit?
    ensures Isolated(LeaseTx(s, step).post, d, reason)
  {
    match step
    case ReleaseStep(client, console, key, r, why, force) =>
      ReleaseShape(s, client, console, key, r, why, force);
      if LeaseTx(s, step).post != s {
        LockedLeavesIsolated(ReleaseBegun(s, client, key, r, why, force), r, force, d, reason);
      }
    case CreateStep(r, q, actor) =>
    case ExtendStep(client, key, r, seconds) =>
    case KeepAliveStep(r, owner, e, seconds) =>
    case StaleStep(r, timeout, grace) =>
    case OrphanStep(r, grace) =>
  }

  lemma RoundLeavesIsolated(s: State, round: Round, step: RoundStep, d: DeviceId, reason: string)
    requires Isolated(s, d, reason) && RoundTx(s, round, step).Commit?
    ensures Isolated(RoundTx(s, round, step).post, d, reason)
  {
    match step
    case ReserveStep(r, e) => assert s.devices[e].lifecycle == DeviceReady;
    case ActivateStep(id) =>
    case UndoStep(code, terminal) =>
    case DieStep =>
  }

  lemma SweepLeavesIsolated(s: State, sweep: Sweep, step: SweepStep, grace: nat, d: DeviceId, reason: string)
    requires Isolated(s, d, reason) && SweepTx(s, sweep, step, grace).Commit?
    ensures Isolated(SweepTx(s, sweep, step, grace).post, d, reason)
  {
    if step == CloseStep {
      CloseLeavesIsolated(s, sweep.r, ReservationExpired, d, reason);
    }
  }

  lemma StepLeavesIsolated(w: World, step: Step, d: DeviceId, reason: string)
    requires Isolated(w.db, d, reason) && !Intervenes(step, d, reason)
    ensures Isolated(Next(w, step).db, d, reason)
  {
    var s := w.db;
    if Transact(w, step).Commit? {
      match step
      case OfRound(k, round) => RoundLeavesIsolated(s, RoundOf(w, k), round, d, reason);
      case OfLease(lease) => LeaseLeavesIsolated(s, lease, d, reason);
      case OfSweep(k, sweep) => SweepLeavesIsolated(s, SweepOf(w, k), sweep, w.policy.grace, d, reason);
      case OfDevice(e, device) =>
        if e == d {
          ObservationLeavesIsolated(s, d, device, w.policy.threshold, reason);
        } else {
          DeviceStepsTouch(s, e, device, w.policy.threshold);
        }
      case OfFence(r, grant, fence) => FenceStepsTouch(s, w.issued, r, grant, fence);
      case _ =>
    }
  }

  /** A device isolated for any reason but those of the infrastructure and of STF stays quarantined, with its reason,
      through every run of heartbeats, drift isolations, inventories, reports that repeat the reason and everything else
      the farm does, until an administrator or a command takes it up or a report gives another reason. */
  lemma {:induction false} IsolationLasts(w: World, steps: seq<Step>, d: DeviceId, reason: string)
    requires Isolated(w.db, d, reason)
    requires forall i :: 0 <= i < |steps| ==> !Intervenes(steps[i], d, reason)
    ensures Isolated(Run(w, steps).db, d, reason)
    decreases |steps|
  {
    if steps == [] {
    } else {
      StepLeavesIsolated(w, steps[0], d, reason);
      IsolationLasts(Next(w, steps[0]), steps[1..], d, reason);
    }
  }
}
