/** The coupling between reservations, devices and sessions, kept by every transaction. */
module Coupling {
  import opened Domain
  import opened Rows
  import opened Scheduling
  import opened Reservations
  import opened Observation
  import opened Completion
  import opened Protocol

  /** The lifecycle a device has while the reservation holds it, unless it is quarantined. */
  function HeldLifecycle(status: ReservationStatus): (result: Lifecycle) {
    if status == ReservationActive then DeviceBusy else DeviceReserved
  }

  /** An open reservation holds a real device, which is assigned accordingly or quarantined. */
  ghost predicate HolderHasDevice(s: State, r: ReservationId)
    requires r in s.reservations
  {
    var row := s.reservations[r];
    && (row.status == ReservationActive ==> row.device.Some?)
    && (Open(row) && row.device.Some? ==>
          && row.device.value in s.devices
          && s.devices[row.device.value].lifecycle in {HeldLifecycle(row.status), DeviceQuarantined})
  }

  /** An assigned device has the reservation that assigns it. */
  ghost predicate DeviceHasHolder(s: State, d: DeviceId)
    requires d in s.devices
  {
    && (s.devices[d].lifecycle == DeviceBusy ==> HasActive(s, d))
    && (s.devices[d].lifecycle == DeviceReserved ==> HasPending(s, d))
  }

  ghost predicate SoleHolder(s: State, r: ReservationId, d: DeviceId) {
    forall q :: q in s.reservations && Bound(s.reservations[q], d) ==> q == r
  }

  ghost predicate Coupled(s: State) {
    && (forall r :: r in s.reservations ==> HolderHasDevice(s, r))
    && (forall d :: d in s.devices ==> DeviceHasHolder(s, d))
    && (forall r, d :: r in s.reservations && Bound(s.reservations[r], d) ==> SoleHolder(s, r, d))
  }

  // ---- Two shapes of change ----

  /** A transaction on reservation `r` and device `d` alone. */
  lemma Rebind(s: State, t: State, r: ReservationId, d: DeviceId)
    requires Coupled(s) && d in s.devices && r in t.reservations && d in t.devices
    requires t.reservations == s.reservations[r := t.reservations[r]]
    requires t.devices == s.devices[d := t.devices[d]]
    requires SoleHolder(s, r, d)
    requires r in s.reservations && Open(s.reservations[r]) && s.reservations[r].device.Some? ==>
               s.reservations[r].device == Some(d)
    requires Open(t.reservations[r]) && t.reservations[r].device.Some? ==> t.reservations[r].device == Some(d)
    requires t.reservations[r].status == ReservationActive ==> t.reservations[r].device.Some?
    requires if Bound(t.reservations[r], d)
             then t.devices[d].lifecycle in {HeldLifecycle(t.reservations[r].status), DeviceQuarantined}
             else t.devices[d].lifecycle !in {DeviceBusy, DeviceReserved}
    ensures Coupled(t)
  {
    forall q | q in t.reservations
      ensures HolderHasDevice(t, q)
    {
      if q != r {
        assert HolderHasDevice(s, q);
        assert !Bound(s.reservations[q], d);
      }
    }
    forall e | e in t.devices
      ensures DeviceHasHolder(t, e)
    {
      if e != d {
        assert DeviceHasHolder(s, e);
        Witnesses(s, t, r, d, e);
      } else {
        assert t.reservations[r] == t.reservations[r];
      }
    }
    forall q, e | q in t.reservations && Bound(t.reservations[q], e)
      ensures SoleHolder(t, q, e)
    {
      if q != r {
        assert SoleHolder(s, q, e);
      }
    }
  }

  /** Holders of other devices stay. */
  lemma Witnesses(s: State, t: State, r: ReservationId, d: DeviceId, e: DeviceId)
    requires e != d && r in t.reservations
    requires t.reservations == s.reservations[r := t.reservations[r]]
    requires r in s.reservations && Open(s.reservations[r]) && s.reservations[r].device.Some? ==>
               s.reservations[r].device == Some(d)
    ensures HasActive(s, e) ==> HasActive(t, e)
    ensures HasPending(s, e) ==> HasPending(t, e)
  {
    if HasActive(s, e) {
      var q :| q in s.reservations && s.reservations[q].status == ReservationActive
          && s.reservations[q].device == Some(e);
      assert q in t.reservations && t.reservations[q] == s.reservations[q];
    }
    if HasPending(s, e) {
      var q :| q in s.reservations && s.reservations[q].status == ReservationPending
          && s.reservations[q].device == Some(e);
      assert q in t.reservations && t.reservations[q] == s.reservations[q];
    }
  }

  /** What the coupling says about one device. */
  lemma Assignment(s: State, d: DeviceId)
    requires Coupled(s) && d in s.devices
    ensures AssignmentTarget(s, d).Some? ==> s.devices[d].lifecycle in {AssignmentTarget(s, d).value, DeviceQuarantined}
    ensures s.devices[d].lifecycle in {DeviceBusy, DeviceReserved} ==>
              AssignmentTarget(s, d) == Some(s.devices[d].lifecycle)
    ensures AssignmentTarget(s, d).Some? <==> HasOpen(s, d)
    ensures !(HasActive(s, d) && HasPending(s, d))
  {
    if HasActive(s, d) {
      var q :| q in s.reservations && s.reservations[q].status == ReservationActive
          && s.reservations[q].device == Some(d);
      assert HolderHasDevice(s, q);
      assert Bound(s.reservations[q], d) && SoleHolder(s, q, d);
    }
    if HasPending(s, d) {
      var q :| q in s.reservations && s.reservations[q].status == ReservationPending
          && s.reservations[q].device == Some(d);
      assert HolderHasDevice(s, q);
      assert Bound(s.reservations[q], d) && SoleHolder(s, q, d);
    }
    assert DeviceHasHolder(s, d);
  }

  /** A change of one device alone keeps the coupling exactly when the new lifecycle is the assigned
      one, or quarantine, or unassigned while no reservation is open on it. */
  lemma Relabel(s: State, t: State, d: DeviceId)
    requires Coupled(s) && d in s.devices && d in t.devices
    requires t.reservations == s.reservations && t.devices == s.devices[d := t.devices[d]]
    ensures Coupled(t) <==>
            var l := t.devices[d].lifecycle;
            && (AssignmentTarget(s, d).Some? ==> l in {AssignmentTarget(s, d).value, DeviceQuarantined})
            && (l in {DeviceBusy, DeviceReserved} ==> AssignmentTarget(s, d) == Some(l))
  {
    var l := t.devices[d].lifecycle;
    assert HasActive(s, d) == HasActive(t, d) && HasPending(s, d) == HasPending(t, d);
    if Coupled(t) {
      Assignment(t, d);
    }
    if && (AssignmentTarget(s, d).Some? ==> l in {AssignmentTarget(s, d).value, DeviceQuarantined})
       && (l in {DeviceBusy, DeviceReserved} ==> AssignmentTarget(s, d) == Some(l))
    {
      Assignment(s, d);
      forall q | q in t.reservations
        ensures HolderHasDevice(t, q)
      {
        assert HolderHasDevice(s, q);
        if Bound(s.reservations[q], d) && s.reservations[q].status == ReservationActive {
          assert HasActive(s, d);
        }
        if Bound(s.reservations[q], d) && s.reservations[q].status == ReservationPending {
          assert HasPending(s, d);
        }
      }
      forall e | e in t.devices
        ensures DeviceHasHolder(t, e)
      {
        if e != d {
          assert DeviceHasHolder(s, e);
        }
        assert HasActive(s, e) == HasActive(t, e) && HasPending(s, e) == HasPending(t, e);
      }
      forall q, e | q in t.reservations && Bound(t.reservations[q], e)
        ensures SoleHolder(t, q, e)
      {
        assert SoleHolder(s, q, e);
      }
    }
  }

  // ---- Every transaction keeps the coupling ----

  /** A transaction that leaves devices and reservations alone. */
  lemma Untouched(s: State, t: State)
    requires Coupled(s) && t.devices == s.devices && t.reservations == s.reservations
    ensures Coupled(t)
  {
  }

  /** A reservation row that changes while it holds the same devices in the same way, or none. */
  lemma Rewritten(s: State, t: State, r: ReservationId)
    requires Coupled(s) && r in t.reservations
    requires t.devices == s.devices && t.reservations == s.reservations[r := t.reservations[r]]
    requires if r in s.reservations && Open(s.reservations[r]) && s.reservations[r].device.Some?
             then && t.reservations[r].status == s.reservations[r].status
                  && t.reservations[r].device == s.reservations[r].device
             else && !(Open(t.reservations[r]) && t.reservations[r].device.Some?)
                  && t.reservations[r].status != ReservationActive
    ensures Coupled(t)
  {
    forall q | q in t.reservations
      ensures HolderHasDevice(t, q)
    {
      if q in s.reservations { assert HolderHasDevice(s, q); }
    }
    forall d | d in t.devices
      ensures DeviceHasHolder(t, d)
    {
      assert DeviceHasHolder(s, d);
      if HasActive(s, d) {
        var q :| q in s.reservations && s.reservations[q].status == ReservationActive
            && s.reservations[q].device == Some(d);
        assert q in t.reservations && t.reservations[q].status == ReservationActive
            && t.reservations[q].device == Some(d);
      }
      if HasPending(s, d) {
        var q :| q in s.reservations && s.reservations[q].status == ReservationPending
            && s.reservations[q].device == Some(d);
        assert q in t.reservations && t.reservations[q].status == ReservationPending
            && t.reservations[q].device == Some(d);
      }
    }
    forall q, d | q in t.reservations && Bound(t.reservations[q], d)
      ensures SoleHolder(t, q, d)
    {
      assert SoleHolder(s, q, d);
    }
  }

  lemma ReserveKeeps(s: State, r: ReservationId, d: DeviceId)
    requires Coupled(s) && ReserveTx(s, r, d).Commit?
    ensures Coupled(ReserveTx(s, r, d).post)
  {
    var t := ReserveTx(s, r, d).post;
    forall q | q in s.reservations
      ensures !Bound(s.reservations[q], d)
    {
      assert HolderHasDevice(s, q);
    }
    Rebind(s, t, r, d);
  }

  lemma ActivateKeeps(s: State, r: ReservationId, d: DeviceId, id: SessionId)
    requires Coupled(s) && ActivateTx(s, r, d, id).Commit?
    ensures Coupled(ActivateTx(s, r, d, id).post)
  {
    assert Bound(s.reservations[r], d) && SoleHolder(s, r, d);
    Rebind(s, ActivateTx(s, r, d, id).post, r, d);
  }

  lemma CompensateKeeps(s: State, r: ReservationId, d: DeviceId, code: string, terminal: bool)
    requires Coupled(s) && CompensateTx(s, r, d, code, terminal).Commit?
    ensures Coupled(CompensateTx(s, r, d, code, terminal).post)
  {
    assert Bound(s.reservations[r], d) && SoleHolder(s, r, d);
    Rebind(s, CompensateTx(s, r, d, code, terminal).post, r, d);
  }

  lemma CloseKeeps(s: State, r: ReservationId, terminal: ReservationStatus)
    requires Coupled(s) && CloseTx(s, r, terminal).Commit?
    ensures Coupled(CloseTx(s, r, terminal).post)
  {
    var d := s.reservations[r].device.value;
    assert HolderHasDevice(s, r);
    assert Bound(s.reservations[r], d) && SoleHolder(s, r, d);
    Rebind(s, CloseTx(s, r, terminal).post, r, d);
  }

  lemma OrphanKeeps(s: State, r: ReservationId, grace: nat)
    requires Coupled(s) && OrphanTx(s, r, grace).Commit?
    ensures Coupled(OrphanTx(s, r, grace).post)
  {
    var d := s.reservations[r].device.value;
    assert Bound(s.reservations[r], d) && SoleHolder(s, r, d);
    Rebind(s, OrphanTx(s, r, grace).post, r, d);
  }

  /** Where a heartbeat takes a device that is assigned as it should be. */
  lemma ObservedLifecycle(dev: Device, o: Discovered, inFlight: bool, target: Option<Lifecycle>)
    requires Observed(dev, o, inFlight, target).Some?
    requires target.Some? ==>
               target.value in {DeviceBusy, DeviceReserved} && dev.lifecycle in {target.value, DeviceQuarantined}
    requires dev.lifecycle in {DeviceBusy, DeviceReserved} ==> target == Some(dev.lifecycle)
    ensures var l := Observed(dev, o, inFlight, target).value.lifecycle;
            && (target.Some? ==> l in {target.value, DeviceQuarantined})
            && (l in {DeviceBusy, DeviceReserved} ==> target == Some(l))
  {
  }

  lemma HeartbeatKeeps(s: State, d: DeviceId, o: Discovered, inFlight: bool)
    requires Coupled(s) && HeartbeatTx(s, d, o, inFlight).Commit?
    ensures Coupled(HeartbeatTx(s, d, o, inFlight).post)
  {
    if d in s.devices {
      Assignment(s, d);
      AssignmentTargets(s, d);
      ObservedLifecycle(s.devices[d], o, inFlight, AssignmentTarget(s, d));
      Relabel(s, HeartbeatTx(s, d, o, inFlight).post, d);
    }
  }

  lemma ReportKeeps(s: State, d: DeviceId, i: Report, threshold: nat)
    requires Coupled(s) && ReportTx(s, d, i, threshold).Commit?
    ensures Coupled(ReportTx(s, d, i, threshold).post)
  {
    Assignment(s, d);
    Relabel(s, ReportTx(s, d, i, threshold).post, d);
  }

  lemma IsolationKeeps(s: State, t: State, d: DeviceId)
    requires Coupled(s) && d in s.devices && d in t.devices
    requires t.reservations == s.reservations && t.devices == s.devices[d := t.devices[d]]
    requires t.devices[d].lifecycle == DeviceQuarantined
    ensures Coupled(t)
  {
  }

  /** Lifting a quarantine or restarting a quarantined device by hand keeps the coupling exactly when
      no reservation is open on the device. The code checks nothing of the kind. */
  lemma UnquarantineKeepsExactlyWhen(s: State, d: DeviceId)
    requires Coupled(s) && UnquarantineTx(s, d).Commit?
    ensures Coupled(UnquarantineTx(s, d).post) <==> !HasOpen(s, d)
  {
  }

  lemma QueueKeepsExactlyWhen(s: State, d: DeviceId, kind: CommandKind, why: string, active: bool)
    requires Coupled(s) && QueueTx(s, d, kind, why, active).Commit?
    ensures Coupled(QueueTx(s, d, kind, why, active).post) <==> !(kind == Restart && HasOpen(s, d))
  {
    Assignment(s, d);
    Relabel(s, QueueTx(s, d, kind, why, active).post, d);
  }

  /** Moving a device that is not assigned to a lifecycle that is not: all that matters is whether it
      leaves quarantine under an open reservation. */
  lemma EffectKeepsExactlyWhen(s: State, d: DeviceId, e: Effect, kind: CommandKind, outcome: CommandOutcome,
                               why: string)
    requires Coupled(s) && d in s.devices && EffectTx(s, d, e, kind, outcome, why).Commit?
    requires e.Sets? ==>
               s.devices[d].lifecycle !in {DeviceReserved, DeviceBusy} && e.lifecycle !in {DeviceReserved, DeviceBusy}
    ensures Coupled(EffectTx(s, d, e, kind, outcome, why).post) <==>
            !(e.Sets? && e.lifecycle != DeviceQuarantined && HasOpen(s, d)
              && s.devices[d].lifecycle == DeviceQuarantined)
  {
    Assignment(s, d);
    if e.Sets? {
      Relabel(s, EffectTx(s, d, e, kind, outcome, why).post, d);
    }
  }

  /** The outcomes that take a quarantined device out of quarantine: a profile update that ended with the device
      healthy, and a delete that was queued from quarantine and went through. */
  predicate Releases(kind: CommandKind, state: Lifecycle, o: CommandOutcome) {
    || (kind == ProfileUpdate && state == DeviceProvisioning && (Applied(o) || Restored(o)))
    || (kind == Delete && state == DeviceQuarantined && Deleted(o))
  }

  lemma ReleasesExactly(kind: CommandKind, state: Lifecycle, health: Health, o: CommandOutcome)
    requires Produces(kind, state)
    ensures var e := CompletionEffect(kind, state, DeviceQuarantined, health, o);
            e.Sets? && e.lifecycle != DeviceQuarantined <==> Releases(kind, state, o)
  {
    QuarantineCompletes(kind, state, health, o);
    if kind != Create {
      var from: Lifecycle :| QueuedLifecycle(kind, from) == Some(state);
    }
  }

  /** A completion keeps the coupling exactly unless a device that is quarantined under an open reservation
      is the target of such an outcome. */
  lemma CompleteKeepsExactlyWhen(s: State, d: DeviceId, kind: CommandKind, state: Lifecycle, outcome: CommandOutcome,
                                 why: string)
    requires Coupled(s) && CompleteTx(s, d, kind, state, outcome, why).Commit? && Produces(kind, state)
    ensures Coupled(CompleteTx(s, d, kind, state, outcome, why).post) <==>
            !(d in s.devices && s.devices[d].lifecycle == DeviceQuarantined && HasOpen(s, d)
              && Releases(kind, state, outcome))
  {
    if d in s.devices {
      var l, h := s.devices[d].lifecycle, s.devices[d].health;
      CompletionLeavesAssigned(kind, state, l, h, outcome);
      ReleasesExactly(kind, state, h, outcome);
      EffectKeepsExactlyWhen(s, d, CompletionEffect(kind, state, l, h, outcome), kind, outcome, why);
    }
  }

  /** Three steps that do not look at reservations, on a device that is quarantined under an open one: an administrator
      lifts the quarantine or restarts the device, or a command an administrator queued before completes. */
  predicate Careless(s: State, d: DeviceId, step: DeviceStep) {
    && d in s.devices && s.devices[d].lifecycle == DeviceQuarantined && HasOpen(s, d)
    && match step
       case UnquarantineStep => true
       case QueueStep(kind, why, active) => kind == Restart
       case CompleteStep(kind, state, outcome, note) => Releases(kind, state, outcome)
       case _ => false
  }

  lemma RoundKeeps(s: State, round: Round, step: RoundStep)
    requires Coupled(s) && RoundTx(s, round, step).Commit?
    ensures Coupled(RoundTx(s, round, step).post)
  {
    match step
    case ReserveStep(r, d) => ReserveKeeps(s, r, d);
    case ActivateStep(id) => ActivateKeeps(s, round.r, round.d, id);
    case UndoStep(code, terminal) => CompensateKeeps(s, round.r, round.d, code, terminal);
    case DieStep =>
  }

  lemma CreateKeeps(s: State, r: ReservationId, q: Request, actor: string)
    requires Coupled(s) && CreateTx(s, r, q, actor).Commit?
    ensures Coupled(CreateTx(s, r, q, actor).post)
  {
    if CreateTx(s, r, q, actor).post != s {
      Rewritten(s, CreateTx(s, r, q, actor).post, r);
    }
  }

  lemma LeaseKeeps(s: State, step: LeaseStep)
    requires Coupled(s) && LeaseTx(s, step).Commit?
    ensures Coupled(LeaseTx(s, step).post)
  {
    var t := LeaseTx(s, step).post;
    match step
    case CreateStep(r, q, actor) => CreateKeeps(s, r, q, actor);
    case ExtendStep(client, key, r, seconds) => if t != s { Rewritten(s, t, r); }
    case KeepAliveStep(r, owner, d, seconds) => Rewritten(s, t, r);
    case ReleaseStep(client, console, key, r, why, force) => ReleaseKeeps(s, client, console, key, r, why, force);
    case StaleStep(r, timeout, grace) => Rewritten(s, t, r);
    case OrphanStep(r, grace) => OrphanKeeps(s, r, grace);
  }

  lemma SweepKeeps(s: State, sweep: Sweep, step: SweepStep, grace: nat)
    requires Coupled(s) && SweepTx(s, sweep, step, grace).Commit?
    ensures Coupled(SweepTx(s, sweep, step, grace).post)
  {
    match step
    case CloseStep => CloseKeeps(s, sweep.r, ReservationExpired);
    case FailStep =>
      if sweep.Deleting? && sweep.r in s.sessions { DriftKeeps(s, s.sessions[sweep.r].device, IOS_CLEANUP_FAILED); }
    case _ => Untouched(s, SweepTx(s, sweep, step, grace).post);
  }

  lemma DeviceKeepsExactlyWhen(s: State, d: DeviceId, step: DeviceStep, threshold: nat)
    requires Coupled(s) && DeviceTx(s, d, step, threshold).Commit?
    ensures Coupled(DeviceTx(s, d, step, threshold).post) <==> !Careless(s, d, step)
  {
    var t := DeviceTx(s, d, step, threshold).post;
    match step
    case HeartbeatStep(o, inFlight) => HeartbeatKeeps(s, d, o, inFlight);
    case MissingStep(unseen, inFlight) => if t != s { IsolationKeeps(s, t, d); }
    case ReportStep(report) => ReportKeeps(s, d, report, threshold);
    case DriftStep(why) => DriftKeeps(s, d, why);
    case OperatorQuarantineStep => IsolationKeeps(s, t, d);
    case UnquarantineStep =>
      Assignment(s, d);
      UnquarantineKeepsExactlyWhen(s, d);
    case QueueStep(kind, why, active) =>
      Assignment(s, d);
      QueueKeepsExactlyWhen(s, d, kind, why, active);
    case CompleteStep(kind, state, outcome, note) => CompleteKeepsExactlyWhen(s, d, kind, state, outcome, note);
  }

  lemma CarelessCommits(s: State, d: DeviceId, step: DeviceStep, threshold: nat)
    requires Careless(s, d, step)
    ensures DeviceTx(s, d, step, threshold).Commit?
  {
    if step.CompleteStep? {
      assert QueuedLifecycle(ProfileUpdate, DeviceQuarantined) == Some(DeviceProvisioning);
      assert QueuedLifecycle(Delete, DeviceQuarantined) == Some(DeviceQuarantined);
      assert Produces(step.command, step.state);
      QueuedCommandsComplete(step.command, step.state, s.devices[d].lifecycle, s.devices[d].health, step.outcome);
    }
  }

  predicate CarelessStep(w: World, step: Step) {
    step.OfDevice? && Careless(w.db, step.d, step.device)
  }

  /** Every step of the farm keeps the coupling, exactly unless it is a careless one. */
  lemma StepKeepsCouplingExactlyWhen(w: World, step: Step)
    requires Coupled(w.db)
    ensures Coupled(Next(w, step).db) <==> !CarelessStep(w, step)
  {
    if CarelessStep(w, step) {
      CarelessCommits(w.db, step.d, step.device, w.policy.threshold);
    }
    if Transact(w, step).Commit? {
      match step
      case OfRound(k, round) => RoundKeeps(w.db, RoundOf(w, k), round);
      case OfLease(lease) => LeaseKeeps(w.db, lease);
      case OfSweep(k, sweep) => SweepKeeps(w.db, SweepOf(w, k), sweep, w.policy.grace);
      case OfDevice(d, device) => DeviceKeepsExactlyWhen(w.db, d, device, w.policy.threshold);
      case OfFence(r, grant, fence) =>
        FenceStepsTouch(w.db, w.issued, r, grant, fence);
        Untouched(w.db, Next(w, step).db);
      case _ => Untouched(w.db, Next(w, step).db);
    }
  }

  lemma DriftKeeps(s: State, d: DeviceId, why: string)
    requires Coupled(s) && DriftTx(s, d, why).Commit?
    ensures Coupled(DriftTx(s, d, why).post)
  {
  }

  lemma ReleaseKeeps(s: State, client: nat, console: Option<string>, key: string, r: ReservationId, why: string,
                     force: bool)
    requires Coupled(s) && ReleaseTx(s, client, console, key, r, why, force).Commit?
    ensures Coupled(ReleaseTx(s, client, console, key, r, why, force).post)
  {
    var t := ReleaseTx(s, client, console, key, r, why, force).post;
    var begun := ReleaseBegun(s, client, key, r, why, force);
    Untouched(s, begun);
    if t != s && t != begun {
      if s.reservations[r].status == ReservationActive {
        CloseKeeps(begun, r, if force then ReservationForceReleased else ReservationReleased);
      } else {
        Rewritten(s, t, r);
      }
    }
  }
}
