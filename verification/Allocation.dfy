/** Which reservation gets which device, said on the columns of the rows: what a device must be to serve a request, who
    comes first, and that nobody ever holds a device it did not ask for. */
module Allocation {
  import opened Domain
  import opened Rows
  import opened Scheduling
  import opened Reservations
  import opened Protocol
  import opened Occupancy
  import opened Safety

  /** The device can serve the request now: the named device if one is named, the platform if one is asked for, every
      wanted capability, at least the API level; ready and healthy, in an enabled pool of its own platform, on an online
      host that is not draining. */
  ghost predicate Fits(s: State, q: Request, d: DeviceId) {
    && d in s.devices
    && var dev := s.devices[d];
       && (q.target == None || q.target == Some(d))
       && (q.platform == None || q.platform == Some(dev.platform))
       && (forall k :: k in q.wanted ==> k in dev.caps && dev.caps[k] == q.wanted[k])
       && (q.minSdk == 0 || dev.apiLevel >= q.minSdk)
       && dev.lifecycle == DeviceReady && dev.health == HealthHealthy
       && dev.pool.Some? && dev.pool.value in s.pools
       && s.pools[dev.pool.value].enabled && s.pools[dev.pool.value].platform == dev.platform
       && dev.host in s.hosts && s.hosts[dev.host].status == HostOnline && !s.hosts[dev.host].draining
  }

  /** A reservation that waits for a device, and did not fail to get one in the last five seconds. */
  ghost predicate Waits(s: State, r: ReservationId) {
    && r in s.reservations
    && s.reservations[r].status == ReservationPending && s.reservations[r].device == None
    && (s.reservations[r].failure == None || s.reservations[r].updated <= s.now - 5_000_000)
  }

  ghost predicate Earlier(a: int, i: nat, b: int, j: nat) {
    a < b || (a == b && i <= j)
  }

  /** The oldest reservation that can be served, and the oldest device that can serve it. */
  ghost predicate FirstPair(s: State, r: ReservationId, d: DeviceId) {
    && Waits(s, r) && Fits(s, s.reservations[r].request, d)
    && (forall q, e :: Waits(s, q) && Fits(s, s.reservations[q].request, e) ==>
                         Earlier(s.reservations[r].created, r, s.reservations[q].created, q))
    && (forall e :: Fits(s, s.reservations[r].request, e) ==> Earlier(s.devices[d].created, d, s.devices[e].created, e))
  }

  /** The pool of a host is active and runs fewer reservations on the host than its cap. */
  ghost predicate HasRoom(s: State, h: HostId) {
    && h in s.hostPool && s.hostPool[h] in s.pools && s.pools[s.hostPool[h]].enabled
    && |ActiveReservations(s, h)| < s.pools[s.hostPool[h]].maxConcurrency
  }

  lemma MatchingIsFitting(s: State, q: Request, d: DeviceId)
    ensures Matching(s, q, d) <==> Fits(s, q, d)
  {
  }

  lemma AllocatableIsWaiting(s: State, r: ReservationId)
    ensures Allocatable(s, r) <==> Waits(s, r) && exists d :: Fits(s, s.reservations[r].request, d)
  {
    if r in s.reservations {
      forall d
        ensures Matching(s, s.reservations[r].request, d) <==> Fits(s, s.reservations[r].request, d)
      {
        MatchingIsFitting(s, s.reservations[r].request, d);
      }
    }
  }

  lemma SelectionIsFirstPair(s: State, r: ReservationId, d: DeviceId)
    ensures r in s.reservations ==>
              (NextAllocatable(s, r) && NextDevice(s, s.reservations[r].request, d) <==> FirstPair(s, r, d))
  {
    if r in s.reservations {
      forall q
        ensures Allocatable(s, q) <==> Waits(s, q) && exists e :: Fits(s, s.reservations[q].request, e)
      {
        AllocatableIsWaiting(s, q);
      }
      forall e
        ensures Matching(s, s.reservations[r].request, e) <==> Fits(s, s.reservations[r].request, e)
      {
        MatchingIsFitting(s, s.reservations[r].request, e);
      }
    }
  }

  lemma RoomIsPolicy(s: State, h: HostId)
    ensures HasRoom(s, h) <==>
            PolicyForHost(s, h).Some? && |ActiveOnHost(s, h)| < PolicyForHost(s, h).value.maxConcurrency
  {
    assert ActiveReservations(s, h) == ActiveOnHost(s, h);
  }

  /** The first transaction reserves exactly the first pair, when its host has room: the device becomes reserved, the
      reservation holds it, and nothing else changes. */
  lemma ReservesExactlyWhen(s: State, r: ReservationId, d: DeviceId)
    ensures ReserveTx(s, r, d).Commit? <==> FirstPair(s, r, d) && HasRoom(s, s.devices[d].host)
    ensures ReserveTx(s, r, d).Commit? ==>
              ReserveTx(s, r, d).post == s.(
                devices := s.devices[d := s.devices[d].(lifecycle := DeviceReserved)],
                reservations := s.reservations[r := s.reservations[r].(
                  device := Some(d), failure := None, updated := s.now)])
  {
    SelectionIsFirstPair(s, r, d);
    AllocatableIsWaiting(s, r);
    if d in s.devices {
      RoomIsPolicy(s, s.devices[d].host);
    }
  }

  /** A reservation that waits while some device fits its request keeps the selection from coming back empty. */
  lemma WaitingIsNotPassedOver(s: State, r: ReservationId, d: DeviceId)
    requires Waits(s, r) && Fits(s, s.reservations[r].request, d)
    ensures Allocatable(s, r)
    ensures exists q, e :: FirstPair(s, q, e)
  {
    AllocatableIsWaiting(s, r);
    NextAllocatableExists(s, r);
    var q :| NextAllocatable(s, q);
    var some :| some in s.devices && Matching(s, s.reservations[q].request, some);
    NextDeviceExists(s, s.reservations[q].request, some);
    var e :| NextDevice(s, s.reservations[q].request, e);
    SelectionIsFirstPair(s, q, e);
  }

  /** The second transaction activates exactly a claim that still stands on a reserved device, on a host with room,
      under a new session; the lease runs from now for what was asked, and the session keeps the host and the route of
      the device as they are now. */
  lemma ActivatesExactlyWhen(s: State, r: ReservationId, d: DeviceId, id: SessionId)
    ensures ActivateTx(s, r, d, id).Commit? <==>
            && r in s.reservations && s.reservations[r].status == ReservationPending
            && s.reservations[r].device == Some(d)
            && d in s.devices && s.devices[d].lifecycle == DeviceReserved && HasRoom(s, s.devices[d].host)
            && r !in s.sessions && forall q :: q in s.sessions ==> s.sessions[q].id != id
    ensures ActivateTx(s, r, d, id).Commit? ==>
              var t := ActivateTx(s, r, d, id).post;
              && t.devices == s.devices[d := s.devices[d].(lifecycle := DeviceBusy)]
              && r in t.reservations && t.reservations[r].status == ReservationActive
              && t.reservations[r].device == Some(d)
              && t.reservations[r].starts == Some(s.now)
              && t.reservations[r].expires == Some(s.now + s.reservations[r].request.lease * 1_000_000)
              && r in t.sessions && t.sessions[r].id == id && t.sessions[r].device == d
              && t.sessions[r].status == SessionActive && t.sessions[r].started == s.now && t.sessions[r].ended == None
              && t.sessions[r].host == s.devices[d].host && t.sessions[r].routed == s.devices[d].routed
              && t.sessions[r].grant == None && t.sessions[r].appium == None
  {
    if d in s.devices {
      RoomIsPolicy(s, s.devices[d].host);
    }
  }

  // ---- Nobody holds what it did not ask for ----

  ghost predicate AskedFor(s: State, row: Reservation) {
    row.device.Some? ==>
      && (row.request.target == None || row.request.target == row.device)
      && row.device.value in s.devices
      && (row.request.platform == None || row.request.platform == Some(s.devices[row.device.value].platform))
  }

  ghost predicate AllAskedFor(s: State) {
    forall r :: r in s.reservations ==> AskedFor(s, s.reservations[r])
  }

  /** One reservation row written, with the device it had, none, or one it asked for. */
  lemma RowAskedFor(s: State, t: State, r: ReservationId)
    requires AllAskedFor(s) && SameDevices(s, t)
    requires t.reservations == s.reservations
             || (r in t.reservations && t.reservations == s.reservations[r := t.reservations[r]])
    requires t.reservations != s.reservations ==>
               || (r in s.reservations && t.reservations[r].request == s.reservations[r].request
                   && t.reservations[r].device == s.reservations[r].device)
               || AskedFor(t, t.reservations[r])
    ensures AllAskedFor(t)
  {
    forall q | q in t.reservations
      ensures AskedFor(t, t.reservations[q])
    {
      if q in s.reservations {
        assert AskedFor(s, s.reservations[q]);
      }
    }
  }

  lemma ReserveAskedFor(s: State, r: ReservationId, d: DeviceId)
    requires AllAskedFor(s) && ReserveTx(s, r, d).Commit?
    ensures AllAskedFor(ReserveTx(s, r, d).post)
  {
    ReservesExactlyWhen(s, r, d);
    RowAskedFor(s, ReserveTx(s, r, d).post, r);
  }

  lemma RoundAskedFor(s: State, round: Round, step: RoundStep)
    requires AllAskedFor(s) && RoundTx(s, round, step).Commit?
    ensures AllAskedFor(RoundTx(s, round, step).post)
  {
    match step
    case ReserveStep(r, d) => ReserveAskedFor(s, r, d);
    case ActivateStep(id) => RowAskedFor(s, RoundTx(s, round, step).post, round.r);
    case UndoStep(code, terminal) => RowAskedFor(s, RoundTx(s, round, step).post, round.r);
    case DieStep =>
  }

  lemma CloseAskedFor(s: State, r: ReservationId, terminal: ReservationStatus)
    requires AllAskedFor(s) && CloseTx(s, r, terminal).Commit?
    ensures AllAskedFor(CloseTx(s, r, terminal).post)
  {
    RowAskedFor(s, CloseTx(s, r, terminal).post, r);
  }

  lemma LockedAskedFor(s: State, r: ReservationId, force: bool)
    requires AllAskedFor(s) && r in s.reservations && ReleaseLockedTx(s, r, force).Commit?
    ensures AllAskedFor(ReleaseLockedTx(s, r, force).post)
  {
    LockedShape(s, r, force);
    if ReleaseLockedTx(s, r, force).post != s && s.reservations[r].status == ReservationActive {
      CloseAskedFor(s, r, if force then ReservationForceReleased else ReservationReleased);
    } else {
      RowAskedFor(s, ReleaseLockedTx(s, r, force).post, r);
    }
  }

  lemma ReleaseAskedFor(s: State, client: nat, console: Option<string>, key: string, r: ReservationId, why: string,
                        force: bool)
    requires AllAskedFor(s) && ReleaseTx(s, client, console, key, r, why, force).Commit?
    ensures AllAskedFor(ReleaseTx(s, client, console, key, r, why, force).post)
  {
    ReleaseShape(s, client, console, key, r, why, force);
    if ReleaseTx(s, client, console, key, r, why, force).post != s {
      LockedAskedFor(ReleaseBegun(s, client, key, r, why, force), r, force);
    }
  }

  lemma CreateAskedFor(s: State, r: ReservationId, q: Request, actor: string)
    requires AllAskedFor(s) && CreateTx(s, r, q, actor).Commit?
    ensures AllAskedFor(CreateTx(s, r, q, actor).post)
  {
    RowAskedFor(s, CreateTx(s, r, q, actor).post, r);
  }

  lemma LeaseAskedFor(s: State, step: LeaseStep)
    requires AllAskedFor(s) && LeaseTx(s, step).Commit?
    ensures AllAskedFor(LeaseTx(s, step).post)
  {
    var t := LeaseTx(s, step).post;
    match step
    case CreateStep(r, q, actor) => CreateAskedFor(s, r, q, actor);
    case ExtendStep(client, key, r, seconds) => RowAskedFor(s, t, r);
    case KeepAliveStep(r, owner, d, seconds) => RowAskedFor(s, t, r);
    case ReleaseStep(client, console, key, r, why, force) => ReleaseAskedFor(s, client, console, key, r, why, force);
    case StaleStep(r, timeout, grace) => RowAskedFor(s, t, r);
    case OrphanStep(r, grace) => RowAskedFor(s, t, r);
  }

  lemma SweepAskedFor(s: State, sweep: Sweep, step: SweepStep, grace: nat)
    requires AllAskedFor(s) && SweepTx(s, sweep, step, grace).Commit?
    ensures AllAskedFor(SweepTx(s, sweep, step, grace).post)
  {
    if step == CloseStep {
      CloseAskedFor(s, sweep.r, ReservationExpired);
    } else {
      RowAskedFor(s, SweepTx(s, sweep, step, grace).post, 0);
    }
  }

  lemma StepAskedFor(w: World, step: Step)
    requires AllAskedFor(w.db)
    ensures AllAskedFor(Next(w, step).db)
  {
    var s, t := w.db, Next(w, step).db;
    if Transact(w, step).Commit? {
      match step
      case OfRound(k, round) => RoundAskedFor(s, RoundOf(w, k), round);
      case OfLease(lease) => LeaseAskedFor(s, lease);
      case OfSweep(k, sweep) => SweepAskedFor(s, SweepOf(w, k), sweep, w.policy.grace);
      case OfDevice(d, device) =>
        DeviceStepsTouch(s, d, device, w.policy.threshold);
        RowAskedFor(s, t, 0);
      case OfFence(r, grant, fence) =>
        FenceStepsTouch(s, w.issued, r, grant, fence);
        RowAskedFor(s, t, 0);
      case _ => RowAskedFor(s, t, 0);
    }
  }

  lemma {:induction false} RunAskedFor(w: World, steps: seq<Step>)
    requires AllAskedFor(w.db)
    ensures AllAskedFor(Run(w, steps).db)
    decreases |steps|
  {
    if steps == [] {
    } else {
      StepAskedFor(w, steps[0]);
      RunAskedFor(Next(w, steps[0]), steps[1..]);
    }
  }

  /** In every reachable state a reservation that named a device and holds one holds the one it named, and one that
      asked for a platform holds a device of it. */
  lemma HoldsWhatItNamed(w: World, steps: seq<Step>, r: ReservationId)
    requires Initial(w)
    requires r in Run(w, steps).db.reservations && Run(w, steps).db.reservations[r].device.Some?
    ensures var s := Run(w, steps).db;
            var row := s.reservations[r];
            && (row.request.target.Some? ==> row.device == row.request.target)
            && row.device.value in s.devices
            && (row.request.platform.Some? ==> s.devices[row.device.value].platform == row.request.platform.value)
  {
    RunAskedFor(w, steps);
    assert AskedFor(Run(w, steps).db, Run(w, steps).db.reservations[r]);
  }
}
