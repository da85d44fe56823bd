/** Host occupancy: active reservations on a host never exceed its pool's cap. Phase one may reserve
    more devices than the cap; the locked re-check of phase two is what prevents the overshoot. */
module Occupancy {
  import opened Domain
  import opened Rows
  import opened Scheduling
  import opened Reservations
  import opened Protocol
  import opened Leases

  ghost predicate WithinCap(s: State) {
    forall h: HostId :: PolicyForHost(s, h).Some? ==> |ActiveOnHost(s, h)| <= PolicyForHost(s, h).value.maxConcurrency
  }

  /** Whatever is active afterwards was active before on the same device, except what `r` may be. */
  ghost predicate OnlyActivates(s: State, t: State, r: Option<ReservationId>) {
    forall q :: q in t.reservations && t.reservations[q].status == ReservationActive && r != Some(q) ==>
                  q in s.reservations && s.reservations[q].status == ReservationActive
                  && t.reservations[q].device == s.reservations[q].device
  }

  ghost predicate Settled(s: State, t: State) {
    SameDevices(s, t) && t.pools == s.pools && t.hostPool == s.hostPool && OnlyActivates(s, t, None)
  }

  lemma NoMoreActive(s: State, t: State, h: HostId)
    requires Settled(s, t)
    ensures |ActiveOnHost(t, h)| <= |ActiveOnHost(s, h)|
  {
    Fewer(ActiveOnHost(t, h), ActiveOnHost(s, h));
  }

  lemma Fewer(a: set<nat>, b: set<nat>)
    requires a <= b
    ensures |a| <= |b|
  {
    assert b == a + (b - a);
  }

  lemma SettledKeepsCap(s: State, t: State)
    requires WithinCap(s) && Settled(s, t)
    ensures WithinCap(t)
  {
    forall h: HostId | PolicyForHost(t, h).Some?
      ensures |ActiveOnHost(t, h)| <= PolicyForHost(t, h).value.maxConcurrency
    {
      assert PolicyForHost(s, h) == PolicyForHost(t, h);
      NoMoreActive(s, t, h);
    }
  }

  lemma ActivateKeepsCap(s: State, r: ReservationId, d: DeviceId, id: SessionId)
    requires WithinCap(s) && ActivateTx(s, r, d, id).Commit?
    ensures WithinCap(ActivateTx(s, r, d, id).post)
  {
    var t, host := ActivateTx(s, r, d, id).post, s.devices[d].host;
    forall h: HostId | PolicyForHost(t, h).Some?
      ensures |ActiveOnHost(t, h)| <= PolicyForHost(t, h).value.maxConcurrency
    {
      assert PolicyForHost(s, h) == PolicyForHost(t, h);
      if h == host {
        Fewer(ActiveOnHost(t, h), ActiveOnHost(s, h) + {r});
      } else {
        Fewer(ActiveOnHost(t, h), ActiveOnHost(s, h));
      }
    }
  }

  lemma CloseSettles(s: State, r: ReservationId, terminal: ReservationStatus)
    requires CloseTx(s, r, terminal).Commit?
    ensures Settled(s, CloseTx(s, r, terminal).post)
  {
  }

  lemma LockedSettles(s: State, r: ReservationId, force: bool)
    requires r in s.reservations && ReleaseLockedTx(s, r, force).Commit?
    ensures Settled(s, ReleaseLockedTx(s, r, force).post)
  {
    LockedShape(s, r, force);
    if s.reservations[r].status == ReservationActive && ReleaseLockedTx(s, r, force).post != s {
      CloseSettles(s, r, if force then ReservationForceReleased else ReservationReleased);
    }
  }

  lemma ReleaseSettles(s: State, client: nat, console: Option<string>, key: string, r: ReservationId, why: string,
                       force: bool)
    requires ReleaseTx(s, client, console, key, r, why, force).Commit?
    ensures Settled(s, ReleaseTx(s, client, console, key, r, why, force).post)
  {
    ReleaseShape(s, client, console, key, r, why, force);
    if ReleaseTx(s, client, console, key, r, why, force).post != s {
      LockedSettles(ReleaseBegun(s, client, key, r, why, force), r, force);
    }
  }

  /** One row written without opening a lease. */
  lemma RowSettles(s: State, t: State, r: ReservationId, d: DeviceId)
    requires t.pools == s.pools && t.hostPool == s.hostPool
    requires t.devices == s.devices
             || (d in s.devices && d in t.devices && t.devices == s.devices[d := t.devices[d]]
                 && t.devices[d].host == s.devices[d].host && t.devices[d].platform == s.devices[d].platform)
    requires t.reservations == s.reservations
             || (r in t.reservations && t.reservations == s.reservations[r := t.reservations[r]])
    requires t.reservations != s.reservations && t.reservations[r].status == ReservationActive ==>
               r in s.reservations && s.reservations[r].status == ReservationActive
                   && t.reservations[r].device == s.reservations[r].device
    ensures Settled(s, t)
  {
  }

  lemma CreateSettles(s: State, r: ReservationId, q: Request, actor: string)
    requires CreateTx(s, r, q, actor).Commit?
    ensures Settled(s, CreateTx(s, r, q, actor).post)
  {
    RowSettles(s, CreateTx(s, r, q, actor).post, r, 0);
  }

  lemma LeaseSettles(s: State, step: LeaseStep)
    requires LeaseTx(s, step).Commit?
    ensures Settled(s, LeaseTx(s, step).post)
  {
    var t := LeaseTx(s, step).post;
    match step
    case CreateStep(r, q, actor) => CreateSettles(s, r, q, actor);
    case ExtendStep(client, key, r, seconds) => RowSettles(s, t, r, 0);
    case KeepAliveStep(r, owner, d, seconds) => RowSettles(s, t, r, 0);
    case ReleaseStep(client, console, key, r, why, force) => ReleaseSettles(s, client, console, key, r, why, force);
    case StaleStep(r, timeout, grace) => RowSettles(s, t, r, 0);
    case OrphanStep(r, grace) => RowSettles(s, t, r, s.reservations[r].device.value);
  }

  lemma RoundSettles(s: State, round: Round, step: RoundStep)
    requires RoundTx(s, round, step).Commit? && !step.ActivateStep?
    ensures Settled(s, RoundTx(s, round, step).post)
  {
    var t := RoundTx(s, round, step).post;
    match step
    case ReserveStep(r, d) => RowSettles(s, t, r, d);
    case UndoStep(code, terminal) => RowSettles(s, t, round.r, round.d);
    case DieStep =>
  }

  lemma SweepSettles(s: State, sweep: Sweep, step: SweepStep, grace: nat)
    requires SweepTx(s, sweep, step, grace).Commit?
    ensures Settled(s, SweepTx(s, sweep, step, grace).post)
  {
    var t := SweepTx(s, sweep, step, grace).post;
    match step
    case CloseStep => CloseSettles(s, sweep.r, ReservationExpired);
    case FailStep => if sweep.Deleting? && sweep.r in s.sessions { RowSettles(s, t, 0, s.sessions[sweep.r].device); }
    case _ =>
  }

  /** Only an activation opens a lease. */
  lemma StepSettles(w: World, step: Step)
    requires !(step.OfRound? && step.round.ActivateStep?)
    ensures Settled(w.db, Next(w, step).db)
  {
    if Transact(w, step).Commit? {
      match step
      case OfRound(k, round) => RoundSettles(w.db, RoundOf(w, k), round);
      case OfLease(lease) => LeaseSettles(w.db, lease);
      case OfSweep(k, sweep) => SweepSettles(w.db, SweepOf(w, k), sweep, w.policy.grace);
      case OfDevice(d, device) =>
        DeviceStepsTouch(w.db, d, device, w.policy.threshold);
        RowSettles(w.db, Next(w, step).db, 0, d);
      case OfFence(r, grant, fence) => FenceStepsTouch(w.db, w.issued, r, grant, fence);
      case _ =>
    }
  }

  /** Every step keeps every host within its cap. */
  lemma StepKeepsCap(w: World, step: Step)
    requires WithinCap(w.db)
    ensures WithinCap(Next(w, step).db)
  {
    if step.OfRound? && step.round.ActivateStep? {
      if Transact(w, step).Commit? {
        ActivateKeepsCap(w.db, RoundOf(w, step.worker).r, RoundOf(w, step.worker).d, step.round.session);
      }
    } else {
      StepSettles(w, step);
      SettledKeepsCap(w.db, Next(w, step).db);
    }
  }

  // ---- Phase one alone does not respect the cap ----

  function ReservedOnHost(s: State, h: HostId): (result: set<DeviceId>) {
    set d | d in s.devices && s.devices[d].host == h && s.devices[d].lifecycle == DeviceReserved
  }

  /** A host with a cap of one: one device for each of two requests, waiting or already claimed. */
  function Crowded(now: Clock, claimed: nat): (result: State) {
    Store(now, map[0 := Pool(true, Android, 3600, 1, false)], map[0 := 0], map[0 := Host(HostOnline, false, false)],
          map[0 := Place(claimed > 0), 1 := Place(claimed > 1)],
          map[0 := Asked("a", if claimed > 0 then Some(0) else None, now),
              1 := Asked("b", if claimed > 1 then Some(1) else None, now)],
          map[], map[])
  }

  function Place(claimed: bool): (result: Device) {
    Device(0, Android, Emulator, Some(0), 0, CleanMode, if claimed then DeviceReserved else DeviceReady, HealthHealthy,
           None, 0, map[], 0, false, false)
  }

  function Asked(key: string, d: Option<DeviceId>, now: int): (result: Reservation) {
    Reservation(Request(0, key, 0, ("", ""), 60, None, None, 0, map[]), ReservationPending, d, None, None, None, None,
                now, now)
  }

  lemma NextInLine(now: Clock, n: nat)
    requires n < 2
    ensures NextAllocatable(Crowded(now, n), n)
  {
    assert Matching(Crowded(now, n), Crowded(now, n).reservations[n].request, n);
  }

  lemma FirstPlace(now: Clock, n: nat)
    requires n < 2
    ensures NextDevice(Crowded(now, n), Crowded(now, n).reservations[n].request, n)
  {
  }

  lemma Unoccupied(now: Clock, n: nat)
    ensures ActiveOnHost(Crowded(now, n), 0) == {}
  {
  }

  lemma ClaimCommits(now: Clock, n: nat)
    requires n < 2
    ensures ReserveTx(Crowded(now, n), n, n) == Commit(Crowded(now, n + 1))
  {
    NextInLine(now, n);
    FirstPlace(now, n);
    Unoccupied(now, n);
    ClaimMoves(now, n);
  }

  lemma ClaimMoves(now: Clock, n: nat)
    requires n < 2
    ensures var s := Crowded(now, n);
            Crowded(now, n + 1) == s.(
              devices := s.devices[n := s.devices[n].(lifecycle := DeviceReserved)],
              reservations := s.reservations[n := s.reservations[n].(device := Some(n), failure := None,
                  updated := s.now)])
  {
  }

  lemma SecondActivationRefused(now: Clock, first: SessionId, second: SessionId)
    ensures ActivateTx(Crowded(now, 2), 0, 0, first).Commit?
    ensures ActivateTx(ActivateTx(Crowded(now, 2), 0, 0, first).post, 1, 1, second) == Rollback(ErrCapacityUnavailable)
  {
    Unoccupied(now, 2);
    assert ActiveOnHost(ActivateTx(Crowded(now, 2), 0, 0, first).post, 0) == {0};
  }

  lemma BothReserved(now: Clock)
    ensures ReservedOnHost(Crowded(now, 2), 0) == {0, 1}
    ensures |ReservedOnHost(Crowded(now, 2), 0)| > PolicyForHost(Crowded(now, 2), 0).value.maxConcurrency
  {
  }

  /** Both requests pass phase one although the host's cap is one, and the one that activates second is
      turned away by the re-check. */
  lemma PhaseOneOvershoots(now: Clock, first: SessionId, second: SessionId)
    ensures ReserveTx(Crowded(now, 0), 0, 0) == Commit(Crowded(now, 1))
    ensures ReserveTx(Crowded(now, 1), 1, 1) == Commit(Crowded(now, 2))
    ensures |ReservedOnHost(Crowded(now, 2), 0)| > PolicyForHost(Crowded(now, 2), 0).value.maxConcurrency
    ensures ActivateTx(Crowded(now, 2), 0, 0, first).Commit?
    ensures ActivateTx(ActivateTx(Crowded(now, 2), 0, 0, first).post, 1, 1, second) == Rollback(ErrCapacityUnavailable)
  {
    ClaimCommits(now, 0);
    ClaimCommits(now, 1);
    SecondActivationRefused(now, first, second);
    BothReserved(now);
  }
}
