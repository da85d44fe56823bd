/** A scheduler's claim between its two transactions: it stands exactly as it was made, or its
    reservation has been failed and both the activation and the compensation are refused. */
module Claims {
  import opened Domain
  import opened Rows
  import opened Scheduling
  import opened Reservations
  import opened Protocol
  import opened Coupling

  /** A claimed row is left alone or failed. */
  ghost predicate LeftOrFailed(s: State, t: State, r: ReservationId) {
    r in s.reservations && s.reservations[r].status == ReservationPending && s.reservations[r].device.Some? ==>
      r in t.reservations
      && (t.reservations[r] == s.reservations[r] || t.reservations[r].status == ReservationFailed)
  }

  ghost predicate StaysFailed(s: State, t: State, r: ReservationId) {
    r in s.reservations && s.reservations[r].status == ReservationFailed ==>
      r in t.reservations && t.reservations[r].status == ReservationFailed
  }

  ghost predicate Respects(s: State, t: State, r: ReservationId) {
    LeftOrFailed(s, t, r) && StaysFailed(s, t, r)
  }

  lemma CloseRespects(s: State, q: ReservationId, terminal: ReservationStatus, r: ReservationId)
    requires CloseTx(s, q, terminal).Commit?
    ensures Respects(s, CloseTx(s, q, terminal).post, r)
  {
  }

  lemma ReleaseRespects(s: State, client: nat, console: Option<string>, key: string, q: ReservationId, why: string,
                        force: bool, r: ReservationId)
    requires ReleaseTx(s, client, console, key, q, why, force).Commit?
    ensures Respects(s, ReleaseTx(s, client, console, key, q, why, force).post, r)
  {
    var k, op := OpKey(client, ReleaseScope, key), Operation(ReleaseBody(why, force), q);
    var begun := ReleaseBegun(s, client, key, q, why, force);
    if BeginOp(s, k, op) == Begun && s.reservations[q].status == ReservationActive {
      CloseRespects(begun, q, if force then ReservationForceReleased else ReservationReleased, r);
    }
  }

  lemma LeaseRespects(s: State, step: LeaseStep, r: ReservationId)
    requires LeaseTx(s, step).Commit?
    ensures Respects(s, LeaseTx(s, step).post, r)
  {
    match step
    case ReleaseStep(client, console, key, q, why, force) => ReleaseRespects(s, client, console, key, q, why, force, r);
    case CreateStep(q, request, actor) =>
    case ExtendStep(client, key, q, seconds) =>
    case KeepAliveStep(q, owner, d, seconds) =>
    case StaleStep(q, timeout, grace) =>
    case OrphanStep(q, grace) =>
  }

  lemma RoundRespects(s: State, round: Round, step: RoundStep, r: ReservationId)
    requires RoundTx(s, round, step).Commit?
    requires step.ReserveStep? || step.DieStep? || (round != Idle && round.r != r)
    ensures Respects(s, RoundTx(s, round, step).post, r)
  {
  }

  lemma SweepRespects(s: State, sweep: Sweep, step: SweepStep, grace: nat, r: ReservationId)
    requires SweepTx(s, sweep, step, grace).Commit?
    ensures Respects(s, SweepTx(s, sweep, step, grace).post, r)
  {
  }

  /** Only the worker that holds a claim on `r` can do more to it than fail it. */
  ghost predicate Own(w: World, step: Step, r: ReservationId) {
    step.OfRound? && (step.round.ActivateStep? || step.round.UndoStep?)
    && RoundOf(w, step.worker) != Idle && RoundOf(w, step.worker).r == r
  }

  lemma StepRespects(w: World, step: Step, r: ReservationId)
    requires !Own(w, step, r)
    ensures Respects(w.db, Next(w, step).db, r)
  {
    if Transact(w, step).Commit? {
      match step
      case OfRound(k, round) => RoundRespects(w.db, RoundOf(w, k), round, r);
      case OfLease(lease) => LeaseRespects(w.db, lease, r);
      case OfSweep(k, sweep) => SweepRespects(w.db, SweepOf(w, k), sweep, w.policy.grace, r);
      case OfDevice(d, device) => DeviceStepsTouch(w.db, d, device, w.policy.threshold);
      case OfFence(q, grant, fence) => FenceStepsTouch(w.db, w.issued, q, grant, fence);
      case _ =>
    }
  }

  // ---- The invariant ----

  ghost predicate Standing(s: State, r: ReservationId, d: DeviceId) {
    r in s.reservations && s.reservations[r].status == ReservationPending && s.reservations[r].device == Some(d)
  }

  ghost predicate Failed(s: State, r: ReservationId) {
    r in s.reservations && s.reservations[r].status == ReservationFailed
  }

  /** Every claim in flight stands or has failed, and no two workers hold one that stands. */
  ghost predicate ClaimsOk(w: World) {
    && (forall k :: k in w.rounds && w.rounds[k] != Idle ==>
          Standing(w.db, w.rounds[k].r, w.rounds[k].d) || Failed(w.db, w.rounds[k].r))
    && (forall k, j :: (k in w.rounds && j in w.rounds && w.rounds[k] != Idle && w.rounds[j] != Idle
                        && w.rounds[k].r == w.rounds[j].r && Standing(w.db, w.rounds[k].r, w.rounds[k].d)) ==> k == j)
  }

  lemma StepKeepsClaims(w: World, step: Step)
    requires ClaimsOk(w)
    ensures ClaimsOk(Next(w, step))
  {
    var v := Next(w, step);
    forall k | k in v.rounds && v.rounds[k] != Idle
      ensures Standing(v.db, v.rounds[k].r, v.rounds[k].d) || Failed(v.db, v.rounds[k].r)
    {
      OneClaimStays(w, step, k);
    }
    forall k, j | k in v.rounds && j in v.rounds && v.rounds[k] != Idle && v.rounds[j] != Idle
                  && v.rounds[k].r == v.rounds[j].r && Standing(v.db, v.rounds[k].r, v.rounds[k].d)
      ensures k == j
    {
      if k != j {
        OneClaimStays(w, step, k);
        OneClaimStays(w, step, j);
      }
    }
  }

  /** A claim the step has just made, on a row no other worker claims. */
  lemma NewClaim(w: World, step: Step, k: nat)
    requires ClaimsOk(w) && RoundOf(w, k) == Idle
    requires step.OfRound? && step.worker == k && step.round.ReserveStep? && Transact(w, step).Commit?
    ensures var c := step.round;
            && Standing(Next(w, step).db, c.r, c.d)
            && forall j :: j in w.rounds && w.rounds[j] != Idle ==> w.rounds[j].r != c.r
  {
    assert ReserveTx(w.db, step.round.r, step.round.d).Commit?;
  }

  /** Another worker's own step on the same row: that row is nobody's any more. */
  lemma OthersOwnStep(w: World, step: Step, k: nat)
    requires ClaimsOk(w) && k in w.rounds && w.rounds[k] != Idle
    requires Own(w, step, w.rounds[k].r) && step.worker != k
    ensures Failed(w.db, w.rounds[k].r) && Next(w, step).db == w.db
  {
    var c := w.rounds[k];
    assert w.rounds[step.worker].r == c.r;
    if Standing(w.db, c.r, c.d) { assert false; }
  }

  /** A claim in flight after a step was in flight before it and still stands, or has failed, or was
      made by the step on a row no other worker claims. */
  lemma OneClaimStays(w: World, step: Step, k: nat)
    requires ClaimsOk(w) && k in Next(w, step).rounds && Next(w, step).rounds[k] != Idle
    ensures var v, c := Next(w, step), Next(w, step).rounds[k];
            && (Standing(v.db, c.r, c.d) || Failed(v.db, c.r))
            && (if RoundOf(w, k) != Idle
                then RoundOf(w, k).r == c.r && RoundOf(w, k).d == c.d
                    && (Standing(v.db, c.r, c.d) ==> Standing(w.db, c.r, c.d))
                else forall j :: j in w.rounds && w.rounds[j] != Idle ==> w.rounds[j].r != c.r)
  {
    var c := Next(w, step).rounds[k];
    if RoundOf(w, k) == Idle {
      NewClaim(w, step, k);
    } else if Own(w, step, c.r) && step.worker != k {
      OthersOwnStep(w, step, k);
    } else if Own(w, step, c.r) {
      assert !Transact(w, step).Commit?;
    } else {
      StepRespects(w, step, c.r);
    }
  }

  // ---- What follows ----

  /** A worker's transactions are refused exactly when its claim no longer stands, or the device is no
      longer reserved (and, for a compensation, healthy). */
  lemma UndoExactlyWhen(w: World, k: nat, code: string, terminal: bool)
    requires ClaimsOk(w) && RoundOf(w, k) != Idle
    ensures var c := RoundOf(w, k);
            Transact(w, OfRound(k, UndoStep(code, terminal))).Commit? <==>
            && !Failed(w.db, c.r)
            && c.d in w.db.devices && w.db.devices[c.d].lifecycle == DeviceReserved
                && w.db.devices[c.d].health == HealthHealthy
  {
  }

  lemma {:induction false} FailedStays(w: World, steps: seq<Step>, r: ReservationId)
    requires ClaimsOk(w) && Failed(w.db, r)
    ensures Failed(Run(w, steps).db, r)
    decreases |steps|
  {
    if steps == [] {
    } else {
      StepKeepsClaims(w, steps[0]);
      if !Own(w, steps[0], r) {
        StepRespects(w, steps[0], r);
      }
      FailedStays(Next(w, steps[0]), steps[1..], r);
    }
  }

  lemma FailedIsRefused(w: World, r: ReservationId, k: nat, d: DeviceId, id: SessionId, code: string, terminal: bool)
    requires Failed(w.db, r)
    ensures ActivateTx(w.db, r, d, id).Rollback? && CompensateTx(w.db, r, d, code, terminal).Rollback?
    ensures RoundOf(w, k) != Idle && RoundOf(w, k).r == r ==>
              Next(w, OfRound(k, ActivateStep(id))).db == w.db
                  && Next(w, OfRound(k, UndoStep(code, terminal))).db == w.db
  {
  }

  /** A late scheduler is harmless. Once the orphan sweep has failed the reservation, then in every later
      state of every run, whoever the device belongs to by then, the activation and the compensation of
      the old claim are refused and leave the store as it is. */
  lemma LateSchedulerIsHarmless(w: World, r: ReservationId, grace: nat, steps: seq<Step>, d: DeviceId, id: SessionId,
                                code: string, terminal: bool)
    requires ClaimsOk(w) && Transact(w, OfLease(OrphanStep(r, grace))).Commit?
    ensures var v := Run(Next(w, OfLease(OrphanStep(r, grace))), steps);
            && ActivateTx(v.db, r, d, id).Rollback? && ActivateTx(v.db, r, d, id).After(v.db) == v.db
            && CompensateTx(v.db, r, d, code, terminal).Rollback?
                && CompensateTx(v.db, r, d, code, terminal).After(v.db) == v.db
            && forall k :: k in v.rounds && v.rounds[k] != Idle && v.rounds[k].r == r ==>
                             Next(v, OfRound(k, ActivateStep(id))).db == v.db
                                 && Next(v, OfRound(k, UndoStep(code, terminal))).db == v.db
  {
    StepKeepsClaims(w, OfLease(OrphanStep(r, grace)));
    FailedStays(Next(w, OfLease(OrphanStep(r, grace))), steps, r);
    var v := Run(Next(w, OfLease(OrphanStep(r, grace))), steps);
    FailedIsRefused(v, r, 0, d, id, code, terminal);
    forall k | k in v.rounds && v.rounds[k] != Idle && v.rounds[k].r == r
      ensures Next(v, OfRound(k, ActivateStep(id))).db == v.db
              && Next(v, OfRound(k, UndoStep(code, terminal))).db == v.db
    {
      FailedIsRefused(v, r, k, d, id, code, terminal);
    }
  }

  predicate ByOthers(steps: seq<Step>, k: nat) {
    forall i :: 0 <= i < |steps| ==> !(steps[i].OfRound? && steps[i].worker == k)
  }

  lemma {:induction false} ClaimUntouchedByOthers(w: World, k: nat, steps: seq<Step>)
    requires ClaimsOk(w) && k in w.rounds && w.rounds[k] != Idle && ByOthers(steps, k)
    ensures ClaimsOk(Run(w, steps)) && RoundOf(Run(w, steps), k) == w.rounds[k]
    ensures var r, v := w.rounds[k].r, Run(w, steps).db;
            Failed(v, r) || (Standing(w.db, r, w.rounds[k].d) && r in v.reservations
                             && v.reservations[r] == w.db.reservations[r])
    decreases |steps|
  {
    if steps == [] {
    } else {
      var step, r := steps[0], w.rounds[k].r;
      StepKeepsClaims(w, step);
      if Own(w, step, r) {
        assert w.rounds[step.worker].r == r;
        assert Failed(w.db, r);
      } else {
        StepRespects(w, step, r);
      }
      ClaimUntouchedByOthers(Next(w, step), k, steps[1..]);
    }
  }

  /** What is restored: the reservation but for its failure code and time stamp, the device's
      lifecycle, and all of the devices or reservations nobody else wrote in between. */
  ghost predicate Restores(s: State, claimed: State, t: State, u: State, r: ReservationId, d: DeviceId, code: string) {
    && d in s.devices && d in t.devices && r in s.reservations
    && u.reservations == t.reservations[r := s.reservations[r].(failure := Some(code), updated := t.now)]
    && u.devices == t.devices[d := t.devices[d].(lifecycle := s.devices[d].lifecycle)]
    && (t.devices == claimed.devices ==> u.devices == s.devices)
    && (t.reservations == claimed.reservations ==>
          u.reservations == s.reservations[r := s.reservations[r].(failure := Some(code), updated := t.now)])
  }

  lemma CompensateRestores(s: State, t: State, r: ReservationId, d: DeviceId, code: string)
    requires ReserveTx(s, r, d).Commit? && CompensateTx(t, r, d, code, false).Commit?
    requires t.reservations[r] == ReserveTx(s, r, d).post.reservations[r]
    ensures Restores(s, ReserveTx(s, r, d).post, t, CompensateTx(t, r, d, code, false).post, r, d, code)
  {
  }

  /** Reserving and later undoing, with any steps of the others in between: an undo that commits
      restores what the claim took. */
  lemma UndoRestores(w: World, k: nat, r: ReservationId, d: DeviceId, steps: seq<Step>, code: string)
    requires ClaimsOk(w) && RoundOf(w, k) == Idle && ByOthers(steps, k)
    requires Transact(w, OfRound(k, ReserveStep(r, d))).Commit?
    requires Transact(Run(Next(w, OfRound(k, ReserveStep(r, d))), steps), OfRound(k, UndoStep(code, false))).Commit?
    ensures var claimed := Next(w, OfRound(k, ReserveStep(r, d)));
            var v := Run(claimed, steps);
            Restores(w.db, claimed.db, v.db, Next(v, OfRound(k, UndoStep(code, false))).db, r, d, code)
  {
    var claimed := Next(w, OfRound(k, ReserveStep(r, d)));
    StepKeepsClaims(w, OfRound(k, ReserveStep(r, d)));
    assert claimed.rounds[k] == Claimed(r, d);
    ClaimUntouchedByOthers(claimed, k, steps);
    CompensateRestores(w.db, Run(claimed, steps).db, r, d, code);
  }

  /** A dead scheduler's claim is recovered exactly when its device is reserved, which the sweep's device update asks
      for; while reservations and devices are in step, that is when the device is not quarantined. */
  lemma OrphanRecoveredExactlyWhen(s: State, r: ReservationId, grace: nat)
    requires r in s.reservations && s.reservations[r].status == ReservationPending
    requires s.reservations[r].device.Some? && s.reservations[r].updated + grace <= s.now
    ensures var d := s.reservations[r].device.value;
            OrphanTx(s, r, grace).Commit? <==> d in s.devices && s.devices[d].lifecycle == DeviceReserved
    ensures var d := s.reservations[r].device.value;
            Coupled(s) ==>
              d in s.devices && (OrphanTx(s, r, grace).Commit? <==> s.devices[d].lifecycle != DeviceQuarantined)
  {
    if Coupled(s) {
      assert HolderHasDevice(s, r);
    }
  }
}
