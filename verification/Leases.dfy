/** How reservation rows evolve: the rolling lease window, irrevocable expiry, late reaping, and
    statuses that follow the domain's transition table. */
module Leases {
  import opened Domain
  import opened Rows
  import opened Scheduling
  import opened Reservations
  import opened Observation
  import opened Protocol

  /** The pool limits a table constraint guarantees. */
  ghost predicate PoolsSane(s: State) {
    forall p :: p in s.pools ==> s.pools[p].maxLease >= 60
  }

  ghost predicate LeaseOk(s: State, row: Reservation, grace: nat) {
    && row.request.pool in s.pools && 60 <= row.request.lease <= s.pools[row.request.pool].maxLease
    && match row.status
       case ReservationPending => row.expires == None && row.released == None
       case ReservationFailed => row.expires == None && row.released == None
       case ReservationActive =>
         row.starts.Some? && row.expires.Some? && row.released == None
         && row.expires.value <= s.now + s.pools[row.request.pool].maxLease * SECOND
       case ReservationExpired =>
         row.expires.Some? && row.released.Some? && row.expires.value + grace <= row.released.value <= s.now
       case _ => row.expires.Some? && row.released.Some?
  }

  ghost predicate LeasesOk(s: State, grace: nat) {
    PoolsSane(s) && forall r :: r in s.reservations ==> LeaseOk(s, s.reservations[r], grace)
  }

  /** What one transaction at instant `now` may do to a row. */
  ghost predicate Evolves(a: Reservation, b: Reservation, now: int, maxLease: int, grace: nat) {
    && b.request == a.request && b.created == a.created
    && (a == b ||
        match a.status
        case ReservationPending =>
          && b.released == a.released
          && (if b.status == ReservationActive
              then b.device.Some? && b.starts == Some(now) && b.expires == Some(now + a.request.lease * SECOND)
              else b.status in {ReservationPending, ReservationFailed} && b.expires == a.expires)
        case ReservationActive =>
          && b.device == a.device && b.starts == a.starts && a.expires.Some? && b.expires.Some?
          && (if b.status == ReservationActive
              then a.expires.value > now && now < b.expires.value <= now + maxLease * SECOND && b.released == a.released
              else && b.status in {ReservationReleased, ReservationForceReleased, ReservationExpired}
                   && b.expires == a.expires && b.released == Some(now)
                   && (b.status == ReservationExpired ==> a.expires.value + grace <= now))
        case _ => false)
  }

  ghost predicate Fresh(s: State, b: Reservation) {
    && b.status == ReservationPending && b.expires == None && b.released == None && b.device == None
    && b.request.pool in s.pools && 60 <= b.request.lease <= s.pools[b.request.pool].maxLease
    && (forall q :: q in s.reservations ==> !SameKey(s.reservations[q].request, b.request))
    && (b.request.owner.0 == "manual" && b.request.target.Some? ==>
          forall q :: !OpenTargeted(s, b.request.target.value, q))
  }

  /** How a whole transaction moves the reservation table. */
  ghost predicate RowsEvolve(s: State, t: State, grace: nat) {
    && s.now <= t.now && t.pools == s.pools && t.hostPool == s.hostPool
    && (t.now != s.now ==> t.reservations == s.reservations)
    && (forall r :: r in s.reservations ==> s.reservations[r].request.pool in s.pools)
    && (forall r :: r in s.reservations ==>
          r in t.reservations
          && Evolves(s.reservations[r], t.reservations[r], s.now, s.pools[s.reservations[r].request.pool].maxLease,
                     grace))
    && (forall r :: r in t.reservations && r !in s.reservations ==> Fresh(s, t.reservations[r]))
    && (forall r, q :: r in t.reservations && q in t.reservations && r !in s.reservations && q !in s.reservations ==>
        r == q)
  }

  /** A transaction that writes the row of `r` only, at the same instant. */
  lemma OneRow(s: State, t: State, r: ReservationId, grace: nat)
    requires LeasesOk(s, grace) && t.now == s.now && t.pools == s.pools && t.hostPool == s.hostPool
    requires r in t.reservations && t.reservations == s.reservations[r := t.reservations[r]]
    requires if r in s.reservations
             then s.reservations[r].request.pool in s.pools ==>
                    Evolves(s.reservations[r], t.reservations[r], s.now,
                            s.pools[s.reservations[r].request.pool].maxLease, grace)
             else Fresh(s, t.reservations[r])
    ensures RowsEvolve(s, t, grace)
  {
  }

  lemma NoRow(s: State, t: State, grace: nat)
    requires LeasesOk(s, grace) && s.now <= t.now && t.pools == s.pools && t.hostPool == s.hostPool
    requires t.reservations == s.reservations
    ensures RowsEvolve(s, t, grace)
  {
  }

  lemma CloseEvolves(s: State, r: ReservationId, terminal: ReservationStatus, grace: nat)
    requires LeasesOk(s, grace) && CloseTx(s, r, terminal).Commit?
    requires terminal == ReservationExpired ==>
               s.reservations[r].expires.Some? && s.reservations[r].expires.value + grace <= s.now
    ensures RowsEvolve(s, CloseTx(s, r, terminal).post, grace)
  {
    assert LeaseOk(s, s.reservations[r], grace);
    assert Edge(RESERVATION_TRANSITIONS, ReservationActive, terminal);
    OneRow(s, CloseTx(s, r, terminal).post, r, grace);
  }

  lemma ExtendEvolves(s: State, client: nat, key: string, r: ReservationId, seconds: int, grace: nat)
    requires LeasesOk(s, grace) && ExtendTx(s, client, key, r, seconds).Commit?
    ensures RowsEvolve(s, ExtendTx(s, client, key, r, seconds).post, grace)
  {
  }

  lemma KeepAliveEvolves(s: State, r: ReservationId, owner: string, d: DeviceId, seconds: int, grace: nat)
    requires LeasesOk(s, grace) && KeepAliveTx(s, r, owner, d, seconds).Commit?
    ensures RowsEvolve(s, KeepAliveTx(s, r, owner, d, seconds).post, grace)
  {
  }

  lemma LockedEvolves(s: State, r: ReservationId, force: bool, grace: nat)
    requires LeasesOk(s, grace) && r in s.reservations && ReleaseLockedTx(s, r, force).Commit?
    ensures RowsEvolve(s, ReleaseLockedTx(s, r, force).post, grace)
  {
    var t := ReleaseLockedTx(s, r, force).post;
    LockedShape(s, r, force);
    if t == s {
      NoRow(s, t, grace);
    } else if s.reservations[r].status == ReservationActive {
      CloseEvolves(s, r, if force then ReservationForceReleased else ReservationReleased, grace);
    } else {
      OneRow(s, t, r, grace);
    }
  }

  lemma OperationsDoNotMatter(s: State, begun: State, t: State, grace: nat)
    requires begun == s.(operations := begun.operations)
    ensures LeasesOk(s, grace) ==> LeasesOk(begun, grace)
    ensures RowsEvolve(begun, t, grace) ==> RowsEvolve(s, t, grace)
  {
    assert forall d: DeviceId, q :: OpenTargeted(begun, d, q) == OpenTargeted(s, d, q);
  }

  lemma ReleaseEvolves(s: State, client: nat, console: Option<string>, key: string, r: ReservationId, why: string,
                       force: bool, grace: nat)
    requires LeasesOk(s, grace) && ReleaseTx(s, client, console, key, r, why, force).Commit?
    ensures RowsEvolve(s, ReleaseTx(s, client, console, key, r, why, force).post, grace)
  {
    var t := ReleaseTx(s, client, console, key, r, why, force).post;
    var begun := ReleaseBegun(s, client, key, r, why, force);
    ReleaseShape(s, client, console, key, r, why, force);
    OperationsDoNotMatter(s, begun, t, grace);
    if t == s {
      NoRow(s, t, grace);
    } else {
      LockedEvolves(begun, r, force, grace);
    }
  }

  lemma ReserveEvolves(s: State, r: ReservationId, d: DeviceId, grace: nat)
    requires LeasesOk(s, grace) && ReserveTx(s, r, d).Commit?
    ensures RowsEvolve(s, ReserveTx(s, r, d).post, grace)
  {
  }

  lemma ActivateEvolves(s: State, r: ReservationId, d: DeviceId, id: SessionId, grace: nat)
    requires LeasesOk(s, grace) && ActivateTx(s, r, d, id).Commit?
    ensures RowsEvolve(s, ActivateTx(s, r, d, id).post, grace)
  {
    assert LeaseOk(s, s.reservations[r], grace);
    OneRow(s, ActivateTx(s, r, d, id).post, r, grace);
  }

  lemma CompensateEvolves(s: State, r: ReservationId, d: DeviceId, code: string, terminal: bool, grace: nat)
    requires LeasesOk(s, grace) && CompensateTx(s, r, d, code, terminal).Commit?
    ensures RowsEvolve(s, CompensateTx(s, r, d, code, terminal).post, grace)
  {
  }

  lemma StaleEvolves(s: State, r: ReservationId, timeout: nat, claimGrace: nat, grace: nat)
    requires LeasesOk(s, grace) && StaleTx(s, r, timeout, claimGrace).Commit?
    ensures RowsEvolve(s, StaleTx(s, r, timeout, claimGrace).post, grace)
  {
  }

  lemma OrphanEvolves(s: State, r: ReservationId, claimGrace: nat, grace: nat)
    requires LeasesOk(s, grace) && OrphanTx(s, r, claimGrace).Commit?
    ensures RowsEvolve(s, OrphanTx(s, r, claimGrace).post, grace)
  {
  }

  lemma CreateEvolves(s: State, r: ReservationId, q: Request, actor: string, grace: nat)
    requires LeasesOk(s, grace) && CreateTx(s, r, q, actor).Commit?
    ensures RowsEvolve(s, CreateTx(s, r, q, actor).post, grace)
  {
    var t := CreateTx(s, r, q, actor).post;
    if t == s {
      NoRow(s, t, grace);
    } else {
      if q.target.Some? {
        forall o
          ensures !OpenTargeted(s, q.target.value, o)
        {
          if OpenTargeted(s, q.target.value, o) {
            NewestTargetedExists(s, q.target.value, o);
          }
        }
      }
      OneRow(s, t, r, grace);
    }
  }

  lemma RoundEvolves(s: State, round: Round, step: RoundStep, grace: nat)
    requires LeasesOk(s, grace) && RoundTx(s, round, step).Commit?
    ensures RowsEvolve(s, RoundTx(s, round, step).post, grace)
  {
    match step
    case ReserveStep(r, d) => ReserveEvolves(s, r, d, grace);
    case ActivateStep(id) => ActivateEvolves(s, round.r, round.d, id, grace);
    case UndoStep(code, terminal) => CompensateEvolves(s, round.r, round.d, code, terminal, grace);
    case DieStep => NoRow(s, s, grace);
  }

  lemma LeaseEvolves(s: State, step: LeaseStep, grace: nat)
    requires LeasesOk(s, grace) && LeaseTx(s, step).Commit?
    ensures RowsEvolve(s, LeaseTx(s, step).post, grace)
  {
    match step
    case CreateStep(r, q, actor) => CreateEvolves(s, r, q, actor, grace);
    case ExtendStep(client, key, r, seconds) => ExtendEvolves(s, client, key, r, seconds, grace);
    case KeepAliveStep(r, owner, d, seconds) => KeepAliveEvolves(s, r, owner, d, seconds, grace);
    case ReleaseStep(client, console, key, r, why, force) => ReleaseEvolves(s, client, console, key, r, why, force,
        grace);
    case StaleStep(r, timeout, claimGrace) => StaleEvolves(s, r, timeout, claimGrace, grace);
    case OrphanStep(r, claimGrace) => OrphanEvolves(s, r, claimGrace, grace);
  }

  lemma SweepEvolves(s: State, sweep: Sweep, step: SweepStep, grace: nat)
    requires LeasesOk(s, grace) && SweepTx(s, sweep, step, grace).Commit?
    ensures RowsEvolve(s, SweepTx(s, sweep, step, grace).post, grace)
  {
    if step == CloseStep {
      CloseEvolves(s, sweep.r, ReservationExpired, grace);
    } else {
      NoRow(s, SweepTx(s, sweep, step, grace).post, grace);
    }
  }

  /** Every step of the farm evolves every row this way. */
  lemma StepEvolves(w: World, step: Step)
    requires LeasesOk(w.db, w.policy.grace)
    ensures RowsEvolve(w.db, Next(w, step).db, w.policy.grace)
  {
    var s, t, grace := w.db, Next(w, step).db, w.policy.grace;
    if Transact(w, step).Rollback? {
      NoRow(s, t, grace);
    } else {
      match step
      case OfRound(k, round) => RoundEvolves(s, RoundOf(w, k), round, grace);
      case OfLease(lease) => LeaseEvolves(s, lease, grace);
      case OfSweep(k, sweep) => SweepEvolves(s, SweepOf(w, k), sweep, grace);
      case OfDevice(d, device) =>
        DeviceStepsTouch(s, d, device, w.policy.threshold);
        NoRow(s, t, grace);
      case OfFence(r, grant, fence) =>
        FenceStepsTouch(s, w.issued, r, grant, fence);
        NoRow(s, t, grace);
      case _ => NoRow(s, t, grace);
    }
  }

  lemma EvolutionKeepsLeases(s: State, t: State, grace: nat)
    requires LeasesOk(s, grace) && RowsEvolve(s, t, grace)
    ensures LeasesOk(t, grace)
  {
  }

  // ---- What follows for one row ----

  /** The status column only moves along the domain's transition table. */
  lemma StatusFollowsTable(a: Reservation, b: Reservation, now: int, maxLease: int, grace: nat)
    requires Evolves(a, b, now, maxLease, grace)
    ensures a.status == b.status || Edge(RESERVATION_TRANSITIONS, a.status, b.status)
  {
  }

  /** A row whose lease has run out: unchanged while it stays active, and closed with that expiry afterwards. */
  ghost predicate RanOut(s: State, r: ReservationId, expiry: int) {
    && r in s.reservations && s.reservations[r].expires == Some(expiry) && expiry <= s.now
    && (s.reservations[r].status == ReservationActive
        || s.reservations[r].status in {ReservationReleased, ReservationForceReleased, ReservationExpired})
  }

  lemma RanOutStays(s: State, t: State, r: ReservationId, expiry: int, grace: nat)
    requires RowsEvolve(s, t, grace) && RanOut(s, r, expiry)
    ensures RanOut(t, r, expiry)
    ensures t.reservations[r].status == ReservationActive ==> t.reservations[r] == s.reservations[r]
  {
  }

  /** A successful extension never shortens a lease, although the new expiry is capped. */
  lemma ExtendNeverShortens(s: State, client: nat, key: string, r: ReservationId, seconds: int, grace: nat)
    requires LeasesOk(s, grace) && r in s.reservations && s.reservations[r].status == ReservationActive
    requires ExtendTx(s, client, key, r, seconds).Commit?
    ensures var before, after := s.reservations[r].expires.value,
            ExtendTx(s, client, key, r, seconds).post.reservations[r].expires.value;
            && before <= after <= s.now + s.pools[s.reservations[r].request.pool].maxLease * SECOND
            && (after == before ==>
                  || OpKey(client, ExtendScope, key) in s.operations
                  || before == s.now + s.pools[s.reservations[r].request.pool].maxLease * SECOND)
  {
  }
}
