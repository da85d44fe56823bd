/** Allocation in two transactions around an external claim (internal/scheduler/scheduler.go
    and the guarded updates it runs, internal/repository/reservation.go). */
module Scheduling {
  import opened Domain
  import opened Rows

  // ---- What each transaction does, as one function of the store ----

  /** Phase one: the oldest servable reservation takes the oldest matching device. */
  function ReserveTx(s: State, r: ReservationId, d: DeviceId): (result: Outcome) {
    if !NextAllocatable(s, r) || !NextDevice(s, s.reservations[r].request, d) then Rollback(ErrCapacityUnavailable)
    else
      var policy := PolicyForHost(s, s.devices[d].host);
      if policy == None || |ActiveOnHost(s, s.devices[d].host)| >= policy.value.maxConcurrency
      then Rollback(ErrCapacityUnavailable)
      else Commit(s.(
                  devices := s.devices[d := s.devices[d].(lifecycle := DeviceReserved)],
                  reservations := s.reservations[r := s.reservations[r].(device := Some(d), failure := None,
                      updated := s.now)]))
  }

  /** Phase two: a claim that still stands becomes an active lease with a session. */
  function ActivateTx(s: State, r: ReservationId, d: DeviceId, id: SessionId): (result: Outcome) {
    if r !in s.reservations || d !in s.devices then Rollback(ErrNotFound)
    else
      var row, dev := s.reservations[r], s.devices[d];
      if row.status != ReservationPending || row.device != Some(d) then Rollback(ErrNotFound)
      else if PolicyForHost(s, dev.host) == None then Rollback(ErrNotFound)
      else if |ActiveOnHost(s, dev.host)| >= PolicyForHost(s, dev.host).value.maxConcurrency
          then Rollback(ErrCapacityUnavailable)
      else if dev.lifecycle != DeviceReserved then Rollback(ErrInvalidTransition)
      else if r in s.sessions || SessionIdTaken(s, id) then Rollback(ErrUniqueViolation)
      else Commit(s.(
                  devices := s.devices[d := dev.(lifecycle := DeviceBusy)],
                  reservations := s.reservations[r := row.(
                    status := ReservationActive, starts := Some(s.now),
                    expires := Some(s.now + row.request.lease * SECOND), updated := s.now)],
                  sessions := s.sessions[r :=
                    Session(id, d, SessionActive, s.now, None, dev.host, dev.routed, None, None)]))
  }

  predicate SessionIdTaken(s: State, id: SessionId) {
    exists r :: r in s.sessions && s.sessions[r].id == id
  }

  /** Undoing a claim: only a device that is still reserved and healthy goes back. */
  function CompensateTx(s: State, r: ReservationId, d: DeviceId, code: string, terminal: bool): (result: Outcome) {
    if d !in s.devices || s.devices[d].lifecycle != DeviceReserved || s.devices[d].health != HealthHealthy
        then Rollback(ErrNotFound)
    else if r !in s.reservations || s.reservations[r].status != ReservationPending
        || s.reservations[r].device != Some(d)
    then Rollback(ErrNotFound)
    else Commit(s.(
                devices := s.devices[d := s.devices[d].(lifecycle := DeviceReady)],
                reservations := s.reservations[r := s.reservations[r].(
                    device := None, status := if terminal then ReservationFailed else ReservationPending,
                    failure := Some(code), updated := s.now)]))
  }

  /** The selection is unique: no other pair commits. */
  lemma OnlySelection(s: State, r: ReservationId, d: DeviceId)
    requires NextAllocatable(s, r) && NextDevice(s, s.reservations[r].request, d)
    ensures forall r', d' :: ReserveTx(s, r', d').Commit? ==> r' == r && d' == d
  {
  }

  // ---- The transactions, statement by statement ----

  class Scheduler {
    const db: Database

    constructor (db: Database)
      ensures this.db == db
    {
      this.db := db;
    }

    /** The row selection of the first transaction. */
    method Select() returns (selected: Option<(ReservationId, DeviceId)>)
      ensures selected.Some? ==>
                var (r, d) := selected.value;
                NextAllocatable(db.Value(), r) && NextDevice(db.Value(), db.reservations[r].request, d)
      ensures selected == None ==> forall r :: !Allocatable(db.Value(), r)
    {
      selected := None;
      if r :| r in db.reservations && NextAllocatable(db.Value(), r) {
        var q := db.reservations[r].request;
        ghost var some :| some in db.devices && Matching(db.Value(), q, some);
        NextDeviceExists(db.Value(), q, some);
        var d :| d in db.devices && NextDevice(db.Value(), q, d);
        selected := Some((r, d));
      } else {
        forall r | r in db.reservations
          ensures !Allocatable(db.Value(), r)
        {
          if Allocatable(db.Value(), r) {
            NextAllocatableExists(db.Value(), r);
          }
        }
      }
    }

    /** First transaction of a scheduling round. */
    method Reserve() returns (selected: Option<(ReservationId, DeviceId)>)
      modifies db
      ensures selected.Some? ==>
                var (r, d) := selected.value;
                ReserveTx(old(db.Value()), r, d) == Commit(db.Value())
      ensures selected == None ==>
                && db.Value() == old(db.Value())
                && forall r, d :: ReserveTx(db.Value(), r, d).Rollback?
    {
      selected := Select();
      if selected == None {
        return;
      }
      var (r, d) := selected.value;
      OnlySelection(db.Value(), r, d);
      var device := db.devices[d];
      var policy := PolicyForHost(db.Value(), device.host);
      if policy == None || |ActiveOnHost(db.Value(), device.host)| >= policy.value.maxConcurrency {
        return None;
      }
      var may := CheckDevice(device.lifecycle, device.health, DeviceReserved, "scheduler reserved device", db.now);
      assert may;
      var ok := ReserveForClaim(r, d);
    }

    method ReserveForClaim(r: ReservationId, d: DeviceId) returns (ok: bool)
      modifies db`devices, db`reservations
      ensures ok <==>
              && d in old(db.devices) && old(db.devices[d]).lifecycle == DeviceReady
                  && old(db.devices[d]).health == HealthHealthy
              && r in old(db.reservations) && old(db.reservations[r]).status == ReservationPending
              && old(db.reservations[r]).device == None
      ensures !ok ==> db.Value() == old(db.Value())
      ensures ok ==>
                && db.devices == old(db.devices)[d := old(db.devices[d]).(lifecycle := DeviceReserved)]
                && db.reservations == old(db.reservations)[r :=
                                      old(db.reservations[r]).(device := Some(d), failure := None, updated := db.now)]
    {
      var saved := db.devices;
      if d !in db.devices || db.devices[d].lifecycle != DeviceReady || db.devices[d].health != HealthHealthy {
        return false;
      }
      db.SetDevice(d, db.devices[d].(lifecycle := DeviceReserved));
      if r !in db.reservations || db.reservations[r].status != ReservationPending || db.reservations[r].device != None {
        db.devices := saved;
        return false;
      }
      db.SetReservation(r, db.reservations[r].(device := Some(d), failure := None, updated := db.now));
      ok := true;
    }

    /** Second transaction of a scheduling round, for the claim selected by the first. */
    method Activate(r: ReservationId, d: DeviceId, id: SessionId) returns (error: Option<Error>)
      modifies db
      ensures var outcome := ActivateTx(old(db.Value()), r, d, id);
              && db.Value() == outcome.After(old(db.Value()))
              && error == if outcome.Commit? then None else Some(outcome.error)
    {
      if r !in db.reservations || d !in db.devices {
        return Some(ErrNotFound);
      }
      var reservation, device := db.reservations[r], db.devices[d];
      if reservation.status != ReservationPending || reservation.device != Some(d) {
        return Some(ErrNotFound);
      }
      var policy := PolicyForHost(db.Value(), device.host);
      if policy == None {
        return Some(ErrNotFound);
      }
      if |ActiveOnHost(db.Value(), device.host)| >= policy.value.maxConcurrency {
        return Some(ErrCapacityUnavailable);
      }
      var may := CheckActivation(reservation.status, device.lifecycle, device.health, db.now);
      if !may {
        return Some(ErrInvalidTransition);
      }
      error := ActivateClaimed(r, d, id);
    }

    /** What reservation and device aggregate say to an activation. */
    method CheckActivation(status: ReservationStatus, l: Lifecycle, health: Health, at: Clock) returns (may: bool)
      requires status == ReservationPending
      ensures may <==> l == DeviceReserved
    {
      var reason := "device allocation claim succeeded";
      assert Plain(reason);
      PlainTrims(reason);
      may := CheckReservation(status, ReservationActive, reason, at);
      assert may;
      may := CheckDevice(l, health, DeviceBusy, "device session started after allocation claim", at);
      BusyOnlyFromReserved(l, health);
    }

    /** The three guarded writes of an activation; a duplicate session undoes the first two. */
    method ActivateClaimed(r: ReservationId, d: DeviceId, id: SessionId) returns (error: Option<Error>)
      requires r in db.reservations && d in db.devices && db.devices[d].lifecycle == DeviceReserved
      requires db.reservations[r].status == ReservationPending && db.reservations[r].device == Some(d)
      modifies db
      ensures error.Some? ==> error == Some(ErrUniqueViolation) && db.Value() == old(db.Value())
                              && (r in db.sessions || SessionIdTaken(db.Value(), id))
      ensures error == None ==>
                var s, dev, row := old(db.Value()), old(db.devices[d]), old(db.reservations[r]);
                && r !in s.sessions && !SessionIdTaken(s, id)
                && db.Value() == s.(
                     devices := s.devices[d := dev.(lifecycle := DeviceBusy)],
                     reservations := s.reservations[r := row.(
                       status := ReservationActive, starts := Some(s.now),
                       expires := Some(s.now + row.request.lease * SECOND), updated := s.now)],
                     sessions := s.sessions[r :=
                       Session(id, d, SessionActive, s.now, None, dev.host, dev.routed, None, None)])
    {
      var saved := db.Value();
      var reservation, device := db.reservations[r], db.devices[d];
      db.SetDevice(d, device.(lifecycle := DeviceBusy));
      db.SetReservation(r, reservation.(status := ReservationActive, starts := Some(db.now),
                                        expires := Some(db.now + reservation.request.lease * SECOND),
                                            updated := db.now));
      if r in db.sessions || exists q :: q in db.sessions && db.sessions[q].id == id {
        db.RollbackTo(saved);
        return Some(ErrUniqueViolation);
      }
      db.SetSession(r, Session(id, d, SessionActive, db.now, None, device.host, device.routed, None, None));
      error := None;
    }

    /** The compensation transaction: reserved, recycling, ready, and the reservation released. */
    method Compensate(r: ReservationId, d: DeviceId, code: string, terminal: bool) returns (error: Option<Error>)
      modifies db
      ensures var outcome := CompensateTx(old(db.Value()), r, d, code, terminal);
              && db.Value() == outcome.After(old(db.Value()))
              && error == if outcome.Commit? then None else Some(outcome.error)
    {
      var saved := db.Value();
      if d !in db.devices || db.devices[d].lifecycle != DeviceReserved {
        return Some(ErrNotFound);
      }
      db.SetDevice(d, db.devices[d].(lifecycle := DeviceRecycling));
      if db.devices[d].health != HealthHealthy {
        db.RollbackTo(saved);
        return Some(ErrNotFound);
      }
      db.SetDevice(d, db.devices[d].(lifecycle := DeviceReady));
      if r !in db.reservations || db.reservations[r].status != ReservationPending
          || db.reservations[r].device != Some(d) {
        db.RollbackTo(saved);
        return Some(ErrNotFound);
      }
      db.SetReservation(r, db.reservations[r].(
                        device := None, status := if terminal then ReservationFailed else ReservationPending,
                        failure := Some(code), updated := db.now));
      error := None;
    }

    /** One whole round that nothing interleaves with. `granted` is the answer of the external claim,
        `retryable` qualifies a refusal, `id` is the session identifier if one could be generated. A
        round either allocates, or gives everything back but the mark on the reservation it tried. */
    method RunOnce(granted: bool, retryable: bool, id: Option<SessionId>)
      returns (placed: Option<(ReservationId, DeviceId)>)
      modifies db
      ensures placed.Some? ==>
                var (r, d) := placed.value;
                && granted && id.Some? && ReserveTx(old(db.Value()), r, d).Commit?
                && ActivateTx(ReserveTx(old(db.Value()), r, d).post, r, d, id.value) == Commit(db.Value())
      ensures placed == None ==>
                && db.devices == old(db.devices) && db.sessions == old(db.sessions)
                && (db.Value() == old(db.Value()) ||
                    exists r, d :: ReserveTx(old(db.Value()), r, d).Commit?
                                   && db.Value() == Returned(old(db.Value()), r, granted, retryable, id))
    {
      ghost var s := db.Value();
      placed := Reserve();
      if placed == None {
        return;
      }
      var (r, d) := placed.value;
      ghost var claimed := db.Value();
      var error;
      if !granted {
        GivenBack(s, r, d, "STF_CLAIM_FAILED", !retryable);
        error := Compensate(r, d, "STF_CLAIM_FAILED", !retryable);
        placed := None;
      } else if id == None {
        GivenBack(s, r, d, "SESSION_ID_GENERATION_FAILED", true);
        error := Compensate(r, d, "SESSION_ID_GENERATION_FAILED", true);
        placed := None;
      } else {
        error := Activate(r, d, id.value);
        if error.Some? {
          GivenBack(s, r, d, "STF_CLAIM_COMPENSATED", false);
          error := Compensate(r, d, "STF_CLAIM_COMPENSATED", false);
          placed := None;
        }
      }
    }
  }

  /** The store after a round that allocated nothing: one reservation is marked, or failed. */
  function Returned(s: State, r: ReservationId, granted: bool, retryable: bool,
                    id: Option<SessionId>): (result: State) {
    if r !in s.reservations then s
    else
      var terminal := if !granted then !retryable else id == None;
      var code := if !granted then "STF_CLAIM_FAILED" else if id == None then "SESSION_ID_GENERATION_FAILED"
          else "STF_CLAIM_COMPENSATED";
      s.(reservations := s.reservations[r := s.reservations[r].(
             status := if terminal then ReservationFailed
                 else ReservationPending, failure := Some(code), updated := s.now)])
  }

  lemma GivenBack(s: State, r: ReservationId, d: DeviceId, code: string, terminal: bool)
    requires ReserveTx(s, r, d).Commit?
    ensures CompensateTx(ReserveTx(s, r, d).post, r, d, code, terminal)
            == Commit(s.(reservations := s.reservations[r := s.reservations[r].(
                             status := if terminal then ReservationFailed
                                 else ReservationPending, failure := Some(code), updated := s.now)]))
  {
  }
}
