/** The sweep loops (internal/reaper/reaper.go): each repeats one sweep until it finds nothing or fails.
    Run without interference they leave nothing behind, with one exception that is stated exactly. */
module Reaper {
  import opened Domain
  import opened Rows
  import opened Reservations
  import opened Observation
  import opened Grants
  import opened Protocol
  import opened Coupling
  import opened Fence
  import opened Safety
  import opened Claims

  datatype Sweeping = Swept | Nothing | Stuck

  predicate DueExpired(s: State, r: ReservationId, grace: nat) {
    && r in s.reservations && s.reservations[r].status == ReservationActive && s.reservations[r].expires.Some?
    && s.reservations[r].expires.value + grace <= s.now
  }

  predicate DueStale(s: State, r: ReservationId, timeout: nat, grace: nat) {
    && r in s.reservations && s.reservations[r].status == ReservationPending && s.reservations[r].device == None
    && s.reservations[r].created + timeout + grace <= s.now
  }

  predicate DueOrphan(s: State, r: ReservationId, grace: nat) {
    && r in s.reservations && s.reservations[r].status == ReservationPending && s.reservations[r].device.Some?
    && s.reservations[r].updated + grace <= s.now
  }

  /** What is due is what the search with its whole seconds can find. */
  lemma AllDueAreFound(s: State, timeout: nat, grace: nat)
    ensures forall r :: DueExpired(s, r, grace) ==> FindsExpired(s, r, grace)
    ensures forall r :: DueStale(s, r, timeout, grace) ==> FindsStale(s, r, timeout, grace)
    ensures forall r :: DueOrphan(s, r, grace) ==> FindsOrphan(s, r, grace)
  {
  }

  /** Nothing but due reservations has changed, and those have expired. */
  ghost predicate Reaped(s: State, t: State, grace: nat) {
    && t.now == s.now && t.reservations.Keys == s.reservations.Keys
    && forall r :: r in s.reservations ==>
                     || t.reservations[r] == s.reservations[r]
                     || (DueExpired(s, r, grace)
                         && t.reservations[r] == s.reservations[r].(status := ReservationExpired,
                             released := Some(s.now), updated := s.now))
  }

  /** The step from `s` to `t` expired `r`, which was due, and left no live session on it. */
  ghost predicate Expires(s: State, t: State, r: ReservationId, grace: nat) {
    && DueExpired(s, r, grace) && t.now == s.now
    && t.reservations == s.reservations[r := s.reservations[r].(
                           status := ReservationExpired, released := Some(s.now), updated := s.now)]
    && r in t.sessions && !Live(t.sessions[r])
  }

  lemma ReapedAgain(s: State, t: State, u: State, r: ReservationId, grace: nat)
    requires Reaped(s, t, grace) && Expires(t, u, r, grace)
    ensures Reaped(s, u, grace) && |OpenRows(u)| < |OpenRows(t)|
  {
    OneFewer(t, u, r);
  }

  /** Nothing but reservations that have waited too long has changed, and those have failed. */
  ghost predicate Stale(s: State, t: State, timeout: nat, grace: nat) {
    && t == s.(reservations := t.reservations) && t.reservations.Keys == s.reservations.Keys
    && forall r :: r in s.reservations ==>
                     || t.reservations[r] == s.reservations[r]
                     || (DueStale(s, r, timeout, grace)
                         && t.reservations[r] == s.reservations[r].(
                              status := ReservationFailed, failure := Some("PENDING_TIMEOUT"), updated := s.now))
  }

  lemma StaleAgain(s: State, t: State, u: State, timeout: nat, grace: nat)
    requires Stale(s, t, timeout, grace) && Stale(t, u, timeout, grace)
    ensures Stale(s, u, timeout, grace)
  {
  }

  ghost predicate Consistent(s: State) {
    Coupled(s) && SessionsMatch(s)
  }

  /** The reservations a sweep can still close. */
  function OpenRows(s: State): (result: set<ReservationId>) {
    set r | r in s.reservations && Open(s.reservations[r])
  }

  lemma OneFewer(s: State, t: State, r: ReservationId)
    requires r in s.reservations && Open(s.reservations[r])
    requires r in t.reservations && t.reservations == s.reservations[r := t.reservations[r]] && !Open(t.reservations[r])
    ensures |OpenRows(t)| < |OpenRows(s)|
  {
    assert OpenRows(t) == OpenRows(s) - {r};
  }

  /** A found reservation is closed exactly when it is due to the microsecond. */
  lemma ReapOutcome(s: State, r: ReservationId, grace: nat)
    requires Consistent(s) && FindsExpired(s, r, grace)
    ensures ReapTx(s, r, grace) == if DueExpired(s, r, grace) then CloseTx(s, r, ReservationExpired)
            else Rollback(ErrNothingToReap)
    ensures DueExpired(s, r, grace) ==>
              && CloseTx(s, r, ReservationExpired).Commit?
              && var t := CloseTx(s, r, ReservationExpired).post;
                 && Consistent(t) && t.now == s.now
                 && t.reservations == s.reservations[r := s.reservations[r].(
                      status := ReservationExpired, released := Some(s.now), updated := s.now)]
                 && r in s.sessions && r in t.sessions && t.sessions[r].appium == s.sessions[r].appium
  {
    if DueExpired(s, r, grace) {
      CloseNeverRefused(s, r, ReservationExpired);
      CloseKeeps(s, r, ReservationExpired);
      CloseMatches(s, r, ReservationExpired);
    }
  }

  class Sweeper {
    const db: Database
    const service: ReservationService
    const grants: GrantService
    const health: HealthService

    ghost predicate Valid() {
      service.db == db && grants.db == db && health.db == db
    }

    constructor (db: Database, threshold: nat)
      ensures Valid() && this.db == db
    {
      this.db := db;
      service := new ReservationService(db);
      grants := new GrantService(db);
      health := new HealthService(db, threshold);
    }

    /** Deletes the upstream session of a reservation and records it; when the host does not answer the
        device is isolated instead. */
    method CloseForReservation(r: ReservationId, deleted: bool) returns (ok: bool)
      requires Valid() && Consistent(db.Value())
      modifies db
      ensures Consistent(db.Value())
      ensures db.now == old(db.now) && db.reservations == old(db.reservations)
      ensures ok <==> deleted || !NeedsCleanup(old(db.Value()), r)
      ensures ok && r in db.sessions ==> !Live(db.sessions[r])
    {
      ghost var s := db.Value();
      if r in db.sessions {
        assert SessionMatches(s, r);
      }
      if !NeedsCleanup(db.Value(), r) {
        return true;
      }
      if !deleted {
        assert Plain(IOS_CLEANUP_FAILED);
        PlainTrims(IOS_CLEANUP_FAILED);
        ghost var d := db.sessions[r].device;
        var error := health.Drift(db.sessions[r].device, IOS_CLEANUP_FAILED);
        if error == None {
          DriftKeeps(s, d, IOS_CLEANUP_FAILED);
          RowMatches(s, db.Value(), r, d);
        }
        return false;
      }
      grants.Cleanup(r, db.sessions[r].appium.value.id);
      Untouched(s, db.Value());
      BindingMatches(s, db.Value(), r);
      ok := true;
    }

    /** One expiry sweep: found without a lock, cleaned up, closed under the lock. */
    method ReapOnce(grace: nat, deletes: ReservationId -> bool) returns (result: Sweeping, on: ReservationId)
      requires Valid() && Consistent(db.Value())
      modifies db
      ensures Consistent(db.Value()) && db.now == old(db.now)
      ensures result == Nothing ==> forall r :: !DueExpired(db.Value(), r, grace)
      ensures result != Swept ==> db.reservations == old(db.reservations)
      ensures result == Swept ==> Expires(old(db.Value()), db.Value(), on, grace)
      ensures result == Stuck ==> !deletes(on) && FindsExpired(old(db.Value()), on, grace)
    {
      on := 0;
      AllDueAreFound(db.Value(), 0, grace);
      var found := service.FindNextExpired(grace);
      if found == None {
        return Nothing, on;
      }
      var r := found.value;
      on := r;
      var clean := CloseForReservation(r, deletes(r));
      if !clean {
        return Stuck, on;
      }
      ghost var s := db.Value();
      AllDueAreFound(s, 0, grace);
      ReapOutcome(s, r, grace);
      var error := service.Reap(r, grace);
      result := if error == Some(ErrNothingToReap) then Nothing else Swept;
    }

    /** Repeats the expiry sweep; `deletes` says for which reservations the host answers. Without interference the
        loop leaves no reservation whose lease and grace have run out, unless the host of the next one due did not
        delete its session. */
    method DrainExpired(grace: nat, deletes: ReservationId -> bool) returns (stuck: Option<ReservationId>)
      requires Valid() && Consistent(db.Value())
      modifies db
      ensures Consistent(db.Value()) && Reaped(old(db.Value()), db.Value(), grace)
      ensures stuck.Some? ==> !deletes(stuck.value)
      ensures stuck == None ==> forall r :: !DueExpired(db.Value(), r, grace)
    {
      var more := true;
      stuck := None;
      while more
        invariant Consistent(db.Value()) && Reaped(old(db.Value()), db.Value(), grace)
        invariant stuck.Some? ==> !deletes(stuck.value) && !more
        invariant !more && stuck == None ==> forall r :: !DueExpired(db.Value(), r, grace)
        decreases |OpenRows(db.Value())|, more
      {
        ghost var s := db.Value();
        var result, on := ReapOnce(grace, deletes);
        if result == Swept {
          ReapedAgain(old(db.Value()), s, db.Value(), on, grace);
        } else {
          more := false;
          stuck := if result == Stuck then Some(on) else None;
        }
      }
    }

    /** One stale-pending sweep. */
    method StaleOnce(timeout: nat, grace: nat) returns (swept: bool)
      requires Valid() && Consistent(db.Value())
      modifies db
      ensures Consistent(db.Value())
      ensures !swept ==> db.Value() == old(db.Value()) && forall r :: !DueStale(db.Value(), r, timeout, grace)
      ensures swept ==>
                && Stale(old(db.Value()), db.Value(), timeout, grace)
                && |OpenRows(db.Value())| < |OpenRows(old(db.Value()))|
    {
      ghost var s := db.Value();
      AllDueAreFound(s, timeout, grace);
      var found := service.FindNextStalePending(timeout, grace);
      if found == None {
        return false;
      }
      var error := service.FailStale(found.value, timeout, grace);
      swept := error == None;
      if swept {
        Rewritten(s, db.Value(), found.value);
        RowMatches(s, db.Value(), found.value, 0);
        OneFewer(s, db.Value(), found.value);
      }
    }

    /** Repeats the stale-pending sweep: nothing that has waited too long is left, and nothing else has changed. */
    method DrainStale(timeout: nat, grace: nat)
      requires Valid() && Consistent(db.Value())
      modifies db
      ensures Consistent(db.Value()) && Stale(old(db.Value()), db.Value(), timeout, grace)
      ensures forall r :: !DueStale(db.Value(), r, timeout, grace)
    {
      var more := true;
      while more
        invariant Consistent(db.Value()) && Stale(old(db.Value()), db.Value(), timeout, grace)
        invariant !more ==> forall r :: !DueStale(db.Value(), r, timeout, grace)
        decreases |OpenRows(db.Value())|, more
      {
        ghost var s := db.Value();
        more := StaleOnce(timeout, grace);
        if more {
          StaleAgain(old(db.Value()), s, db.Value(), timeout, grace);
        }
      }
    }

    /** Repeats the orphaned-claim sweep. It stops at the first claim it cannot release: what is left
        behind is left exactly because the oldest abandoned claim sits on a quarantined device, whatever
        the devices of the younger ones. */
    method DrainOrphans(grace: nat) returns (blocked: Option<ReservationId>)
      requires Valid() && Consistent(db.Value())
      modifies db
      ensures Consistent(db.Value()) && db.now == old(db.now)
      ensures blocked == None ==> forall r :: !DueOrphan(db.Value(), r, grace)
      ensures blocked.Some? ==>
                var r, s := blocked.value, db.Value();
                && DueOrphan(s, r, grace)
                && s.reservations[r].device.value in s.devices
                    && s.devices[s.reservations[r].device.value].lifecycle == DeviceQuarantined
                && forall q :: DueOrphan(s, q, grace) ==>
                    Before(s.reservations[r].updated, r, s.reservations[q].updated, q)
    {
      var more := true;
      blocked := None;
      while more
        invariant Consistent(db.Value()) && db.now == old(db.now)
        invariant more ==> blocked == None
        invariant !more && blocked == None ==> forall r :: !DueOrphan(db.Value(), r, grace)
        invariant blocked.Some? ==>
                    var r, s := blocked.value, db.Value();
                    && DueOrphan(s, r, grace)
                    && s.reservations[r].device.value in s.devices
                        && s.devices[s.reservations[r].device.value].lifecycle == DeviceQuarantined
                    && forall q :: DueOrphan(s, q, grace) ==>
                        Before(s.reservations[r].updated, r, s.reservations[q].updated, q)
        decreases |OpenRows(db.Value())|, more
      {
        ghost var s := db.Value();
        more := false;
        AllDueAreFound(s, 0, grace);
        var found := service.FindNextOrphanedClaim(grace);
        if found.Some? {
          var r := found.value;
          var error := service.FailOrphan(r, grace);
          if error == None {
            OrphanKeeps(s, r, grace);
            RowMatches(s, db.Value(), r, s.reservations[r].device.value);
            OneFewer(s, db.Value(), r);
            more := true;
          } else if error != Some(ErrNothingToReap) {
            OrphanRecoveredExactlyWhen(s, r, grace);
            assert HolderHasDevice(s, r);
            blocked := Some(r);
          }
        }
      }
    }
  }
}
