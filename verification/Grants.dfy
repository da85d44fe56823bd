/** One-time iOS session grants and the Appium session they lead to
    (internal/iossession/service.go, internal/iossession/cleanup.go). */
module Grants {
  import opened Domain
  import opened Rows

  predicate HostUp(s: State, h: HostId) {
    h in s.hosts && s.hosts[h].status == HostOnline
  }

  /** A device on which an Appium session ended within the last thirty seconds. */
  predicate RecentCleanup(s: State, d: DeviceId) {
    exists r :: r in s.sessions && s.sessions[r].device == d && s.sessions[r].appium.Some?
                && s.sessions[r].appium.value.ended.Some?
                && s.sessions[r].appium.value.ended.value >= s.now - 30 * SECOND
  }

  /** The joined row the grant queries read. */
  predicate Joined(s: State, r: ReservationId) {
    && r in s.sessions && r in s.reservations && s.sessions[r].device in s.devices
    && s.devices[s.sessions[r].device].host in s.hosts
  }

  predicate Holds(s: State, r: ReservationId, g: string) {
    Joined(s, r) && s.sessions[r].grant.Some? && s.sessions[r].grant.value.hash == Sha256(g)
  }

  /** The lease is active and unexpired and the device is assigned, healthy, online and routed. */
  predicate Available(s: State, r: ReservationId)
    requires Joined(s, r)
  {
    var row, dev := s.reservations[r], s.devices[s.sessions[r].device];
    && dev.platform == Ios
    && row.status == ReservationActive && row.expires.Some? && row.expires.value > s.now
    && dev.lifecycle == DeviceBusy && dev.health == HealthHealthy
    && HostUp(s, dev.host) && s.sessions[r].routed
  }

  predicate Live(x: Session) {
    x.appium.Some? && x.appium.value.ended == None
  }

  function IssueTx(s: State, r: ReservationId, client: nat, owner: (string, string), ttl: int,
                   g: string): (result: Outcome) {
    if !(15 <= ttl <= 120) || owner.0 == "" || owner.1 == "" then Rollback(ErrInvalidArgument)
    else if !Joined(s, r) then Rollback(ErrNotFound)
    else
      var row, x, dev := s.reservations[r], s.sessions[r], s.devices[s.sessions[r].device];
      if row.request.client != client || row.request.owner != owner then Rollback(ErrForbidden)
      else if !Available(s, r) || x.status != SessionActive || x.host != dev.host then Rollback(ErrConflict)
      else if dev.providerBusy then Rollback(if RecentCleanup(s, x.device) then ErrProviderBusyConverging
                                             else ErrProviderBusy)
      else if x.appium.Some? then Rollback(ErrConflict)
      else if !s.hosts[dev.host].fence then Rollback(ErrHostUnavailable)
      else if exists q :: && q in s.sessions && q != r && s.sessions[q].grant.Some?
                          && s.sessions[q].grant.value.hash == Sha256(g)
      then Rollback(ErrUniqueViolation)
      else
        var until := s.now + ttl * SECOND;
        Commit(s.(sessions := s.sessions[r := x.(grant := Some(Grant(Sha256(g),
                    if until > row.expires.value then row.expires.value else until, None)))]))
  }

  /** `r` is the session the grant was found on; `pinned` says whether the request could be pinned to the device. */
  function ConsumeTx(s: State, r: ReservationId, g: string, host: HostId, pinned: bool): (result: Outcome) {
    if !Holds(s, r, g) then Rollback(ErrNotFound)
    else
      var x, dev := s.sessions[r], s.devices[s.sessions[r].device];
      if dev.host != host || x.host != host then Rollback(ErrRoutingMismatch)
      else if x.grant.value.consumed.Some? then Rollback(ErrGrantConsumed)
      else if x.grant.value.expires <= s.now then Rollback(ErrGrantExpired)
      else if !Available(s, r) then Rollback(ErrConflict)
      else if dev.providerBusy then Rollback(if RecentCleanup(s, x.device) then ErrProviderBusyConverging
                                             else ErrProviderBusy)
      else if !pinned then Rollback(ErrInvalidArgument)
      else Commit(s.(sessions := s.sessions[r := x.(grant := Some(x.grant.value.(consumed := Some(s.now))))]))
  }

  function BindTx(s: State, r: ReservationId, g: string, host: HostId, id: string): (result: Outcome) {
    if !Holds(s, r, g) then Rollback(ErrNotFound)
    else
      var x, dev := s.sessions[r], s.devices[s.sessions[r].device];
      if dev.host != host || x.host != host || x.grant.value.consumed == None then Rollback(ErrRoutingMismatch)
      else if !Available(s, r) then Rollback(ErrConflict)
      else if x.appium.Some? then
        if x.appium.value.id == id && x.appium.value.ended == None then Commit(s) else Rollback(ErrConflict)
      else Commit(s.(sessions := s.sessions[r := x.(appium := Some(Appium(id, s.now, None)))]))
  }

  /** Whether a command for Appium session `id` is let through. */
  predicate Authorized(s: State, r: ReservationId, g: string, host: HostId, id: string) {
    && Holds(s, r, g)
    && s.devices[s.sessions[r].device].host == host && s.sessions[r].host == host
    && s.sessions[r].grant.value.consumed.Some?
    && s.sessions[r].appium.Some? && s.sessions[r].appium.value.id == id && s.sessions[r].appium.value.ended == None
    && Available(s, r)
  }

  function CloseSessionTx(s: State, r: ReservationId, g: string, host: HostId, id: string): (result: Outcome) {
    if !Holds(s, r, g) then Rollback(ErrNotFound)
    else
      var x := s.sessions[r];
      if s.devices[x.device].host != host || x.appium == None || x.appium.value.id != id
          then Rollback(ErrRoutingMismatch)
      else if x.appium.value.ended.Some? then Commit(s)
      else Commit(s.(sessions := s.sessions[r := x.(appium := Some(x.appium.value.(ended := Some(s.now))))]))
  }

  /** What the cleanup of a reservation looks for before it is closed. */
  predicate NeedsCleanup(s: State, r: ReservationId) {
    r in s.sessions && s.sessions[r].device in s.devices && s.devices[s.sessions[r].device].platform == Ios
        && Live(s.sessions[r])
  }

  /** The write after the upstream session `id` has been deleted. */
  function CleanupTx(s: State, r: ReservationId, id: string): (result: Outcome) {
    if r !in s.sessions || s.sessions[r].appium == None || s.sessions[r].appium.value.id != id
       || s.sessions[r].appium.value.ended.Some?
    then Commit(s)
    else Commit(s.(sessions := s.sessions[r := s.sessions[r].(
                     appium := Some(s.sessions[r].appium.value.(ended := Some(s.now))))]))
  }

  // ---- The service, statement by statement ----

  class GrantService {
    const db: Database

    constructor (db: Database)
      ensures this.db == db
    {
      this.db := db;
    }

    method Issue(r: ReservationId, client: nat, owner: (string, string), ttl: int, g: string)
      returns (error: Option<Error>)
      modifies db`sessions
      ensures var outcome := IssueTx(old(db.Value()), r, client, owner, ttl, g);
              && db.Value() == outcome.After(old(db.Value()))
              && error == if outcome.Commit? then None else Some(outcome.error)
    {
      if ttl < 15 || ttl > 120 || owner.0 == "" || owner.1 == "" {
        return Some(ErrInvalidArgument);
      }
      if !Joined(db.Value(), r) {
        return Some(ErrNotFound);
      }
      var reservation, session := db.reservations[r], db.sessions[r];
      var device := db.devices[session.device];
      if reservation.request.client != client || reservation.request.owner != owner {
        return Some(ErrForbidden);
      }
      if !Available(db.Value(), r) || session.status != SessionActive || session.host != device.host {
        return Some(ErrConflict);
      }
      if device.providerBusy {
        return Some(if RecentCleanup(db.Value(), session.device) then ErrProviderBusyConverging else ErrProviderBusy);
      }
      if session.appium.Some? {
        return Some(ErrConflict);
      }
      if !db.hosts[device.host].fence {
        return Some(ErrHostUnavailable);
      }
      var until := db.now + ttl * SECOND;
      if until > reservation.expires.value {
        until := reservation.expires.value;
      }
      if exists q :: q in db.sessions && q != r && db.sessions[q].grant.Some?
          && db.sessions[q].grant.value.hash == Sha256(g) {
        return Some(ErrUniqueViolation);
      }
      db.SetSession(r, session.(grant := Some(Grant(Sha256(g), until, None))));
      error := None;
    }

    /** The session a grant is stored on. */
    method FindByGrant(g: string) returns (found: Option<ReservationId>)
      ensures found.Some? ==> Holds(db.Value(), found.value, g)
      ensures found == None ==> forall r :: !Holds(db.Value(), r, g)
    {
      found := None;
      if r :| r in db.sessions && Holds(db.Value(), r, g) {
        found := Some(r);
      }
    }

    method Consume(g: string, host: HostId, pinned: bool) returns (error: Option<Error>, ghost on: ReservationId)
      modifies db`sessions
      ensures var outcome := ConsumeTx(old(db.Value()), on, g, host, pinned);
              && db.Value() == outcome.After(old(db.Value()))
              && error == if outcome.Commit? then None else Some(outcome.error)
      ensures Holds(old(db.Value()), on, g) || forall r :: !Holds(old(db.Value()), r, g)
    {
      var found := FindByGrant(g);
      on := if found.Some? then found.value else 0;
      if found == None {
        return Some(ErrNotFound), on;
      }
      var r := found.value;
      var session, device := db.sessions[r], db.devices[db.sessions[r].device];
      if device.host != host || session.host != host {
        return Some(ErrRoutingMismatch), on;
      }
      if session.grant.value.consumed.Some? {
        return Some(ErrGrantConsumed), on;
      }
      if session.grant.value.expires <= db.now {
        return Some(ErrGrantExpired), on;
      }
      if !Available(db.Value(), r) {
        return Some(ErrConflict), on;
      }
      if device.providerBusy {
        return Some(if RecentCleanup(db.Value(), session.device) then ErrProviderBusyConverging else ErrProviderBusy),
            on;
      }
      if !pinned {
        return Some(ErrInvalidArgument), on;
      }
      db.SetSession(r, session.(grant := Some(session.grant.value.(consumed := Some(db.now)))));
      error := None;
    }

    method Bind(g: string, host: HostId, id: string) returns (error: Option<Error>, ghost on: ReservationId)
      modifies db`sessions
      ensures var outcome := BindTx(old(db.Value()), on, g, host, id);
              && db.Value() == outcome.After(old(db.Value()))
              && error == if outcome.Commit? then None else Some(outcome.error)
      ensures Holds(old(db.Value()), on, g) || forall r :: !Holds(old(db.Value()), r, g)
    {
      var found := FindByGrant(g);
      on := if found.Some? then found.value else 0;
      if found == None {
        return Some(ErrNotFound), on;
      }
      var r := found.value;
      var session, device := db.sessions[r], db.devices[db.sessions[r].device];
      if device.host != host || session.host != host || session.grant.value.consumed == None {
        return Some(ErrRoutingMismatch), on;
      }
      if !Available(db.Value(), r) {
        return Some(ErrConflict), on;
      }
      if session.appium.Some? {
        if session.appium.value.id == id && session.appium.value.ended == None {
          return None, on;
        }
        return Some(ErrConflict), on;
      }
      db.SetSession(r, session.(appium := Some(Appium(id, db.now, None))));
      error := None;
    }

    method Authorize(g: string, host: HostId, id: string) returns (ok: bool)
      requires forall r, q :: Holds(db.Value(), r, g) && Holds(db.Value(), q, g) ==> r == q
      ensures ok <==> exists r :: Authorized(db.Value(), r, g, host, id)
    {
      var found := FindByGrant(g);
      if found == None {
        return false;
      }
      var r := found.value;
      var session, device := db.sessions[r], db.devices[db.sessions[r].device];
      if device.host != host || session.host != host || session.grant.value.consumed == None
         || session.appium == None || session.appium.value.id != id || session.appium.value.ended.Some? {
        return false;
      }
      ok := Available(db.Value(), r);
      assert ok ==> Authorized(db.Value(), r, g, host, id);
    }

    method Close(g: string, host: HostId, id: string) returns (error: Option<Error>, ghost on: ReservationId)
      modifies db`sessions
      ensures var outcome := CloseSessionTx(old(db.Value()), on, g, host, id);
              && db.Value() == outcome.After(old(db.Value()))
              && error == if outcome.Commit? then None else Some(outcome.error)
      ensures Holds(old(db.Value()), on, g) || forall r :: !Holds(old(db.Value()), r, g)
    {
      var found := FindByGrant(g);
      on := if found.Some? then found.value else 0;
      if found == None {
        return Some(ErrNotFound), on;
      }
      var r := found.value;
      var session := db.sessions[r];
      if db.devices[session.device].host != host || session.appium == None || session.appium.value.id != id {
        return Some(ErrRoutingMismatch), on;
      }
      if session.appium.value.ended.Some? {
        return None, on;
      }
      db.SetSession(r, session.(appium := Some(session.appium.value.(ended := Some(db.now)))));
      error := None;
    }

    /** Records that the upstream session `id` is gone, unless somebody already has. */
    method Cleanup(r: ReservationId, id: string)
      modifies db`sessions
      ensures CleanupTx(old(db.Value()), r, id) == Commit(db.Value())
    {
      if r in db.sessions {
        var session := db.sessions[r];
        if session.appium.Some? && session.appium.value.id == id && session.appium.value.ended == None {
          db.SetSession(r, session.(appium := Some(session.appium.value.(ended := Some(db.now)))));
        }
      }
    }
  }
}
