/** Creating, extending, releasing and sweeping reservations (internal/reservation/service.go
    and the guarded updates it runs, internal/repository/reservation.go). */
module Reservations {
  import opened Domain
  import opened Rows

  // ---- Creation ----

  /** An open reservation a user made for one particular device. */
  predicate OpenTargeted(s: State, d: DeviceId, r: ReservationId) {
    && r in s.reservations && Open(s.reservations[r])
    && s.reservations[r].request.owner.0 == "manual" && s.reservations[r].request.target == Some(d)
  }

  predicate NewestTargeted(s: State, d: DeviceId, r: ReservationId) {
    OpenTargeted(s, d, r)
    && forall q :: q in s.reservations && OpenTargeted(s, d, q) ==>
                     Before(s.reservations[q].created, q, s.reservations[r].created, r)
  }

  /** Whether a request may name this device at all. */
  predicate Targetable(s: State, q: Request, d: DeviceId) {
    && d in s.devices && s.devices[d].pool == Some(q.pool)
    && q.pool in s.pools && s.pools[q.pool].enabled && s.pools[q.pool].platform == s.devices[d].platform
    && s.devices[d].lifecycle !in {DeviceDeleted, DeviceStopped, DeviceQuarantined}
  }

  /** `actor` is the caller; a targeted device somebody already holds is the caller's own or refused. */
  function CreateTx(s: State, id: ReservationId, q: Request, actor: string): (result: Outcome) {
    if q.lease < 60 then Rollback(ErrInvalidArgument)
    else if q.pool !in s.pools then Rollback(ErrNotFound)
    else if !s.pools[q.pool].enabled then Rollback(ErrPoolUnavailable)
    else if q.platform.Some? && q.platform.value != s.pools[q.pool].platform then Rollback(ErrInvalidArgument)
    else if q.lease > s.pools[q.pool].maxLease then Rollback(ErrInvalidArgument)
    else if q.target.Some? && !Targetable(s, q, q.target.value) then Rollback(ErrNotFound)
    else if q.target.Some? && exists r :: r in s.reservations && NewestTargeted(s, q.target.value, r) then
      if exists r :: && r in s.reservations && NewestTargeted(s, q.target.value, r)
                     && s.reservations[r].request.owner.1 == actor
      then Commit(s) else Rollback(ErrConflict)
    else InsertTx(s, id, q)
  }

  /** The idempotent insert: one client key names one reservation. */
  function InsertTx(s: State, id: ReservationId, q: Request): (result: Outcome) {
    if exists r :: r in s.reservations && SameKey(s.reservations[r].request, q) then
      if exists r :: r in s.reservations && s.reservations[r].request == q
      then Commit(s) else Rollback(ErrIdempotencyConflict)
    else if id in s.reservations then Rollback(ErrUniqueViolation)
    else Commit(s.(reservations := s.reservations[id :=
                     Reservation(q, ReservationPending, None, None, None, None, None, s.now, s.now)]))
  }

  /** If somebody holds a device by name, there is a newest one who does. */
  lemma NewestTargetedExists(s: State, d: DeviceId, r: ReservationId)
    requires OpenTargeted(s, d, r)
    ensures exists q :: NewestTargeted(s, d, q)
  {
    var rows := set q | q in s.reservations && OpenTargeted(s, d, q);
    assert r in rows;
    var last := Last(rows, map q | q in s.reservations :: s.reservations[q].created);
    forall q | q in s.reservations && OpenTargeted(s, d, q)
      ensures Before(s.reservations[q].created, q, s.reservations[last].created, last)
    {
      assert q in rows;
    }
    assert NewestTargeted(s, d, last);
  }

  /** A non-empty finite set of keys has a last element in (created, id) order. */
  lemma {:induction false} Last(keys: set<nat>, created: map<nat, int>) returns (last: nat)
    requires keys != {} && keys <= created.Keys
    ensures last in keys
    ensures forall j :: j in keys ==> Before(created[j], j, created[last], last)
    decreases keys
  {
    var pick :| pick in keys;
    var rest := keys - {pick};
    last := pick;
    if rest == {} {
    } else {
      var m := Last(rest, created);
      if !Before(created[m], m, created[pick], pick) {
        last := m;
      }
    }
    forall j | j in keys
      ensures Before(created[j], j, created[last], last)
    {
      if j != pick {
        assert j in rest;
      }
    }
  }

  predicate SameKey(a: Request, b: Request) {
    a.client == b.client && a.key == b.key
  }

  // ---- Idempotency records ----

  datatype Begin = Begun | Replayed | Conflicting

  function BeginOp(s: State, key: OpKey, op: Operation): (result: Begin) {
    if key !in s.operations then Begun
    else if s.operations[key] == op then Replayed
    else Conflicting
  }

  predicate ValidKey(key: string) {
    8 <= |key| <= 128
  }

  // ---- Extension ----

  function ExtendTx(s: State, client: nat, key: string, r: ReservationId, seconds: int): (result: Outcome) {
    var k, op := OpKey(client, ExtendScope, key), Operation(ExtendBody(seconds), r);
    if !ValidKey(key) || seconds < 60 then Rollback(ErrInvalidArgument)
    else match BeginOp(s, k, op)
      case Conflicting => Rollback(ErrIdempotencyConflict)
      case Replayed => Commit(s)
      case Begun =>
        if r !in s.reservations then Rollback(ErrNotFound)
        else
          var row := s.reservations[r];
          if row.status != ReservationActive || row.starts == None || row.expires == None then Rollback(ErrConflict)
          else if row.expires.value <= s.now then Rollback(ErrConflict)
          else if row.request.pool !in s.pools then Rollback(ErrNotFound)
          else if seconds > s.pools[row.request.pool].maxLease then Rollback(ErrInvalidArgument)
          else Commit(s.(operations := s.operations[k := op],
                         reservations := s.reservations[r := row.(
                             expires := Some(Least(row.expires.value + seconds * SECOND,
                                                   s.now + s.pools[row.request.pool].maxLease * SECOND)),
                             updated := s.now)]))
  }

  function Least(a: int, b: int): (result: int) {
    if a <= b then a else b
  }

  /** The keep-alive of a manually targeted lease: one guarded update, no idempotency key. */
  function KeepAliveTx(s: State, r: ReservationId, owner: string, d: DeviceId, seconds: int): (result: Outcome) {
    if seconds < 60 then Rollback(ErrInvalidArgument)
    else if r !in s.reservations then Rollback(ErrNotFound)
    else
      var row := s.reservations[r];
      if || row.request.pool !in s.pools || row.status != ReservationActive
         || row.expires == None || row.expires.value <= s.now
         || row.request.owner != ("manual", owner) || row.request.target != Some(d)
      then Rollback(ErrNotFound)
      else Commit(s.(reservations := s.reservations[r := row.(
                         expires := Some(Least(s.now + seconds * SECOND,
                                               s.now + s.pools[row.request.pool].maxLease * SECOND)),
                         updated := s.now)]))
  }

  // ---- Closing an active reservation ----

  /** Whether the pool of the device's host wants a fresh machine for the next run. */
  predicate Recycles(s: State, dev: Device) {
    && PolicyForRelease(s, dev.host).Some? && PolicyForRelease(s, dev.host).value.freshVM
    && dev.platform == Android && dev.kind == Emulator
    && dev.lifecycle != DeviceQuarantined && dev.health == HealthHealthy
  }

  function CloseTarget(health: Health, recycle: bool): (result: Lifecycle) {
    if health != HealthHealthy then DeviceQuarantined
    else if recycle then DeviceRecycling
    else DeviceReady
  }

  /** The lifecycle a closed device is left in. */
  function ClosedLifecycle(l: Lifecycle, health: Health, recycle: bool): (result: Lifecycle) {
    if l == DeviceQuarantined then DeviceQuarantined else CloseTarget(health, recycle)
  }

  /** The SQL CASE of the release statement. */
  function SqlLifecycle(l: Lifecycle, recycle: bool, target: Lifecycle): (result: Lifecycle) {
    if l == DeviceQuarantined then l
    else if recycle then DeviceRecycling
    else if target == DeviceQuarantined then DeviceQuarantined
    else DeviceReady
  }

  /** The other CASE of the statement: the durable permission to rebuild the machine. */
  function SqlMode(mode: Mode, recycle: bool): (result: Mode) {
    if recycle then RebuildMode else mode
  }

  /** The lifecycles the release statement accepts. */
  predicate SqlAccepts(l: Lifecycle) {
    l in {DeviceReady, DeviceBusy, DeviceReserved, DeviceRecycling, DeviceQuarantined}
  }

  /** The lifecycles the device aggregate accepts for a release. */
  predicate AggregateAccepts(l: Lifecycle, health: Health, recycle: bool) {
    var target := CloseTarget(health, recycle);
    l == DeviceQuarantined || l == target || DeviceMay(l, health, target)
  }

  function CloseTx(s: State, r: ReservationId, terminal: ReservationStatus): (result: Outcome) {
    if r !in s.reservations then Rollback(ErrNotFound)
    else
      var row := s.reservations[r];
      if row.device == None then Rollback(ErrConflict)
      else if !Edge(RESERVATION_TRANSITIONS, row.status, terminal) then Rollback(ErrInvalidTransition)
      else if r !in s.sessions then Rollback(ErrNotFound)
      else if s.sessions[r].status != SessionActive then Rollback(ErrInvalidTransition)
      else if row.device.value !in s.devices then Rollback(ErrNotFound)
      else
        var d := row.device.value;
        var dev := s.devices[d];
        var recycle := Recycles(s, dev);
        if !AggregateAccepts(dev.lifecycle, dev.health, recycle) then Rollback(ErrInvalidTransition)
        else if !SqlAccepts(dev.lifecycle) || row.status != ReservationActive then Rollback(ErrNotFound)
        else Commit(s.(
                    sessions := s.sessions[r := s.sessions[r].(status := SessionClosed, ended := Some(s.now))],
                    devices := s.devices[d := dev.(lifecycle := ClosedLifecycle(dev.lifecycle, dev.health, recycle),
                                                   mode := SqlMode(dev.mode, recycle))],
                    reservations := s.reservations[r := row.(
                      status := terminal, released := Some(s.now), updated := s.now)]))
  }

  // ---- Release by a caller ----

  /** The caller's own reservation, or a manual one whose console owner it is. */
  predicate OwnedBy(q: Request, client: nat, console: Option<string>) {
    q.client == client || (console.Some? && q.owner == ("manual", console.value))
  }

  function ReleaseTx(s: State, client: nat, console: Option<string>, key: string, r: ReservationId, why: string,
                     force: bool): (result: Outcome) {
    var k, op := OpKey(client, ReleaseScope, key), Operation(ReleaseBody(why, force), r);
    if !ValidKey(key) || !(3 <= |TrimSpace(why)| <= 500) then Rollback(ErrInvalidArgument)
    else if BeginOp(s, k, op) == Conflicting then Rollback(ErrIdempotencyConflict)
    else if r !in s.reservations then Rollback(ErrNotFound)
    else if !OwnedBy(s.reservations[r].request, client, console) && !force then Rollback(ErrForbidden)
    else if BeginOp(s, k, op) == Replayed then Commit(s)
    else
      ReleaseLockedTx(ReleaseBegun(s, client, key, r, why, force), r, force)
  }

  /** The store once the record of a release is inserted. */
  function ReleaseBegun(s: State, client: nat, key: string, r: ReservationId, why: string,
                        force: bool): (result: State) {
    s.(operations := s.operations[OpKey(client, ReleaseScope, key) := Operation(ReleaseBody(why, force), r)])
  }

  /** A release that commits is a replay or the locked part after its record. */
  lemma ReleaseShape(s: State, client: nat, console: Option<string>, key: string, r: ReservationId, why: string,
                     force: bool)
    requires ReleaseTx(s, client, console, key, r, why, force).Commit?
    ensures r in s.reservations
    ensures || ReleaseTx(s, client, console, key, r, why, force).post == s
            || ReleaseTx(s, client, console, key, r, why,
                         force) == ReleaseLockedTx(ReleaseBegun(s, client, key, r, why, force), r, force)
  {
  }

  /** What the locked part does: nothing, cancel a pending reservation, or close an active one. */
  lemma LockedShape(s: State, r: ReservationId, force: bool)
    requires r in s.reservations && ReleaseLockedTx(s, r, force).Commit?
    ensures var t := ReleaseLockedTx(s, r, force).post;
            || t == s
            || (s.reservations[r].status == ReservationPending && s.reservations[r].device == None
                && t == s.(reservations := s.reservations[r := s.reservations[r].(
                       status := ReservationFailed, failure := Some("RESERVATION_CANCELED"), updated := s.now)]))
            || (s.reservations[r].status == ReservationActive
                && ReleaseLockedTx(s, r, force)
                   == CloseTx(s, r, if force then ReservationForceReleased else ReservationReleased))
  {
  }

  /** The part of a release that runs under the row lock, after its record was inserted. */
  function ReleaseLockedTx(s: State, r: ReservationId, force: bool): (result: Outcome)
    requires r in s.reservations
  {
    var row := s.reservations[r];
    match row.status
    case ReservationPending =>
      if row.device.Some? then Rollback(ErrConflict)
      else Commit(s.(reservations := s.reservations[r := row.(
                         status := ReservationFailed, failure := Some("RESERVATION_CANCELED"), updated := s.now)]))
    case ReservationActive => CloseTx(s, r, if force then ReservationForceReleased else ReservationReleased)
    case _ => Commit(s)
  }

  // ---- Sweeps: what the unlocked search may pick, and the locked transaction ----

  predicate FindsExpired(s: State, r: ReservationId, grace: nat) {
    && r in s.reservations && s.reservations[r].status == ReservationActive && s.reservations[r].expires.Some?
    && s.reservations[r].expires.value + (grace / SECOND) * SECOND <= s.now
  }

  function ReapTx(s: State, r: ReservationId, grace: nat): (result: Outcome) {
    if r !in s.reservations then Rollback(ErrNotFound)
    else
      var row := s.reservations[r];
      if row.status != ReservationActive || row.expires == None then Rollback(ErrNothingToReap)
      else if row.expires.value + grace > s.now then Rollback(ErrNothingToReap)
      else CloseTx(s, r, ReservationExpired)
  }

  predicate FindsStale(s: State, r: ReservationId, timeout: nat, grace: nat) {
    && r in s.reservations && s.reservations[r].status == ReservationPending && s.reservations[r].device == None
    && s.reservations[r].created + (timeout / SECOND) * SECOND + (grace / SECOND) * SECOND <= s.now
  }

  function StaleTx(s: State, r: ReservationId, timeout: nat, grace: nat): (result: Outcome) {
    if r !in s.reservations then Rollback(ErrNotFound)
    else
      var row := s.reservations[r];
      if row.status != ReservationPending || row.device.Some? then Rollback(ErrNothingToReap)
      else if row.created + timeout + grace > s.now then Rollback(ErrNothingToReap)
      else Commit(s.(reservations := s.reservations[r := row.(
                         status := ReservationFailed, failure := Some("PENDING_TIMEOUT"), updated := s.now)]))
  }

  predicate FindsOrphan(s: State, r: ReservationId, grace: nat) {
    && r in s.reservations && s.reservations[r].status == ReservationPending && s.reservations[r].device.Some?
    && s.reservations[r].updated + (grace / SECOND) * SECOND <= s.now
  }

  function OrphanTx(s: State, r: ReservationId, grace: nat): (result: Outcome) {
    if r !in s.reservations then Rollback(ErrNotFound)
    else
      var row := s.reservations[r];
      if row.status != ReservationPending || row.device == None then Rollback(ErrNothingToReap)
      else if row.updated + grace > s.now then Rollback(ErrNothingToReap)
      else if row.device.value !in s.devices || s.devices[row.device.value].lifecycle != DeviceReserved
          then Rollback(ErrNotFound)
      else
        var d := row.device.value;
        Commit(s.(
                 devices := s.devices[d := s.devices[d].(lifecycle :=
                     if s.devices[d].health == HealthHealthy then DeviceReady else DeviceQuarantined)],
                 reservations := s.reservations[r := row.(
                     device := None, status := ReservationFailed, failure := Some("CLAIM_ABANDONED"),
                         updated := s.now)]))
  }

  // ---- The two descriptions of a release agree ----

  /** Whatever lifecycle the SQL statement accepts the aggregate accepts too, and the CASE then writes
      exactly the lifecycle the aggregate reaches: quarantine is kept, an unhealthy device never
      becomes ready, recycling is reached exactly when a fresh machine is owed and always carries the
      rebuild mode. */
  lemma SqlFollowsAggregate(s: State, dev: Device)
    requires SqlAccepts(dev.lifecycle)
    ensures AggregateAccepts(dev.lifecycle, dev.health, Recycles(s, dev))
    ensures var recycle := Recycles(s, dev);
            var written := SqlLifecycle(dev.lifecycle, recycle, CloseTarget(dev.health, recycle));
            && written == ClosedLifecycle(dev.lifecycle, dev.health, recycle)
            && (dev.lifecycle == DeviceQuarantined ==> written == DeviceQuarantined)
            && (written == DeviceReady ==> dev.health == HealthHealthy)
            && (written == DeviceRecycling <==> recycle)
            && (written == DeviceRecycling ==> SqlMode(dev.mode, recycle) == RebuildMode)
  {
  }

  lemma SqlFollowsAggregateAt(l: Lifecycle, health: Health, recycle: bool)
    requires recycle ==> l != DeviceQuarantined && health == HealthHealthy
    ensures SqlLifecycle(l, recycle, CloseTarget(health, recycle)) == ClosedLifecycle(l, health, recycle)
    ensures SqlAccepts(l) ==> AggregateAccepts(l, health, recycle)
  {
  }

  lemma OneNewest(s: State, d: DeviceId)
    ensures forall r, q :: NewestTargeted(s, d, r) && NewestTargeted(s, d, q) ==> r == q
  {
  }

  // ---- The service, statement by statement ----

  function Committed(outcome: Outcome): (result: Option<Error>) {
    if outcome.Commit? then None else Some(outcome.error)
  }

  class ReservationService {
    const db: Database

    constructor (db: Database)
      ensures this.db == db
    {
      this.db := db;
    }

    method Create(id: ReservationId, q: Request, actor: string) returns (error: Option<Error>)
      modifies db
      ensures db.Value() == CreateTx(old(db.Value()), id, q, actor).After(old(db.Value()))
      ensures error == Committed(CreateTx(old(db.Value()), id, q, actor))
    {
      if q.lease < 60 {
        return Some(ErrInvalidArgument);
      }
      if q.pool !in db.pools {
        return Some(ErrNotFound);
      }
      var pool := db.pools[q.pool];
      if !pool.enabled {
        return Some(ErrPoolUnavailable);
      }
      if q.platform.Some? && q.platform.value != pool.platform {
        return Some(ErrInvalidArgument);
      }
      if q.lease > pool.maxLease {
        return Some(ErrInvalidArgument);
      }
      if q.target.Some? {
        if !Targetable(db.Value(), q, q.target.value) {
          return Some(ErrNotFound);
        }
        var existing := FindOpenTargeted(q.target.value);
        if existing.Some? {
          OneNewest(db.Value(), q.target.value);
          return if db.reservations[existing.value].request.owner.1 == actor then None else Some(ErrConflict);
        }
      }
      error := CreatePending(id, q);
    }

    /** The newest open reservation made for one device, whoever made it. */
    method FindOpenTargeted(d: DeviceId) returns (found: Option<ReservationId>)
      ensures found.Some? ==> NewestTargeted(db.Value(), d, found.value)
      ensures found == None ==> forall r :: !OpenTargeted(db.Value(), d, r)
    {
      found := None;
      if r :| r in db.reservations && NewestTargeted(db.Value(), d, r) {
        found := Some(r);
      } else {
        forall r | r in db.reservations
          ensures !OpenTargeted(db.Value(), d, r)
        {
          if OpenTargeted(db.Value(), d, r) {
            NewestTargetedExists(db.Value(), d, r);
          }
        }
      }
    }

    method CreatePending(id: ReservationId, q: Request) returns (error: Option<Error>)
      modifies db`reservations
      ensures db.Value() == InsertTx(old(db.Value()), id, q).After(old(db.Value()))
      ensures error == Committed(InsertTx(old(db.Value()), id, q))
    {
      if exists r :: r in db.reservations && SameKey(db.reservations[r].request, q) {
        if exists r :: r in db.reservations && db.reservations[r].request == q {
          return None;
        }
        return Some(ErrIdempotencyConflict);
      }
      if id in db.reservations {
        return Some(ErrUniqueViolation);
      }
      db.SetReservation(id, Reservation(q, ReservationPending, None, None, None, None, None, db.now, db.now));
      error := None;
    }

    /** Inserts the record of a keyed call, or compares the call with the record that is there. */
    method BeginOperation(key: OpKey, op: Operation) returns (begin: Begin)
      modifies db`operations
      ensures begin == BeginOp(old(db.Value()), key, op)
      ensures db.operations == if begin == Begun then old(db.operations)[key := op] else old(db.operations)
    {
      if key !in db.operations {
        db.operations := db.operations[key := op];
        return Begun;
      }
      begin := if db.operations[key] == op then Replayed else Conflicting;
    }

    method Extend(client: nat, key: string, r: ReservationId, seconds: int) returns (error: Option<Error>)
      modifies db
      ensures db.Value() == ExtendTx(old(db.Value()), client, key, r, seconds).After(old(db.Value()))
      ensures error == Committed(ExtendTx(old(db.Value()), client, key, r, seconds))
    {
      if !ValidKey(key) || seconds < 60 {
        return Some(ErrInvalidArgument);
      }
      var saved := db.Value();
      var begin := BeginOperation(OpKey(client, ExtendScope, key), Operation(ExtendBody(seconds), r));
      if begin == Conflicting {
        return Some(ErrIdempotencyConflict);
      }
      if begin == Replayed {
        return None;
      }
      error := ExtendLocked(r, seconds);
      if error.Some? {
        db.RollbackTo(saved);
      }
    }

    /** The part of an extension that runs under the row lock. */
    method ExtendLocked(r: ReservationId, seconds: int) returns (error: Option<Error>)
      modifies db`reservations
      ensures error.Some? ==> db.reservations == old(db.reservations)
      ensures error == (
                if r !in old(db.reservations) then Some(ErrNotFound)
                else
                  var row := old(db.reservations[r]);
                  if row.status != ReservationActive || row.starts == None || row.expires == None then Some(ErrConflict)
                  else if row.expires.value <= db.now then Some(ErrConflict)
                  else if row.request.pool !in db.pools then Some(ErrNotFound)
                  else if seconds > db.pools[row.request.pool].maxLease then Some(ErrInvalidArgument) else None)
      ensures error == None ==>
                var row := old(db.reservations[r]);
                db.reservations == old(db.reservations)[r := row.(
                    expires := Some(Least(row.expires.value + seconds * SECOND,
                                          db.now + db.pools[row.request.pool].maxLease * SECOND)),
                    updated := db.now)]
    {
      if r !in db.reservations {
        return Some(ErrNotFound);
      }
      var current := db.reservations[r];
      if current.status != ReservationActive || current.starts == None || current.expires == None {
        return Some(ErrConflict);
      }
      if current.expires.value <= db.now {
        return Some(ErrConflict);
      }
      if current.request.pool !in db.pools {
        return Some(ErrNotFound);
      }
      var policy := db.pools[current.request.pool];
      if seconds > policy.maxLease {
        return Some(ErrInvalidArgument);
      }
      var maximum, next := db.now + policy.maxLease * SECOND, current.expires.value + seconds * SECOND;
      if next > maximum {
        next := maximum;
      }
      db.SetReservation(r, current.(expires := Some(next), updated := db.now));
      error := None;
    }

    method KeepAlive(r: ReservationId, owner: string, d: DeviceId, seconds: int) returns (error: Option<Error>)
      modifies db`reservations
      ensures db.Value() == KeepAliveTx(old(db.Value()), r, owner, d, seconds).After(old(db.Value()))
      ensures error == Committed(KeepAliveTx(old(db.Value()), r, owner, d, seconds))
    {
      if seconds < 60 {
        return Some(ErrInvalidArgument);
      }
      if r !in db.reservations {
        return Some(ErrNotFound);
      }
      var row := db.reservations[r];
      if row.request.pool !in db.pools || row.status != ReservationActive || row.expires == None
          || row.expires.value <= db.now {
        return Some(ErrNotFound);
      }
      if row.request.owner != ("manual", owner) || row.request.target != Some(d) {
        return Some(ErrNotFound);
      }
      var wanted, most := db.now + seconds * SECOND, db.now + db.pools[row.request.pool].maxLease * SECOND;
      db.SetReservation(r, row.(expires := Some(Least(wanted, most)), updated := db.now));
      error := None;
    }

    /** Closing under the locks: the aggregates are asked first, then the rows are written. On an error
        the caller rolls back. */
    method CloseActiveLocked(r: ReservationId, terminal: ReservationStatus, reason: string)
      returns (error: Option<Error>)
      requires r in db.reservations && TrimSpace(reason) != ""
      modifies db`sessions, db`devices, db`reservations
      ensures error == Committed(CloseTx(old(db.Value()), r, terminal))
      ensures error == None ==> CloseTx(old(db.Value()), r, terminal) == Commit(db.Value())
    {
      var current := db.reservations[r];
      if current.device == None {
        return Some(ErrConflict);
      }
      var ok := CheckReservation(current.status, terminal, reason, db.now);
      if !ok {
        return Some(ErrInvalidTransition);
      }
      if r !in db.sessions {
        return Some(ErrNotFound);
      }
      ok := CheckSessionClose(db.sessions[r].status, reason, db.now);
      if !ok {
        return Some(ErrInvalidTransition);
      }
      if current.device.value !in db.devices {
        return Some(ErrNotFound);
      }
      error := CloseDevice(r, current.device.value, terminal);
    }

    /** The device half: what the aggregate allows decides, then the statements run. */
    method CloseDevice(r: ReservationId, d: DeviceId, terminal: ReservationStatus) returns (error: Option<Error>)
      requires r in db.reservations && db.reservations[r].device == Some(d) && d in db.devices
      requires r in db.sessions && db.sessions[r].status == SessionActive
      requires Edge(RESERVATION_TRANSITIONS, db.reservations[r].status, terminal)
      modifies db`sessions, db`devices, db`reservations
      ensures error == Committed(CloseTx(old(db.Value()), r, terminal))
      ensures error == None ==> CloseTx(old(db.Value()), r, terminal) == Commit(db.Value())
    {
      var device := db.devices[d];
      var policy := PolicyForRelease(db.Value(), device.host);
      var recycle := && policy.Some? && policy.value.freshVM && device.platform == Android && device.kind == Emulator
                     && device.lifecycle != DeviceQuarantined && device.health == HealthHealthy;
      var reached, target := CheckRelease(device.lifecycle, device.health, recycle, db.now);
      if reached == None {
        return Some(ErrInvalidTransition);
      }
      error := CloseActive(r, d, terminal, recycle, target);
      SqlFollowsAggregateAt(device.lifecycle, device.health, recycle);
      assert error == None ==> db.devices[d].lifecycle == reached.value;
    }

    /** The lifecycle a release is after, and the one the device aggregate is in once it was asked to go
        there; None when it refuses. */
    method CheckRelease(l: Lifecycle, health: Health, recycle: bool, at: Clock)
      returns (reached: Option<Lifecycle>, target: Lifecycle)
      ensures target == CloseTarget(health, recycle)
      ensures reached.Some? <==> AggregateAccepts(l, health, recycle)
      ensures reached.Some? ==> reached.value == ClosedLifecycle(l, health, recycle)
    {
      target := DeviceReady;
      if health != HealthHealthy {
        target := DeviceQuarantined;
      } else if recycle {
        target := DeviceRecycling;
      }
      var aggregate := new DeviceAggregate(l, health);
      if aggregate.lifecycle.status != DeviceQuarantined && aggregate.lifecycle.status != target {
        assert Plain("reservation released");
        PlainTrims("reservation released");
        var ok := aggregate.MoveTo(target, "reservation released", at);
        if !ok {
          return None, target;
        }
      }
      reached := Some(aggregate.lifecycle.status);
    }

    /** The guarded statements of a release. */
    method CloseActive(r: ReservationId, d: DeviceId, terminal: ReservationStatus, recycle: bool,
                       target: Lifecycle) returns (error: Option<Error>)
      requires r in db.sessions && db.sessions[r].status == SessionActive
      requires d in db.devices && r in db.reservations
      modifies db`sessions, db`devices, db`reservations
      ensures error == if SqlAccepts(old(db.devices[d]).lifecycle)
              && old(db.reservations[r]).status == ReservationActive
                       then None else Some(ErrNotFound)
      ensures error == None ==>
                && db.sessions == old(db.sessions)[r := old(db.sessions[r]).(status := SessionClosed,
                    ended := Some(db.now))]
                && db.devices == old(db.devices)[d := old(db.devices[d]).(
                                   lifecycle := SqlLifecycle(old(db.devices[d]).lifecycle, recycle, target),
                                   mode := SqlMode(old(db.devices[d]).mode, recycle))]
                && db.reservations == old(db.reservations)[r := old(db.reservations[r]).(
                                        status := terminal, released := Some(db.now), updated := db.now)]
    {
      if db.sessions[r].status == SessionActive {
        db.SetSession(r, db.sessions[r].(status := SessionClosing));
      }
      if db.sessions[r].status == SessionClosing {
        db.SetSession(r, db.sessions[r].(status := SessionClosed, ended := Some(db.now)));
      }
      var device := db.devices[d];
      if !SqlAccepts(device.lifecycle) {
        return Some(ErrNotFound);
      }
      db.SetDevice(d, device.(lifecycle := SqlLifecycle(device.lifecycle, recycle, target),
                              mode := SqlMode(device.mode, recycle)));
      if db.reservations[r].status != ReservationActive {
        return Some(ErrNotFound);
      }
      db.SetReservation(r, db.reservations[r].(status := terminal, released := Some(db.now), updated := db.now));
      error := None;
    }

    method Release(client: nat, console: Option<string>, key: string, r: ReservationId, why: string,
                   force: bool) returns (error: Option<Error>)
      modifies db
      ensures db.Value() == ReleaseTx(old(db.Value()), client, console, key, r, why, force).After(old(db.Value()))
      ensures error == Committed(ReleaseTx(old(db.Value()), client, console, key, r, why, force))
    {
      var saved := db.Value();
      if !ValidKey(key) || |TrimSpace(why)| < 3 || |TrimSpace(why)| > 500 {
        return Some(ErrInvalidArgument);
      }
      var k, op := OpKey(client, ReleaseScope, key), Operation(ReleaseBody(why, force), r);
      if k in db.operations && db.operations[k] != op {
        return Some(ErrIdempotencyConflict);
      }
      if r !in db.reservations {
        return Some(ErrNotFound);
      }
      if !OwnedBy(db.reservations[r].request, client, console) && !force {
        return Some(ErrForbidden);
      }
      var begin := BeginOperation(k, op);
      if begin == Replayed {
        return None;
      }
      ghost var begun := db.Value();
      error := ReleaseLocked(r, why, force);
      if error.Some? {
        db.RollbackTo(saved);
      }
    }

    method ReleaseLocked(r: ReservationId, why: string, force: bool) returns (error: Option<Error>)
      requires r in db.reservations && TrimSpace(why) != ""
      modifies db`sessions, db`devices, db`reservations
      ensures error == Committed(ReleaseLockedTx(old(db.Value()), r, force))
      ensures error == None ==> ReleaseLockedTx(old(db.Value()), r, force) == Commit(db.Value())
    {
      var current := db.reservations[r];
      if current.status == ReservationPending {
        if current.device.Some? {
          return Some(ErrConflict);
        }
        var ok := CheckReservation(current.status, ReservationFailed, why, db.now);
        assert ok;
        db.SetReservation(r, current.(status := ReservationFailed, failure := Some("RESERVATION_CANCELED"),
                                      updated := db.now));
        return None;
      }
      if current.status != ReservationActive {
        return None;
      }
      error := CloseActiveLocked(r, if force then ReservationForceReleased else ReservationReleased, why);
    }

    /** The first row of an ordered search. */
    method Oldest(rows: set<ReservationId>, order: map<ReservationId, int>) returns (first: Option<ReservationId>)
      requires rows <= order.Keys
      ensures first == None <==> rows == {}
      ensures first.Some? ==> first.value in rows && forall j :: j in rows ==>
                Before(order[first.value], first.value, order[j], j)
    {
      if rows == {} {
        return None;
      }
      ghost var some := First(rows, order);
      var r :| r in rows && forall j :: j in rows ==> Before(order[r], r, order[j], j);
      first := Some(r);
    }

    method FindNextExpired(grace: nat) returns (found: Option<ReservationId>)
      ensures found == None ==> forall r :: !FindsExpired(db.Value(), r, grace)
      ensures found.Some? ==> FindsExpired(db.Value(), found.value, grace)
      ensures found.Some? ==> forall r :: FindsExpired(db.Value(), r, grace) ==>
                Before(db.reservations[found.value].expires.value, found.value, db.reservations[r].expires.value, r)
    {
      var s := db.Value();
      var rows := set r | r in s.reservations && FindsExpired(s, r, grace);
      found := Oldest(rows, map r | r in rows :: s.reservations[r].expires.value);
      assert forall r :: FindsExpired(s, r, grace) ==> r in rows;
    }

    method FindNextStalePending(timeout: nat, grace: nat) returns (found: Option<ReservationId>)
      ensures found == None ==> forall r :: !FindsStale(db.Value(), r, timeout, grace)
      ensures found.Some? ==> FindsStale(db.Value(), found.value, timeout, grace)
      ensures found.Some? ==> forall r :: FindsStale(db.Value(), r, timeout, grace) ==>
                Before(db.reservations[found.value].created, found.value, db.reservations[r].created, r)
    {
      var s := db.Value();
      var rows := set r | r in s.reservations && FindsStale(s, r, timeout, grace);
      found := Oldest(rows, map r | r in rows :: s.reservations[r].created);
      assert forall r :: FindsStale(s, r, timeout, grace) ==> r in rows;
    }

    method FindNextOrphanedClaim(grace: nat) returns (found: Option<ReservationId>)
      ensures found == None ==> forall r :: !FindsOrphan(db.Value(), r, grace)
      ensures found.Some? ==> FindsOrphan(db.Value(), found.value, grace)
      ensures found.Some? ==> forall r :: FindsOrphan(db.Value(), r, grace) ==>
                Before(db.reservations[found.value].updated, found.value, db.reservations[r].updated, r)
    {
      var s := db.Value();
      var rows := set r | r in s.reservations && FindsOrphan(s, r, grace);
      found := Oldest(rows, map r | r in rows :: s.reservations[r].updated);
      assert forall r :: FindsOrphan(s, r, grace) ==> r in rows;
    }

    /** The locked half of an expiry sweep. */
    method Reap(r: ReservationId, grace: nat) returns (error: Option<Error>)
      modifies db
      ensures db.Value() == ReapTx(old(db.Value()), r, grace).After(old(db.Value()))
      ensures error == Committed(ReapTx(old(db.Value()), r, grace))
    {
      var saved := db.Value();
      if r !in db.reservations {
        return Some(ErrNotFound);
      }
      var current := db.reservations[r];
      if current.status != ReservationActive || current.expires == None {
        return Some(ErrNothingToReap);
      }
      if current.expires.value + grace > db.now {
        return Some(ErrNothingToReap);
      }
      assert Plain("expired");
      PlainTrims("expired");
      error := CloseActiveLocked(r, ReservationExpired, "expired");
      if error.Some? {
        db.RollbackTo(saved);
      }
    }

    /** The locked half of the stale-pending sweep. */
    method FailStale(r: ReservationId, timeout: nat, grace: nat) returns (error: Option<Error>)
      modifies db`reservations
      ensures db.Value() == StaleTx(old(db.Value()), r, timeout, grace).After(old(db.Value()))
      ensures error == Committed(StaleTx(old(db.Value()), r, timeout, grace))
    {
      if r !in db.reservations {
        return Some(ErrNotFound);
      }
      var current := db.reservations[r];
      if current.status != ReservationPending || current.device.Some? {
        return Some(ErrNothingToReap);
      }
      if current.created + timeout + grace > db.now {
        return Some(ErrNothingToReap);
      }
      db.SetReservation(r, current.(status := ReservationFailed, failure := Some("PENDING_TIMEOUT"),
                                    updated := db.now));
      error := None;
    }

    /** The locked half of the orphaned-claim sweep. */
    method FailOrphan(r: ReservationId, grace: nat) returns (error: Option<Error>)
      modifies db`devices, db`reservations
      ensures db.Value() == OrphanTx(old(db.Value()), r, grace).After(old(db.Value()))
      ensures error == Committed(OrphanTx(old(db.Value()), r, grace))
    {
      if r !in db.reservations {
        return Some(ErrNotFound);
      }
      var current := db.reservations[r];
      if current.status != ReservationPending || current.device == None {
        return Some(ErrNothingToReap);
      }
      if current.updated + grace > db.now {
        return Some(ErrNothingToReap);
      }
      var d := current.device.value;
      if d !in db.devices || db.devices[d].lifecycle != DeviceReserved {
        return Some(ErrNotFound);
      }
      db.SetDevice(d, db.devices[d].(lifecycle := if db.devices[d].health == HealthHealthy then DeviceReady
                                     else DeviceQuarantined));
      db.SetReservation(r, current.(device := None, status := ReservationFailed, failure := Some("CLAIM_ABANDONED"),
                                    updated := db.now));
      error := None;
    }
  }
}
