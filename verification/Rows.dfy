/** The rows the control plane shares, the predicates its queries select by, and the
    database object whose fields the transactions update.

    Identifiers are numbers: the rank of the row's text identifier in the order the
    queries sort by. Instants are microseconds of the database clock. */
module Rows {
  import opened Domain

  const SECOND: int := 1_000_000

  datatype Option<+T> = None | Some(value: T)

  type DeviceId = nat
  type ReservationId = nat
  type SessionId = nat
  type HostId = nat
  type PoolId = nat
  type Clock = t: int | 0 < t witness 1

  datatype Platform = Android | Ios
  datatype DeviceKind = Emulator | Simulator | Physical
  datatype Mode = RebuildMode | CleanMode | FactoryResetMode
  datatype HostStatus = HostOnline | HostOffline | HostDraining | HostMaintenance

  /** `draining` is the flag an administrator sets beside the status; `fence` says whether the host
      advertises a usable session fence endpoint. */
  datatype Host = Host(status: HostStatus, draining: bool, fence: bool)

  datatype Pool = Pool(enabled: bool, platform: Platform, maxLease: int, maxConcurrency: nat, freshVM: bool)

  /** `pool` is the enabled pool membership, if there is one.
      `routed` says whether both the Appium endpoint and the Appium UDID are known. */
  datatype Device = Device(
    host: HostId, platform: Platform, kind: DeviceKind, pool: Option<PoolId>, created: int,
    mode: Mode, lifecycle: Lifecycle, health: Health, reason: Option<string>, failures: nat,
    caps: map<string, string>, apiLevel: nat, routed: bool, providerBusy: bool)

  /** What the caller asked for; `wanted` holds the keys that are matched exactly. */
  datatype Request = Request(
    client: nat, key: string, pool: PoolId, owner: (string, string), lease: int,
    target: Option<DeviceId>, platform: Option<Platform>, minSdk: nat, wanted: map<string, string>)

  datatype Reservation = Reservation(
    request: Request, status: ReservationStatus, device: Option<DeviceId>,
    starts: Option<int>, expires: Option<int>, released: Option<int>, failure: Option<string>,
    created: int, updated: int)

  /** A grant is stored as the hash of its text; the hash is taken to be injective. */
  datatype GrantHash = Sha256(grant: string)
  datatype Grant = Grant(hash: GrantHash, expires: int, consumed: Option<int>)
  datatype Appium = Appium(id: string, started: int, ended: Option<int>)

  /** `host` and `routed` are the connection snapshot taken when the session started. */
  datatype Session = Session(
    id: SessionId, device: DeviceId, status: SessionStatus, started: int, ended: Option<int>,
    host: HostId, routed: bool, grant: Option<Grant>, appium: Option<Appium>)

  datatype Scope = ExtendScope | ReleaseScope
  datatype OpKey = OpKey(client: nat, scope: Scope, key: string)
  datatype OpBody = ExtendBody(seconds: int) | ReleaseBody(why: string, force: bool)
  datatype Operation = Operation(body: OpBody, resource: ReservationId)

  /** The whole store. Sessions are keyed by their reservation, the column that is unique. */
  datatype State = Store(
    now: Clock,
    pools: map<PoolId, Pool>,
    hostPool: map<HostId, PoolId>,
    hosts: map<HostId, Host>,
    devices: map<DeviceId, Device>,
    reservations: map<ReservationId, Reservation>,
    sessions: map<ReservationId, Session>,
    operations: map<OpKey, Operation>)

  datatype Error =
    | ErrNotFound | ErrConflict | ErrForbidden | ErrInvalidArgument | ErrCapacityUnavailable
    | ErrNothingToReap | ErrPoolUnavailable | ErrIdempotencyConflict | ErrInvalidTransition
    | ErrNotHealthy | ErrUniqueViolation | ErrIdentityConflict | ErrProviderBusy
    | ErrProviderBusyConverging | ErrHostUnavailable | ErrGrantConsumed | ErrGrantExpired
    | ErrRoutingMismatch

  /** A transaction either commits a whole new state or leaves no trace. */
  datatype Outcome = Commit(post: State) | Rollback(error: Error) {
    function After(pre: State): (result: State) {
      if Commit? then post else pre
    }
  }

  // ---- What the queries ask ----

  predicate Open(r: Reservation) {
    r.status == ReservationPending || r.status == ReservationActive
  }

  predicate Bound(r: Reservation, d: DeviceId) {
    Open(r) && r.device == Some(d)
  }

  predicate HasActive(s: State, d: DeviceId) {
    exists r :: r in s.reservations && s.reservations[r].status == ReservationActive
        && s.reservations[r].device == Some(d)
  }

  predicate HasPending(s: State, d: DeviceId) {
    exists r :: r in s.reservations && s.reservations[r].status == ReservationPending
        && s.reservations[r].device == Some(d)
  }

  predicate HasOpen(s: State, d: DeviceId) {
    HasActive(s, d) || HasPending(s, d)
  }

  /** The lifecycle an open reservation entitles the device to. */
  function AssignmentTarget(s: State, d: DeviceId): (result: Option<Lifecycle>) {
    if HasActive(s, d) then Some(DeviceBusy)
    else if HasPending(s, d) then Some(DeviceReserved)
    else None
  }

  function ActiveOnHost(s: State, h: HostId): (result: set<ReservationId>) {
    set r | r in s.reservations && s.reservations[r].status == ReservationActive
            && s.reservations[r].device.Some? && s.reservations[r].device.value in s.devices
            && s.devices[s.reservations[r].device.value].host == h
  }

  /** The active pool of a host, as allocation sees it. */
  function PolicyForHost(s: State, h: HostId): (result: Option<Pool>) {
    if h in s.hostPool && s.hostPool[h] in s.pools && s.pools[s.hostPool[h]].enabled
    then Some(s.pools[s.hostPool[h]]) else None
  }

  /** The pool of a host whether or not it is still active, as release sees it. */
  function PolicyForRelease(s: State, h: HostId): (result: Option<Pool>) {
    if h in s.hostPool && s.hostPool[h] in s.pools then Some(s.pools[s.hostPool[h]]) else None
  }

  predicate Schedulable(s: State, d: Device) {
    && d.pool.Some? && d.pool.value in s.pools
    && s.pools[d.pool.value].enabled && s.pools[d.pool.value].platform == d.platform
    && d.host in s.hosts && s.hosts[d.host].status == HostOnline && !s.hosts[d.host].draining
    && d.lifecycle == DeviceReady && d.health == HealthHealthy
  }

  predicate Satisfies(id: DeviceId, d: Device, q: Request) {
    && (q.target == None || q.target == Some(id))
    && (q.platform == None || q.platform == Some(d.platform))
    && (forall k :: k in q.wanted ==> k in d.caps && d.caps[k] == q.wanted[k])
    && (q.minSdk == 0 || d.apiLevel >= q.minSdk)
  }

  predicate Matching(s: State, q: Request, d: DeviceId) {
    d in s.devices && Schedulable(s, s.devices[d]) && Satisfies(d, s.devices[d], q)
  }

  predicate Allocatable(s: State, r: ReservationId) {
    && r in s.reservations
    && s.reservations[r].status == ReservationPending && s.reservations[r].device == None
    && (s.reservations[r].failure == None || s.reservations[r].updated <= s.now - 5 * SECOND)
    && exists d :: d in s.devices && Matching(s, s.reservations[r].request, d)
  }

  predicate Before(a: int, ia: nat, b: int, ib: nat) {
    a < b || (a == b && ia <= ib)
  }

  /** The oldest reservation some device could serve right now. */
  predicate NextAllocatable(s: State, r: ReservationId) {
    Allocatable(s, r)
    && forall q :: q in s.reservations && Allocatable(s, q) ==>
        Before(s.reservations[r].created, r, s.reservations[q].created, q)
  }

  predicate NextDevice(s: State, q: Request, d: DeviceId) {
    Matching(s, q, d)
    && forall e :: e in s.devices && Matching(s, q, e) ==> Before(s.devices[d].created, d, s.devices[e].created, e)
  }

  // ---- Existence of a first row ----

  /** A non-empty finite set of keys has a first element in (created, id) order. */
  lemma {:induction false} First(keys: set<nat>, created: map<nat, int>) returns (first: nat)
    requires keys != {} && keys <= created.Keys
    ensures first in keys
    ensures forall j :: j in keys ==> Before(created[first], first, created[j], j)
    decreases keys
  {
    var pick :| pick in keys;
    var rest := keys - {pick};
    first := pick;
    if rest == {} {
    } else {
      var m := First(rest, created);
      if !Before(created[pick], pick, created[m], m) {
        first := m;
      }
    }
    forall j | j in keys
      ensures Before(created[first], first, created[j], j)
    {
      if j != pick {
        assert j in rest;
      }
    }
  }

  lemma NextAllocatableExists(s: State, r: ReservationId)
    requires Allocatable(s, r)
    ensures exists q :: NextAllocatable(s, q)
  {
    var keys := set q | q in s.reservations && Allocatable(s, q);
    var created := map q | q in s.reservations :: s.reservations[q].created;
    assert r in keys;
    var k := First(keys, created);
    forall q | Allocatable(s, q)
      ensures Before(s.reservations[k].created, k, s.reservations[q].created, q)
    {
      assert q in keys;
    }
    assert NextAllocatable(s, k);
  }

  lemma NextDeviceExists(s: State, q: Request, d: DeviceId)
    requires Matching(s, q, d)
    ensures exists e :: NextDevice(s, q, e)
  {
    var keys := set e | e in s.devices && Matching(s, q, e);
    var created := map e | e in s.devices :: s.devices[e].created;
    assert d in keys;
    var k := First(keys, created);
    forall e | Matching(s, q, e)
      ensures Before(s.devices[k].created, k, s.devices[e].created, e)
    {
      assert e in keys;
    }
    assert NextDevice(s, q, k);
  }

  // ---- The database object ----

  class Database {
    const pools: map<PoolId, Pool>
    const hostPool: map<HostId, PoolId>
    var now: Clock
    var hosts: map<HostId, Host>
    var devices: map<DeviceId, Device>
    var reservations: map<ReservationId, Reservation>
    var sessions: map<ReservationId, Session>
    var operations: map<OpKey, Operation>

    constructor (pools: map<PoolId, Pool>, hostPool: map<HostId, PoolId>, hosts: map<HostId, Host>, now: Clock)
      ensures Value() == Store(now, pools, hostPool, hosts, map[], map[], map[], map[])
    {
      this.pools, this.hostPool, this.hosts, this.now := pools, hostPool, hosts, now;
      devices, reservations, sessions, operations := map[], map[], map[], map[];
    }

    /** The value of the store: what a transaction reads and what a rollback restores. */
    function Value(): (s: State)
      reads this
    {
      Store(now, pools, hostPool, hosts, devices, reservations, sessions, operations)
    }

    method RollbackTo(saved: State)
      requires saved.pools == pools && saved.hostPool == hostPool
      modifies this
      ensures Value() == saved
    {
      now, hosts, devices := saved.now, saved.hosts, saved.devices;
      reservations, sessions, operations := saved.reservations, saved.sessions, saved.operations;
    }

    method SetDevice(d: DeviceId, row: Device)
      modifies this`devices
      ensures devices == old(devices)[d := row]
    {
      devices := devices[d := row];
    }

    method SetReservation(r: ReservationId, row: Reservation)
      modifies this`reservations
      ensures reservations == old(reservations)[r := row]
    {
      reservations := reservations[r := row];
    }

    method SetSession(r: ReservationId, row: Session)
      modifies this`sessions
      ensures sessions == old(sessions)[r := row]
    {
      sessions := sessions[r := row];
    }
  }
}
